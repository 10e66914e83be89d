/**
 * What every step of the pool keeps, part three: no wake-up is lost. This concerns the condition
 * variable of the group, where the workers sleep, and that of the timer thread.
 */
module PoolWakeups {
  import opened Basics
  import opened Pool
  import opened PoolExclusion
  import Q = PriorityQueues
  import D = DelayedTasks

  /** An awake worker on its way to check the queue, or one that is about to notify the group. */
  function WorkerRelief(w: Worker): nat {
    if w.Awake? || w.Notifying? then 1 else 0
  }

  /** A poster that is about to notify the group. */
  function PostRelief(x: Post): nat {
    if x == Post.Notifying then 1 else 0
  }

  function TimerRelief(t: TimerPhase): nat {
    if t == TimerPhase.Notifying then 1 else 0
  }

  /** Pending notifications of the group plus awake workers on their way to check. */
  function Relief(p: State): nat {
    Sum(WorkerRelief, p.workers) + Sum(PostRelief, p.posts) + TimerRelief(p.timer.phase)
  }

  /** While any worker sleeps, queued entries are no more than those who will attend to them. */
  ghost predicate WorkConserving(p: State) {
    !p.group.shutdown && AnyAsleep(p.workers) ==> |p.group.queue.heap| <= Relief(p)
  }

  lemma WakeRelief(ws: seq<Worker>, w: nat)
    requires Picks(ws, w)
    ensures AnyAsleep(ws) ==> Sum(WorkerRelief, Wake(ws, w)) == Sum(WorkerRelief, ws) + 1
    ensures AnyAsleep(Wake(ws, w)) ==> AnyAsleep(ws)
  {
    if AnyAsleep(ws) {
      SumUpdate(WorkerRelief, ws, w, Awake);
    } else {
      assert Wake(ws, w) == ws;
    }
  }

  lemma StillAsleep(ws: seq<Worker>, i: nat, w: Worker)
    requires i < |ws| && AnyAsleep(ws[i := w]) && !w.Asleep?
    ensures AnyAsleep(ws)
  {
    var k :| 0 <= k < |ws| && ws[i := w][k].Asleep?;
    assert ws[k].Asleep?;
  }

  lemma ConservingByNotify(p: State, i: nat, w: nat)
    requires WorkEnabled(p, i, WorkStep.Notify(w)) && WorkConserving(p)
    ensures WorkConserving(DoWork(p, i, WorkStep.Notify(w)))
  {
    var ws := p.workers[i := Awake];
    SumUpdate(WorkerRelief, p.workers, i, Awake);
    if AnyAsleep(p.workers) {
      assert ws[w].Asleep?;
    }
    if AnyAsleep(ws) {
      StillAsleep(p.workers, i, Awake);
    }
    WakeRelief(ws, w);
  }

  /** A worker goes to sleep only when the queue is empty; a pop uses up the worker that was on its way. */
  lemma ConservingByFetch(p: State, i: nat, e: Q.Entry)
    requires WorkEnabled(p, i, Fetch(e)) && WorkConserving(p)
    ensures WorkConserving(DoWork(p, i, Fetch(e)))
  {
    var w := DoWork(p, i, Fetch(e)).workers[i];
    SumUpdate(WorkerRelief, p.workers, i, w);
    if AnyAsleep(p.workers[i := w]) && !w.Asleep? {
      StillAsleep(p.workers, i, w);
    }
  }

  lemma ConservingByMove(p: State, i: nat, a: WorkStep)
    requires WorkEnabled(p, i, a) && WorkConserving(p) && !a.Notify? && !a.Fetch?
    ensures WorkConserving(DoWork(p, i, a))
  {
    var w := DoWork(p, i, a).workers[i];
    SumUpdate(WorkerRelief, p.workers, i, w);
    if AnyAsleep(p.workers[i := w]) {
      StillAsleep(p.workers, i, w);
    }
  }

  lemma ConservingByWorker(p: State, i: nat, a: WorkStep)
    requires WorkEnabled(p, i, a) && WorkConserving(p)
    ensures WorkConserving(DoWork(p, i, a))
  {
    if a.Notify? {
      ConservingByNotify(p, i, a.w);
    } else if a.Fetch? {
      ConservingByFetch(p, i, a.e);
    } else {
      ConservingByMove(p, i, a);
    }
  }

  lemma ConservingByPost(p: State, a: PostStep)
    requires PostEnabled(p, a) && WorkConserving(p)
    ensures WorkConserving(DoPost(p, a))
  {
    var r := DoPost(p, a);
    match a
    case PostTask(s, _) => SumAppend(PostRelief, p.posts, Pushed(s));
    case PostDelayed(s, _, readyTime) => SumAppend(PostRelief, p.posts, Adding(s, readyTime));
    case Gate(_, ready, callback) => SumAppend(PostRelief, p.posts, Accepted(|p.cells|, ready, callback));
    case NewRunner(_) =>
    case Reject(_) =>
    case NotifyGroup(j, w) =>
      SumUpdate(PostRelief, p.posts, j, Posted);
      WakeRelief(p.workers, w);
    case _ => SumUpdate(PostRelief, p.posts, a.j, r.posts[a.j]);
  }

  lemma ConservingByTimer(p: State, a: TimerStep)
    requires TimerEnabled(p, a) && WorkConserving(p)
    ensures WorkConserving(DoTimer(p, a))
  {
    if a.Notify? {
      WakeRelief(p.workers, a.w);
    }
  }

  lemma ConservingByCloser(p: State, c: nat, a: CloseStep)
    requires CloseEnabled(p, c, a) && WorkConserving(p)
    ensures WorkConserving(DoClose(p, c, a))
  {
  }

  lemma ConservingStep(p: State, a: Step)
    requires Enabled(p, a) && WorkConserving(p)
    ensures WorkConserving(Do(p, a))
  {
    match a
    case Tick(_) =>
    case ByPost(b) => ConservingByPost(p, b);
    case ByWorker(i, b) => ConservingByWorker(p, i, b);
    case ByTimer(b) => ConservingByTimer(p, b);
    case OpenShutdown =>
    case ByCloser(c, b) => ConservingByCloser(p, c, b);
  }

  // ---- The timer never oversleeps ----

  /** Unless a notification is on its way, no entry is due before the timer thread wakes up. */
  ghost predicate TimerOnTime(p: State) {
    || NotifyingTimer in p.posts
    || match p.timer.phase
       case Idle => p.timer.heap == {}
       case Dozing(until) => forall e | e in p.timer.heap :: until <= e.readyTime
       case _ => true
  }

  lemma OnTimeStep(p: State, a: Step)
    requires Enabled(p, a) && TimerOnTime(p)
    ensures TimerOnTime(Do(p, a))
  {
    match a
    case ByPost(b) => OnTimeByPost(p, b);
    case ByTimer(b) => OnTimeByTimer(p, b);
    case _ =>
  }

  lemma OnTimeByTimer(p: State, a: TimerStep)
    requires TimerEnabled(p, a) && TimerOnTime(p)
    ensures TimerOnTime(DoTimer(p, a))
  {
    if a.Scan? && DoTimer(p, a).timer.phase.Dozing? {
      D.NextIsEarliest(p.timer.heap, a.e);
    }
  }

  lemma OnTimeByPost(p: State, a: PostStep)
    requires PostEnabled(p, a) && TimerOnTime(p)
    ensures TimerOnTime(DoPost(p, a))
  {
    var r := DoPost(p, a);
    match a
    case NotifyTimer(j) =>
    case AddToTimer(j) => assert r.posts[j] == NotifyingTimer;
    case _ =>
      if NotifyingTimer in p.posts {
        var k :| 0 <= k < |p.posts| && p.posts[k] == NotifyingTimer;
        assert r.posts[k] == NotifyingTimer;
      }
  }
}
