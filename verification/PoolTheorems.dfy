/** What holds in every reachable state of the pool, and along every run. */
module PoolTheorems {
  import opened Basics
  import opened Traits
  import opened Pool
  import opened PoolExclusion
  import opened PoolCoverage
  import opened PoolWakeups
  import opened PoolShutdown
  import opened PoolQuiescence
  import S = Sequences
  import Q = PriorityQueues
  import D = DelayedTasks
  import T = TaskTrackers

  // ---- Reachability ----

  lemma InitIsSafe(p: State)
    requires Init(p)
    ensures Safe(p)
  {
    assert Sum(Owes, p.cells) == 0;
  }

  lemma {:induction false} RunIsSafe(ps: seq<State>, n: nat)
    requires IsRun(ps) && n < |ps|
    ensures Safe(ps[n])
  {
    if n == 0 {
      InitIsSafe(ps[0]);
    } else {
      RunIsSafe(ps, n - 1);
      assert Next(ps[n - 1], ps[n - 1 + 1]);
      var a :| Enabled(ps[n - 1], a) && ps[n] == Do(ps[n - 1], a);
      SafeStep(ps[n - 1], a);
    }
  }

  lemma ReachableIsSafe(p: State)
    requires Reachable(p)
    ensures Safe(p)
  {
    var ps :| IsRun(ps) && ps[|ps| - 1] == p;
    RunIsSafe(ps, |ps| - 1);
  }

  ghost predicate IsPath(ps: seq<State>) {
    ps != [] && forall n | 0 <= n < |ps| - 1 :: Next(ps[n], ps[n + 1])
  }

  /** Some sequence of steps leads from `p` to `r`. */
  ghost predicate Leads(p: State, r: State) {
    exists ps :: IsPath(ps) && ps[0] == p && ps[|ps| - 1] == r
  }

  lemma LeadsHome(p: State)
    ensures Leads(p, p)
  {
    assert IsPath([p]);
  }

  lemma LeadsOn(p: State, q: State, a: Step)
    requires Leads(p, q) && Enabled(q, a)
    ensures Leads(p, Do(q, a))
  {
    var ps :| IsPath(ps) && ps[0] == p && ps[|ps| - 1] == q;
    var rs := ps + [Do(q, a)];
    forall n | 0 <= n < |rs| - 1 ensures Next(rs[n], rs[n + 1]) {
      if n < |ps| - 1 {
        assert Next(ps[n], ps[n + 1]);
      } else {
        assert rs[n] == q;
      }
    }
    assert IsPath(rs);
  }

  lemma LeadsFromStart(p: State, r: State)
    requires Init(p) && Leads(p, r)
    ensures Reachable(r)
  {
    var ps :| IsPath(ps) && ps[0] == p && ps[|ps| - 1] == r;
    assert IsRun(ps);
  }

  lemma ReachableLeads(p: State, r: State)
    requires Reachable(p) && Leads(p, r)
    ensures Reachable(r)
  {
    var ps :| IsRun(ps) && ps[|ps| - 1] == p;
    var rs :| IsPath(rs) && rs[0] == p && rs[|rs| - 1] == r;
    var all := ps + rs[1..];
    forall n | 0 <= n < |all| - 1 ensures Next(all[n], all[n + 1]) {
      if n < |ps| - 1 {
        assert Next(ps[n], ps[n + 1]);
      } else {
        var m := n - |ps| + 1;
        assert Next(rs[m], rs[m + 1]);
        assert all[n] == rs[m];
      }
    }
    assert IsRun(all);
  }

  // ---- Exclusion, order, and exactly-once ----

  /** The flag of a sequence is set exactly while a worker is between its claim and its release; there is only one. */
  lemma OneOwner(p: State, s: nat)
    requires Reachable(p) && s < |p.cells|
    ensures p.cells[s].q.hasWorker <==> Owned(p.workers, s)
    ensures forall i, j | 0 <= i < |p.workers| && 0 <= j < |p.workers| ::
              Owns(p.workers[i]) && Owns(p.workers[j]) && p.workers[i].source == p.workers[j].source == s ==> i == j
  {
    ReachableIsSafe(p);
  }

  /** Callbacks of one sequence never overlap. */
  lemma CallbacksNeverOverlap(p: State, i: nat, j: nat)
    requires Reachable(p) && i < |p.workers| && j < |p.workers| && i != j
    requires p.workers[i].Running? && p.workers[j].Running?
    ensures p.workers[i].source != p.workers[j].source
  {
    ReachableIsSafe(p);
    assert Owns(p.workers[i]) && Owns(p.workers[j]);
  }

  /** What was taken from a sequence, followed by what is queued, is the history of arrivals in its queue. */
  lemma QueueIsFifo(p: State, s: nat)
    requires Reachable(p) && s < |p.cells|
    ensures var q := p.cells[s].q; q.taken + q.immediate == q.arrivals && |q.stamps| == |q.arrivals|
  {
    ReachableIsSafe(p);
    assert S.Valid(p.cells[s].q, p.clock);
  }

  /** No task was taken before its deadline: it entered the queue, stamped by the clock, after that. */
  lemma TakenInTime(p: State, s: nat, i: nat)
    requires Reachable(p) && s < |p.cells| && i < |p.cells[s].q.taken|
    ensures var q := p.cells[s].q;
            && |q.stamps| == |q.arrivals| && q.taken + q.immediate == q.arrivals
            && S.IsDue(q.taken[i], q.stamps[i].at) && q.stamps[i].at <= p.clock
            && q.taken[i].sequenceNum < q.stamps[i].mark <= q.next
  {
    ReachableIsSafe(p);
    var q := p.cells[s].q;
    assert S.Valid(q, p.clock);
    assert q.arrivals[i] == q.taken[i];
    assert S.ArrivedInTime(q.arrivals[i], q.stamps[i], q.next, p.clock);
  }

  /** No callback runs before its deadline. */
  lemma NeverRunsEarly(p: State, i: nat)
    requires Reachable(p) && i < |p.workers| && Holds(p.workers[i])
    ensures S.IsDue(p.workers[i].task, p.clock)
  {
    ReachableIsSafe(p);
    var s := p.workers[i].source;
    var last := |p.cells[s].q.taken| - 1;
    assert p.cells[s].q.taken[last] == p.workers[i].task;
    TakenInTime(p, s, last);
  }

  /**
   * The order in which tasks of a sequence are taken: immediate tasks in the order of their posts,
   * delayed tasks in the order of deadline and post, unless the later one was posted after the
   * earlier one had already left the heap.
   */
  lemma TakenInOrder(p: State, s: nat, i: nat, j: nat)
    requires Reachable(p) && s < |p.cells|
    requires i < j < |p.cells[s].q.taken|
    ensures var q := p.cells[s].q;
            var x, y := q.taken[i], q.taken[j];
            && |q.stamps| == |q.arrivals| >= |q.taken|
            && (x.readyTime.None? && y.readyTime.None? ==> x.sequenceNum < y.sequenceNum)
            && (x.readyTime.Some? && y.readyTime.Some? ==>
                  S.Earlier(x, y) || y.sequenceNum >= q.stamps[i].mark > x.sequenceNum)
  {
    ReachableIsSafe(p);
    var q := p.cells[s].q;
    assert S.Valid(q, p.clock);
    assert q.arrivals[i] == q.taken[i] && q.arrivals[j] == q.taken[j];
    assert S.MayFollow(q.arrivals[j], q.arrivals[i], q.stamps[i]);
    TakenInTime(p, s, i);
    TakenAreDistinct(q, i, j);
  }

  lemma TakenAreDistinct(q: S.State, i: nat, j: nat)
    requires S.Conserved(q) && i < j < |q.taken|
    ensures q.taken[i].sequenceNum != q.taken[j].sequenceNum
  {
    var x, y := q.taken[i], q.taken[j];
    PostedOnce(q, x);
    assert q.taken == q.taken[..j] + [y] + q.taken[j + 1..];
    assert x in q.taken[..j];
    assert y in multiset(q.taken) && x in multiset(q.taken);
    assert x in multiset(q.posted) && y in multiset(q.posted);
  }

  /** Posts are told apart by their numbers. */
  lemma {:induction false} PostedOnce(q: S.State, t: S.Task)
    requires |q.posted| == q.next && forall k | 0 <= k < |q.posted| :: q.posted[k].sequenceNum == k
    ensures multiset(q.posted)[t] == if t in q.posted then 1 else 0
  {
    if t in q.posted {
      var k := t.sequenceNum;
      assert q.posted[k] == t;
      assert q.posted == q.posted[..k] + [t] + q.posted[k + 1..];
      assert t !in q.posted[..k] && t !in q.posted[k + 1..];
    }
  }

  /** The tasks of sequence `s` that workers have taken and not finished. */
  function TasksInHand(ws: seq<Worker>, s: nat): seq<S.Task> {
    if ws == [] then [] else
      var w := ws[|ws| - 1];
      TasksInHand(ws[..|ws| - 1], s) + if Holds(w) && w.source == s then [w.task] else []
  }

  lemma {:induction false} NoneInHand(ws: seq<Worker>, s: nat)
    requires !Held(ws, s)
    ensures TasksInHand(ws, s) == []
  {
    if ws != [] {
      var rest := ws[..|ws| - 1];
      assert forall k | 0 <= k < |rest| :: rest[k] == ws[k];
      NoneInHand(rest, s);
    }
  }

  lemma {:induction false} OneInHand(ws: seq<Worker>, s: nat, i: nat)
    requires i < |ws| && Holds(ws[i]) && ws[i].source == s
    requires forall k | 0 <= k < |ws| && k != i :: !(Holds(ws[k]) && ws[k].source == s)
    ensures TasksInHand(ws, s) == [ws[i].task]
  {
    var rest := ws[..|ws| - 1];
    assert forall k | 0 <= k < |rest| :: rest[k] == ws[k];
    if i == |ws| - 1 {
      NoneInHand(rest, s);
    } else {
      OneInHand(rest, s, i);
    }
  }

  /**
   * Exactly once: each post of a sequence is finished, in the hands of a worker, queued, or
   * waiting for its time, and in one of these places only; and no two posts are the same.
   */
  lemma ExactlyOnce(p: State, s: nat)
    requires Reachable(p) && s < |p.cells|
    ensures var c := p.cells[s];
            multiset(c.q.posted) == multiset(c.finished) + multiset(TasksInHand(p.workers, s))
                                    + multiset(c.q.immediate) + multiset(c.q.delayed)
    ensures |TasksInHand(p.workers, s)| <= 1
    ensures forall t :: multiset(p.cells[s].q.posted)[t] <= 1
  {
    ReachableIsSafe(p);
    assert S.Conserved(p.cells[s].q) by { assert S.Valid(p.cells[s].q, p.clock); }
    forall t ensures multiset(p.cells[s].q.posted)[t] <= 1 {
      PostedOnce(p.cells[s].q, t);
    }
    TakenIsFinishedOrInHand(p.cells, p.workers, s);
  }

  lemma TakenIsFinishedOrInHand(cells: seq<Cell>, ws: seq<Worker>, s: nat)
    requires Exclusive(cells, ws) && InHand(cells, ws) && s < |cells|
    ensures cells[s].q.taken == cells[s].finished + TasksInHand(ws, s) && |TasksInHand(ws, s)| <= 1
  {
    if Held(ws, s) {
      var i :| 0 <= i < |ws| && Holds(ws[i]) && ws[i].source == s;
      OneInHand(ws, s, i);
    } else {
      NoneInHand(ws, s);
    }
  }

  // ---- Nothing is lost ----

  /** No stranded work, spelled out for immediate tasks. */
  lemma NoStrandedWork(p: State, s: nat)
    requires Reachable(p) && s < |p.cells| && p.cells[s].q.immediate != []
    ensures || (exists e :: e in p.group.queue.heap && e.source == s)
            || Pushed(s) in p.posts
            || p.timer.phase == Carrying(s)
            || (exists i :: 0 <= i < |p.workers| && Attends(p.workers[i]) && p.workers[i].source == s)
  {
    ReachableIsSafe(p);
    assert CellCovered(p, s);
  }

  /** No stranded delayed work. */
  lemma NoStrandedDelay(p: State, s: nat, t: S.Task)
    requires Reachable(p) && s < |p.cells| && t in p.cells[s].q.delayed
    ensures || (exists e :: e in p.timer.heap && e.source == s && e.readyTime == S.ReadyAt(t))
            || Adding(s, S.ReadyAt(t)) in p.posts
            || (S.ReadyAt(t) <= p.clock && Covered(p, s))
  {
    ReachableIsSafe(p);
    assert CellCovered(p, s);
    assert DelayCovered(p, s, S.ReadyAt(t));
  }

  /** Work conservation; in particular, queued work and a sleeping worker imply that help is on its way. */
  lemma NoLostWakeUp(p: State)
    requires Reachable(p) && !p.group.shutdown && AnyAsleep(p.workers)
    ensures |p.group.queue.heap| <= Relief(p)
    ensures p.group.queue.heap != {} ==>
              || (exists i :: 0 <= i < |p.workers| && (p.workers[i].Awake? || p.workers[i].Notifying?))
              || Post.Notifying in p.posts
              || p.timer.phase == TimerPhase.Notifying
  {
    ReachableIsSafe(p);
    if Sum(WorkerRelief, p.workers) > 0 {
      var i := SumWitness(WorkerRelief, p.workers);
    }
    if Sum(PostRelief, p.posts) > 0 {
      var j := SumWitness(PostRelief, p.posts);
    }
  }

  /** The timer thread sleeps past no deadline: a notification is pending, or all entries are later than its alarm. */
  lemma TimerNeverOversleeps(p: State)
    requires Reachable(p) && NotifyingTimer !in p.posts
    ensures p.timer.phase.Idle? ==> p.timer.heap == {}
    ensures p.timer.phase.Dozing? ==> forall e | e in p.timer.heap :: p.timer.phase.until <= e.readyTime
  {
    ReachableIsSafe(p);
  }

  /** The timer thread fires one entry at a time, only a due one, and before every other entry of its heap. */
  lemma TimerFiresDueMinimum(p: State, e: D.DelayedEntry)
    requires Reachable(p) && TimerEnabled(p, Scan(e)) && DoTimer(p, Scan(e)).timer.phase.Carrying?
    ensures e in p.timer.heap && e.readyTime <= p.clock
    ensures DoTimer(p, Scan(e)).timer.heap == p.timer.heap - {e}
    ensures DoTimer(p, Scan(e)).timer.phase == Carrying(e.source)
    ensures forall x | x in p.timer.heap && x != e :: D.Precedes(e, x)
  {
    assert D.HeapValid(p.timer.heap, p.timer.nextId) by { ReachableIsSafe(p); }
    if p.timer.heap != {} {
      D.NextIsStrict(p.timer.heap, p.timer.nextId, e);
    }
  }

  /**
   * Round robin: when an entry has been served, every entry of at least its priority that was
   * queued at a strictly earlier instant has been served before it.
   */
  lemma RoundRobinService(p: State, n: nat, k: nat)
    requires Reachable(p) && n < |p.group.queue.served| && k < |p.group.queue.pushed|
    ensures p.group.queue.served[n] < |p.group.queue.pushed|
    ensures Q.GoesFirst(p.group.queue.pushed[k], p.group.queue.pushed[p.group.queue.served[n]]) ==>
              k in p.group.queue.served[..n]
  {
    ReachableIsSafe(p);
  }

  // ---- Shutdown ----

  lemma SafeCounter(p: State)
    requires Safe(p)
    ensures 0 <= p.tracker.blocking == Sum(Owes, p.cells)
  {
  }

  /** The counter is exact and never negative. Once shutdown has started it only falls. */
  lemma CounterOnlyFalls(p: State, a: Step)
    requires Reachable(p) && Enabled(p, a)
    ensures 0 <= p.tracker.blocking == Sum(Owes, p.cells)
    ensures 0 <= Do(p, a).tracker.blocking == Sum(Owes, Do(p, a).cells)
    ensures p.tracker.shutdownStarted ==>
              Do(p, a).tracker.shutdownStarted && Do(p, a).tracker.blocking <= p.tracker.blocking
  {
    hide Safe, Do, Enabled;
    ReachableIsSafe(p);
    SafeCounter(p);
    SafeStep(p, a);
    SafeCounter(Do(p, a));
    if p.tracker.shutdownStarted {
      TrackerStep(p, a);
    }
  }

  lemma TrackerStep(p: State, a: Step)
    requires Enabled(p, a) && p.tracker.shutdownStarted
    ensures Do(p, a).tracker.shutdownStarted && Do(p, a).tracker.blocking <= p.tracker.blocking
  {
  }

  /**
   * When the tracker's wait is over for some call of shutdown, every BlockShutdown task that the
   * pool ever accepted has been posted and is finished, and its callback was not dropped.
   */
  lemma BlockingTasksAreFinished(p: State, c: nat, s: nat)
    requires Reachable(p) && c < |p.closers| && PastTracker(p.closers[c])
    requires s < |p.cells| && p.cells[s].gated && p.cells[s].traits.shutdownBehavior == BlockShutdown
    ensures |p.cells[s].q.posted| == 1 && p.cells[s].finished == p.cells[s].q.posted && p.cells[s].dropped == {}
  {
    ReachableIsSafe(p);
    assert Agrees(p, p.closers[c]);
    SumIncludes(Owes, p.cells, s);
    FinishedArePosted(p, s);
    OnlyTask(p.cells[s].finished, p.cells[s].q.posted);
  }

  lemma OnlyTask(xs: seq<S.Task>, ys: seq<S.Task>)
    requires multiset(xs) <= multiset(ys) && xs != [] && |ys| <= 1
    ensures xs == ys
  {
    assert multiset(ys) == multiset(xs) + (multiset(ys) - multiset(xs));
    assert |multiset(ys)| == |multiset(xs)| + |multiset(ys) - multiset(xs)|;
    assert |xs| == |multiset(xs)| && |ys| == |multiset(ys)|;
    assert xs[0] in multiset(ys);
  }

  lemma FinishedArePosted(p: State, s: nat)
    requires Safe(p) && s < |p.cells|
    ensures multiset(p.cells[s].finished) <= multiset(p.cells[s].q.posted)
  {
    assert S.Valid(p.cells[s].q, p.clock);
    if Held(p.workers, s) {
      var i :| 0 <= i < |p.workers| && Holds(p.workers[i]) && p.workers[i].source == s;
    }
  }

  /** The group is stopped and nobody sleeps in it. */
  ghost predicate Stopped(p: State) {
    p.group.shutdown && !AnyAsleep(p.workers)
  }

  /** From `p` to `r` nothing is popped, nobody falls asleep, and whoever is awake stays awake or leaves. */
  ghost predicate StaysStopped(p: State, r: State) {
    && Stopped(r) && |r.workers| == |p.workers|
    && r.group.queue.served == p.group.queue.served
    && forall i | 0 <= i < |p.workers| ::
         && (p.workers[i].Awake? ==> r.workers[i].Awake? || r.workers[i].Exited?)
         && (p.workers[i].Exited? ==> r.workers[i].Exited?)
  }

  lemma StoppedByWorker(p: State, i: nat, a: WorkStep)
    requires WorkEnabled(p, i, a) && Stopped(p)
    ensures StaysStopped(p, DoWork(p, i, a))
  {
    assert p.workers[i] in p.workers;
  }

  lemma StoppedByOthers(p: State, a: Step)
    requires Enabled(p, a) && !a.ByWorker? && Stopped(p)
    ensures StaysStopped(p, Do(p, a))
  {
    assert forall w :: Wake(p.workers, w) == p.workers;
    assert WakeAll(p.workers) == p.workers;
  }

  lemma StoppedStep(p: State, a: Step)
    requires Enabled(p, a) && Stopped(p)
    ensures StaysStopped(p, Do(p, a))
  {
    if a.ByWorker? {
      StoppedByWorker(p, a.i, a.work);
    } else {
      StoppedByOthers(p, a);
    }
  }

  /** The stop of the group is final: from then on no entry is popped and each worker leaves at its next check. */
  lemma {:induction false} GroupStopIsFinal(ps: seq<State>, n: nat)
    requires IsPath(ps) && n < |ps| && Stopped(ps[0])
    ensures StaysStopped(ps[0], ps[n])
  {
    hide Stopped, Do, Enabled;
    if n > 0 {
      GroupStopIsFinal(ps, n - 1);
      var p := ps[n - 1];
      assert Next(p, ps[n - 1 + 1]);
      var a :| Enabled(p, a) && ps[n] == Do(p, a);
      StoppedStep(p, a);
    }
  }

  /** The call of shutdown has set the flag of the group and notified everybody. */
  predicate HasNotified(c: Closer) {
    PastGroupStop(c) && !c.WakingGroup?
  }

  /** Whoever else may still be about to stop the group, one notification to all is enough. */
  ghost predicate StoppedOnceNotified(p: State) {
    forall c | 0 <= c < |p.closers| :: HasNotified(p.closers[c]) ==> Stopped(p)
  }

  /** The other threads move a call of shutdown only from its wait back to the check. */
  lemma ClosersElsewhere(p: State, a: Step)
    requires Enabled(p, a) && !a.ByCloser? && !a.OpenShutdown?
    ensures Do(p, a).closers == p.closers || Do(p, a).closers == WakeClosers(p.closers)
  {
  }

  /** Past its notification is only a call that was there before, or the one that notifies now. */
  lemma NotifiedBefore(p: State, a: Step, c: nat)
    requires Enabled(p, a) && c < |Do(p, a).closers| && HasNotified(Do(p, a).closers[c])
    ensures a == ByCloser(c, WakeGroup) || (c < |p.closers| && HasNotified(p.closers[c]))
  {
    if !a.ByCloser? && !a.OpenShutdown? {
      hide Do;
      ClosersElsewhere(p, a);
    } else {
      hide DoWork, DoPost, DoTimer;
    }
  }

  lemma OnceNotifiedStep(p: State, a: Step)
    requires Safe(p) && StoppedOnceNotified(p) && Enabled(p, a)
    ensures StoppedOnceNotified(Do(p, a))
  {
    hide Safe, DoPost, DoWork, DoTimer;
    var r := Do(p, a);
    forall c | 0 <= c < |r.closers| && HasNotified(r.closers[c]) ensures Stopped(r) {
      NotifiedBefore(p, a, c);
      if a == ByCloser(c, WakeGroup) {
        FlagIsSet(p, c);
      } else {
        StoppedStep(p, a);
      }
    }
  }

  lemma FlagIsSet(p: State, c: nat)
    requires Safe(p) && c < |p.closers| && PastGroupStop(p.closers[c])
    ensures p.group.shutdown
  {
    assert Agrees(p, p.closers[c]);
  }

  lemma {:induction false} RunStopsOnceNotified(ps: seq<State>, n: nat)
    requires IsRun(ps) && n < |ps|
    ensures StoppedOnceNotified(ps[n])
  {
    hide Do, Enabled, Safe;
    if n > 0 {
      RunStopsOnceNotified(ps, n - 1);
      RunIsSafe(ps, n - 1);
      assert Next(ps[n - 1], ps[n - 1 + 1]);
      var a :| Enabled(ps[n - 1], a) && ps[n] == Do(ps[n - 1], a);
      OnceNotifiedStep(ps[n - 1], a);
    }
  }

  /** Once some call has set the flag and notified everybody, the group is stopped for good, whatever other calls do. */
  lemma GroupIsStopped(p: State, c: nat)
    requires Reachable(p) && c < |p.closers| && HasNotified(p.closers[c])
    ensures Stopped(p)
  {
    var ps :| IsRun(ps) && ps[|ps| - 1] == p;
    RunStopsOnceNotified(ps, |ps| - 1);
  }

  // ---- What shutdown waits for ----

  /** From `p` to `r` the sequences of `p` keep their kind, and their posts so far. */
  ghost predicate KeepsPosts(p: State, r: State) {
    && |p.cells| <= |r.cells|
    && forall s | 0 <= s < |p.cells| ::
         && r.cells[s].gated == p.cells[s].gated && r.cells[s].traits == p.cells[s].traits
         && p.cells[s].q.posted <= r.cells[s].q.posted
  }

  lemma PostKeepsPosts(p: State, a: PostStep)
    requires PostEnabled(p, a)
    ensures KeepsPosts(p, DoPost(p, a))
  {
  }

  lemma WorkKeepsPosts(p: State, i: nat, a: WorkStep)
    requires WorkEnabled(p, i, a)
    ensures KeepsPosts(p, DoWork(p, i, a))
  {
  }

  lemma StepKeepsPosts(p: State, a: Step)
    requires Enabled(p, a)
    ensures KeepsPosts(p, Do(p, a))
  {
    match a
    case ByPost(b) => PostKeepsPosts(p, b);
    case ByWorker(i, b) => WorkKeepsPosts(p, i, b);
    case _ =>
  }

  lemma {:induction false} PathKeepsPosts(ps: seq<State>, n: nat)
    requires IsPath(ps) && n < |ps|
    ensures KeepsPosts(ps[0], ps[n])
  {
    hide Do, Enabled;
    if n > 0 {
      PathKeepsPosts(ps, n - 1);
      assert Next(ps[n - 1], ps[n - 1 + 1]);
      var a :| Enabled(ps[n - 1], a) && ps[n] == Do(ps[n - 1], a);
      StepKeepsPosts(ps[n - 1], a);
    }
  }

  /**
   * Shutdown waits for the BlockShutdown tasks of the gated (or of the other) sequences: what was
   * posted before the shutdown started is finished whenever a call of shutdown is past the
   * tracker, on every run.
   */
  ghost predicate ShutdownAwaits(gated: bool) {
    forall p: State, r: State, c: nat, s: nat |
      && Reachable(p) && Leads(p, r) && !p.tracker.shutdownStarted
      && c < |r.closers| && PastTracker(r.closers[c])
      && s < |p.cells| && p.cells[s].gated == gated && p.cells[s].traits.shutdownBehavior == BlockShutdown ::
      s < |r.cells| && multiset(p.cells[s].q.posted) <= multiset(r.cells[s].finished)
  }

  lemma PostedBeforeIsFinished(p: State, r: State, c: nat, s: nat)
    requires Reachable(p) && Leads(p, r) && c < |r.closers| && PastTracker(r.closers[c])
    requires s < |p.cells| && p.cells[s].gated && p.cells[s].traits.shutdownBehavior == BlockShutdown
    ensures s < |r.cells| && multiset(p.cells[s].q.posted) <= multiset(r.cells[s].finished)
  {
    ReachableLeads(p, r);
    var ps :| IsPath(ps) && ps[0] == p && ps[|ps| - 1] == r;
    PathKeepsPosts(ps, |ps| - 1);
    BlockingTasksAreFinished(r, c, s);
    var before, after := p.cells[s].q.posted, r.cells[s].q.posted;
    assert after == before + after[|before|..];
  }

  /**
   * The documentation says that shutdown blocks until all BlockShutdown tasks finish. That is so
   * if and only if they are posted through the pool itself and not through a runner.
   */
  lemma ShutdownAwaitsIffPostedToPool(gated: bool)
    ensures ShutdownAwaits(gated) <==> gated
  {
    if gated {
      forall p: State, r: State, c: nat, s: nat |
        && Reachable(p) && Leads(p, r) && !p.tracker.shutdownStarted
        && c < |r.closers| && PastTracker(r.closers[c])
        && s < |p.cells| && p.cells[s].gated && p.cells[s].traits.shutdownBehavior == BlockShutdown
        ensures s < |r.cells| && multiset(p.cells[s].q.posted) <= multiset(r.cells[s].finished)
      {
        PostedBeforeIsFinished(p, r, c, s);
      }
    } else {
      var p, r := RunnerTasksDoNotBlockShutdown();
      assert PastTracker(r.closers[0]);
      assert |multiset(p.cells[0].q.posted)| == 1 && |multiset(r.cells[0].finished)| == 0;
    }
  }

  // ---- A run in which shutdown does not wait ----

  /** One worker, no sequences, nobody posting. */
  function Start(): State {
    State(0, [], Group(Q.EMPTY, false, true), [Awake], [], Timer({}, 0, false, Scanning), true, T.Tracker(false, 0), [])
  }

  lemma Go(o: State, p: State, a: Step) returns (r: State)
    requires Leads(o, p) && Enabled(p, a)
    ensures Leads(o, r) && r == Do(p, a)
  {
    LeadsOn(o, p, a);
    r := Do(p, a);
  }

  lemma PostThroughRunner() returns (p: State)
    ensures Leads(Start(), p) && |p.cells| == 1 && p.posts == [Posted] && p.workers == [Awake] && p.closers == []
    ensures p.cells[0] == Cell(S.WithTask(S.EMPTY, 7, 0), TaskTraits(UserVisible, BlockShutdown), false, [], {})
    ensures !p.group.shutdown && p.group.handles && p.timerHandle && p.tracker == T.Tracker(false, 0)
    ensures p.timer == Timer({}, 0, false, Scanning)
  {
    var o := Start();
    LeadsHome(o);
    p := o;
    p := Go(o, p, ByPost(NewRunner(TaskTraits(UserVisible, BlockShutdown))));
    p := Go(o, p, ByPost(PostTask(0, 7)));
    p := FinishPost(o, p);
  }

  lemma FinishPost(o: State, q: State) returns (p: State)
    requires Leads(o, q) && q.posts == [Pushed(0)] && |q.cells| == 1 && q.workers == [Awake]
    ensures Leads(o, p) && p == q.(posts := [Posted], group := p.group)
    ensures p.group.shutdown == q.group.shutdown && p.group.handles == q.group.handles
  {
    p := Go(o, q, ByPost(QueueSource(0)));
    p := Go(o, p, ByPost(NotifyGroup(0, 0)));
  }

  lemma FlagIdleGroup(o: State, q: State) returns (p: State)
    requires Leads(o, q) && q.workers == [Awake] && q.closers == [] && q.tracker == T.Tracker(false, 0)
    ensures Leads(o, p) && p.cells == q.cells && p.posts == q.posts
    ensures p.timer == q.timer && p.timerHandle == q.timerHandle
    ensures p.workers == [Exited] && p.closers == [WakingGroup] && p.group.handles == q.group.handles
  {
    p := Go(o, q, OpenShutdown);
    p := Go(o, p, ByCloser(0, StopGroup));
    p := Go(o, p, ByWorker(0, Fetch(Q.Entry(UserVisible, 0, 0, 0))));
  }

  lemma StopIdleGroup(o: State, q: State) returns (p: State)
    requires Leads(o, q) && q.workers == [Awake] && q.closers == []
    requires q.group.handles && q.tracker == T.Tracker(false, 0)
    ensures Leads(o, p) && p.cells == q.cells && p.posts == q.posts
    ensures p.timer == q.timer && p.timerHandle == q.timerHandle
    ensures p.workers == [Exited] && p.closers == [StoppingTimer]
  {
    p := FlagIdleGroup(o, q);
    p := Go(o, p, ByCloser(0, WakeGroup));
    p := Go(o, p, ByCloser(0, ReapGroup));
    p := Go(o, p, ByCloser(0, JoinGroup));
  }

  lemma FlagIdleTimer(o: State, q: State) returns (p: State)
    requires Leads(o, q) && q.closers == [StoppingTimer] && q.timer.phase.Scanning?
    ensures Leads(o, p) && p.cells == q.cells && p.posts == q.posts && p.workers == q.workers
    ensures p.closers == [WakingTimer] && p.timer.phase.Stopped? && p.timerHandle == q.timerHandle
  {
    p := Go(o, q, ByCloser(0, StopTimer));
    p := Go(o, p, ByTimer(Scan(D.DelayedEntry(0, 0, 0))));
  }

  lemma StopIdleTimer(o: State, q: State) returns (p: State)
    requires Leads(o, q) && q.closers == [StoppingTimer] && q.timerHandle && q.timer.phase.Scanning?
    ensures Leads(o, p) && p.cells == q.cells && p.posts == q.posts && p.workers == q.workers && p.closers == [Closed]
  {
    p := FlagIdleTimer(o, q);
    p := Go(o, p, ByCloser(0, WakeTimer));
    p := Go(o, p, ByCloser(0, ReapTimer));
    p := Go(o, p, ByCloser(0, JoinTimer));
  }

  /**
   * Here a BlockShutdown task is posted through a runner and queued; afterwards shutdown is called
   * and returns, every worker is gone, and the task has never been taken.
   */
  lemma RunnerTasksDoNotBlockShutdown() returns (p: State, r: State)
    ensures Reachable(p) && p.closers == [] && p.posts == [Posted] && !p.tracker.shutdownStarted
    ensures |p.cells| == 1 && !p.cells[0].gated && p.cells[0].traits.shutdownBehavior == BlockShutdown
    ensures |p.cells[0].q.posted| == 1
    ensures Leads(p, r) && r.closers == [Closed] && r.workers == [Exited]
    ensures r.cells == p.cells && r.cells[0].q.taken == r.cells[0].finished == []
  {
    p := PostThroughRunner();
    LeadsFromStart(Start(), p);
    LeadsHome(p);
    r := StopIdleGroup(p, p);
    r := StopIdleTimer(p, r);
  }
}
