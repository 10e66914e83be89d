/**
 * What a post hands over reaches its worker unchanged: the callback, the deadline, the traits. The
 * entry in the shared queue carries the priority of its sequence and the time of its push, and the
 * workers serve the most urgent entry that has waited longest. The wrapper drops what it should.
 */
module PoolPosts {
  import opened Basics
  import opened Traits
  import opened Pool
  import opened PoolExclusion
  import opened PoolQuiescence
  import opened PoolTheorems
  import S = Sequences
  import Q = PriorityQueues

  // ---- Posts ----

  /** From `p` to `r`, sequence `s` gets `t` as its latest post and the other sequences stay as they are. */
  ghost predicate GetsTask(p: State, r: State, s: nat, t: S.Task) {
    && s < |p.cells| && |r.cells| == |p.cells|
    && (forall k | 0 <= k < |p.cells| && k != s :: r.cells[k] == p.cells[k])
    && r.cells[s].q.posted == p.cells[s].q.posted + [t]
    && (if t.readyTime.None? then r.cells[s].q.immediate == p.cells[s].q.immediate + [t]
        else r.cells[s].q.delayed == p.cells[s].q.delayed + {t})
    && r.cells[s].traits == p.cells[s].traits && r.cells[s].gated == p.cells[s].gated
    && r.cells[s].finished == p.cells[s].finished && r.cells[s].q.taken == p.cells[s].q.taken
  }

  /** A post through a runner queues the callback it was given, with the next number and its deadline, if any. */
  lemma RunnerPostCarriesCallback(p: State, s: nat, callback: nat, readyTime: nat)
    requires Reachable(p) && s < |p.cells| && !p.cells[s].gated
    ensures var n, r := |p.cells[s].q.posted|, DoPost(p, PostTask(s, callback));
            GetsTask(p, r, s, S.Task(callback, n, None)) && r.posts == p.posts + [Pushed(s)]
    ensures var n, r := |p.cells[s].q.posted|, DoPost(p, PostDelayed(s, callback, readyTime));
            GetsTask(p, r, s, S.Task(callback, n, Some(readyTime))) && r.posts == p.posts + [Adding(s, readyTime)]
  {
    ReachableIsSafe(p);
    assert S.Valid(p.cells[s].q, p.clock);
  }

  /** After the start of shutdown the pool accepts only ContinueOnShutdown tasks, and before it every task. */
  lemma AcceptedIff(p: State, traits: TaskTraits, ready: Option<nat>, callback: nat)
    ensures Enabled(p, ByPost(Gate(traits, ready, callback))) <==>
              !p.tracker.shutdownStarted || traits.shutdownBehavior == ContinueOnShutdown
    ensures Enabled(p, ByPost(Reject(traits))) <==> !Enabled(p, ByPost(Gate(traits, ready, callback)))
  {
  }

  /**
   * What became of an accepted post in sequence `s`: it is still about to push its task, or the
   * sequence got that task, and never another one.
   */
  ghost predicate Delivered(p: State, s: nat, traits: TaskTraits, ready: Option<nat>, callback: nat) {
    && s < |p.cells| && p.cells[s].gated && p.cells[s].traits == traits
    && if p.cells[s].q.posted == []
       then exists j :: 0 <= j < |p.posts| && p.posts[j] == Accepted(s, ready, callback)
       else p.cells[s].q.posted == [S.Task(callback, 0, ready)]
              && forall j | 0 <= j < |p.posts| :: p.posts[j].Accepted? ==> p.posts[j].source != s
  }

  lemma GateDelivers(p: State, traits: TaskTraits, ready: Option<nat>, callback: nat)
    requires PostEnabled(p, Gate(traits, ready, callback))
    ensures Delivered(DoPost(p, Gate(traits, ready, callback)), |p.cells|, traits, ready, callback)
  {
    var r := DoPost(p, Gate(traits, ready, callback));
    assert r.posts[|p.posts|] == Accepted(|p.cells|, ready, callback);
  }

  lemma DeliveredByPush(p: State, j: nat, s: nat, traits: TaskTraits, ready: Option<nat>, callback: nat)
    requires PostsBound(p.cells, p.posts) && PostEnabled(p, PushGated(j)) && Delivered(p, s, traits, ready, callback)
    ensures Delivered(DoPost(p, PushGated(j)), s, traits, ready, callback)
  {
    var r := DoPost(p, PushGated(j));
    if p.cells[s].q.posted == [] {
      var k :| 0 <= k < |p.posts| && p.posts[k] == Accepted(s, ready, callback);
      assert k == j || r.posts[k] == p.posts[k];
      assert k == j <==> p.posts[j].source == s;
    }
  }

  /** Any other step of a post leaves the sequence of an accepted post alone, and moves no other accepted post. */
  lemma OtherPostsLeave(p: State, a: PostStep, s: nat)
    requires PostEnabled(p, a) && !a.PushGated? && s < |p.cells| && p.cells[s].gated
    ensures s < |DoPost(p, a).cells| && DoPost(p, a).cells[s] == p.cells[s]
    ensures |p.posts| <= |DoPost(p, a).posts|
    ensures forall k | 0 <= k < |p.posts| && p.posts[k].Accepted? :: DoPost(p, a).posts[k] == p.posts[k]
    ensures forall k | 0 <= k < |DoPost(p, a).posts| && DoPost(p, a).posts[k].Accepted? ::
              DoPost(p, a).posts[k].source == |p.cells| || (k < |p.posts| && p.posts[k] == DoPost(p, a).posts[k])
  {
  }

  lemma DeliveredByPost(p: State, a: PostStep, s: nat, traits: TaskTraits, ready: Option<nat>, callback: nat)
    requires PostsBound(p.cells, p.posts) && PostEnabled(p, a) && Delivered(p, s, traits, ready, callback)
    ensures Delivered(DoPost(p, a), s, traits, ready, callback)
  {
    if a.PushGated? {
      DeliveredByPush(p, a.j, s, traits, ready, callback);
    } else {
      hide DoPost;
      OtherPostsLeave(p, a, s);
      if k :| 0 <= k < |p.posts| && p.posts[k] == Accepted(s, ready, callback) {
        assert DoPost(p, a).posts[k] == p.posts[k];
      }
    }
  }

  lemma DeliveredByWorker(p: State, i: nat, a: WorkStep, s: nat, traits: TaskTraits, ready: Option<nat>, callback: nat)
    requires WorkEnabled(p, i, a) && Delivered(p, s, traits, ready, callback)
    ensures Delivered(DoWork(p, i, a), s, traits, ready, callback)
  {
    assert DoWork(p, i, a).posts == p.posts;
  }

  lemma DeliveredByOthers(p: State, a: Step, s: nat, traits: TaskTraits, ready: Option<nat>, callback: nat)
    requires Enabled(p, a) && !a.ByPost? && !a.ByWorker? && Delivered(p, s, traits, ready, callback)
    ensures Delivered(Do(p, a), s, traits, ready, callback)
  {
    assert Do(p, a).posts == p.posts && Do(p, a).cells == p.cells;
  }

  lemma {:induction false} PathDelivers(
    ps: seq<State>, n: nat, s: nat, traits: TaskTraits, ready: Option<nat>, callback: nat)
    requires IsPath(ps) && n < |ps| && Safe(ps[0]) && Delivered(ps[0], s, traits, ready, callback)
    ensures Safe(ps[n]) && Delivered(ps[n], s, traits, ready, callback)
  {
    hide Do, DoPost, DoWork, Enabled, Delivered, Safe;
    if n > 0 {
      PathDelivers(ps, n - 1, s, traits, ready, callback);
      var p := ps[n - 1];
      assert Next(p, ps[n - 1 + 1]);
      var a :| Enabled(p, a) && ps[n] == Do(p, a);
      SafeStep(p, a);
      StepDelivers(p, a, s, traits, ready, callback);
    }
  }

  lemma StepDelivers(p: State, a: Step, s: nat, traits: TaskTraits, ready: Option<nat>, callback: nat)
    requires Safe(p) && Enabled(p, a) && Delivered(p, s, traits, ready, callback)
    ensures Delivered(Do(p, a), s, traits, ready, callback)
  {
    hide DoPost, DoWork, Delivered;
    match a
    case ByPost(b) => DeliveredByPost(p, b, s, traits, ready, callback);
    case ByWorker(i, b) => DeliveredByWorker(p, i, b, s, traits, ready, callback);
    case _ => DeliveredByOthers(p, a, s, traits, ready, callback);
  }

  /**
   * Over every run, whoever runs the task of an accepted post runs the callback that was posted, not
   * before the deadline that was posted, and its sequence has the traits that were posted.
   */
  lemma AcceptedPostIsDelivered(
    p: State, ps: seq<State>, n: nat, traits: TaskTraits, ready: Option<nat>, callback: nat)
    requires Reachable(p) && PostEnabled(p, Gate(traits, ready, callback))
    requires IsPath(ps) && n < |ps| && ps[0] == DoPost(p, Gate(traits, ready, callback))
    ensures Delivered(ps[n], |p.cells|, traits, ready, callback)
    ensures forall i | 0 <= i < |ps[n].workers| && Holds(ps[n].workers[i]) && ps[n].workers[i].source == |p.cells| ::
              && ps[n].workers[i].task == S.Task(callback, 0, ready)
              && (ready.Some? ==> ready.value <= ps[n].clock)
  {
    hide Do, DoPost, IsPath, Delivered, Safe;
    var s, a := |p.cells|, ByPost(Gate(traits, ready, callback));
    GateStep(p, traits, ready, callback);
    ReachableIsSafe(p);
    SafeStep(p, a);
    GateDelivers(p, traits, ready, callback);
    PathDelivers(ps, n, s, traits, ready, callback);
    forall i | 0 <= i < |ps[n].workers| && Holds(ps[n].workers[i]) && ps[n].workers[i].source == s
      ensures ps[n].workers[i].task == S.Task(callback, 0, ready) && (ready.Some? ==> ready.value <= ps[n].clock)
    {
      HeldIsDelivered(ps[n], i, traits, ready, callback);
    }
  }

  lemma GateStep(p: State, traits: TaskTraits, ready: Option<nat>, callback: nat)
    requires PostEnabled(p, Gate(traits, ready, callback))
    ensures var a := Gate(traits, ready, callback);
            Enabled(p, ByPost(a)) && Do(p, ByPost(a)) == DoPost(p, a)
  {
  }

  lemma HeldIsDelivered(p: State, i: nat, traits: TaskTraits, ready: Option<nat>, callback: nat)
    requires Safe(p) && i < |p.workers| && Holds(p.workers[i])
    requires Delivered(p, p.workers[i].source, traits, ready, callback)
    ensures p.workers[i].task == S.Task(callback, 0, ready)
    ensures ready.Some? ==> ready.value <= p.clock
  {
    var q, t := p.cells[p.workers[i].source].q, p.workers[i].task;
    assert S.Valid(q, p.clock);
    var last := |q.taken| - 1;
    assert q.taken[last] == t && q.arrivals[last] == t;
    assert S.ArrivedInTime(q.arrivals[last], q.stamps[last], q.next, p.clock);
    assert t in multiset(q.taken);
    assert t in multiset(q.posted);
  }

  // ---- The shared queue ----

  /** From `p` to `r` nothing is queued, or one entry, with the priority of its sequence and the present time. */
  ghost predicate QueuesAtMostOne(p: State, r: State) {
    || r.group.queue.pushed == p.group.queue.pushed
    || exists s :: 0 <= s < |p.cells|
         && r.group.queue.pushed ==
              p.group.queue.pushed + [Q.Entry(p.cells[s].traits.priority, p.clock, s, |p.group.queue.pushed|)]
         && BringsToQueue(p, s)
  }

  /** Some thread is about to push sequence `s` into the shared queue. */
  ghost predicate BringsToQueue(p: State, s: nat) {
    || Pushed(s) in p.posts
    || p.timer.phase == Carrying(s)
    || exists i :: 0 <= i < |p.workers| && p.workers[i] == PushingBack(s)
  }

  /** An entry is stamped with the priority of its sequence and the instant of its push. */
  lemma EntriesAreStamped(p: State, a: Step)
    requires Enabled(p, a)
    ensures QueuesAtMostOne(p, Do(p, a))
  {
    match a
    case ByPost(b) =>
      if b.QueueSource? {
        assert BringsToQueue(p, p.posts[b.j].source);
      }
    case ByWorker(i, b) =>
      if b.PushBack? {
        assert BringsToQueue(p, p.workers[i].source);
      }
    case ByTimer(b) =>
      if b.HandOver? {
        assert BringsToQueue(p, p.timer.phase.source);
      }
    case _ =>
  }

  /** Over every run the entries of the queue have the priority of their sequences. */
  ghost predicate PrioritiesHold(p: State) {
    forall k | 0 <= k < |p.group.queue.pushed| ::
      && p.group.queue.pushed[k].source < |p.cells|
      && p.group.queue.pushed[k].priority == p.cells[p.group.queue.pushed[k].source].traits.priority
  }

  lemma PrioritiesStep(p: State, a: Step)
    requires Enabled(p, a) && PrioritiesHold(p)
    ensures PrioritiesHold(Do(p, a))
  {
    hide Do, Enabled, BringsToQueue;
    EntriesAreStamped(p, a);
    StepKeepsPosts(p, a);
  }

  lemma {:induction false} RunKeepsPriorities(ps: seq<State>, n: nat)
    requires IsRun(ps) && n < |ps|
    ensures PrioritiesHold(ps[n])
  {
    hide Do, Enabled;
    if n > 0 {
      RunKeepsPriorities(ps, n - 1);
      assert Next(ps[n - 1], ps[n - 1 + 1]);
      var a :| Enabled(ps[n - 1], a) && ps[n] == Do(ps[n - 1], a);
      PrioritiesStep(ps[n - 1], a);
    }
  }

  /** A step that serves an entry. */
  ghost predicate Serves(p: State, a: Step) {
    Enabled(p, a) && Do(p, a).group.queue.served != p.group.queue.served
  }

  lemma ServingIsFetching(p: State, a: Step)
    requires Serves(p, a)
    ensures a.ByWorker? && a.work.Fetch? && !p.group.shutdown
    ensures var e := a.work.e;
            && Q.IsTop(p.group.queue.heap, e) && Do(p, a).workers[a.i] == Popped(e.source)
            && Do(p, a).group.queue.heap == p.group.queue.heap - {e}
  {
    hide DoPost, DoTimer, DoClose;
    match a
    case ByPost(b) => PostsServeNothing(p, b);
    case ByTimer(b) => TimerServesNothing(p, b);
    case ByCloser(c, b) => ClosersServeNothing(p, c, b);
    case _ =>
  }

  lemma PostsServeNothing(p: State, a: PostStep)
    requires PostEnabled(p, a)
    ensures DoPost(p, a).group.queue.served == p.group.queue.served
  {
  }

  lemma TimerServesNothing(p: State, a: TimerStep)
    requires TimerEnabled(p, a)
    ensures DoTimer(p, a).group.queue.served == p.group.queue.served
  {
  }

  lemma ClosersServeNothing(p: State, c: nat, a: CloseStep)
    requires CloseEnabled(p, c, a)
    ensures DoClose(p, c, a).group.queue.served == p.group.queue.served
  {
  }

  /**
   * Priority service. Whenever a worker gets an entry, in whatever run, no sequence of a more urgent
   * priority has an entry waiting, and none of the same priority has one that was queued earlier.
   */
  lemma ServesMostUrgent(p: State, a: Step)
    requires Reachable(p) && Serves(p, a)
    ensures a.ByWorker? && a.i < |Do(p, a).workers| && Do(p, a).workers[a.i].Popped?
    ensures var s := Do(p, a).workers[a.i].source;
            && s < |p.cells|
            && exists e :: e in p.group.queue.heap && e.source == s
                 && Do(p, a).group.queue.heap == p.group.queue.heap - {e}
                 && forall x | x in p.group.queue.heap ::
                      && x.source < |p.cells|
                      && !MoreUrgent(p.cells[x.source].traits.priority, p.cells[s].traits.priority)
                      && (p.cells[x.source].traits.priority == p.cells[s].traits.priority ==>
                            e.readyTime <= x.readyTime)
  {
    hide Do, Enabled, Safe;
    var ps :| IsRun(ps) && ps[|ps| - 1] == p;
    RunKeepsPriorities(ps, |ps| - 1);
    ServingIsFetching(p, a);
    Q.TopIffForemost(p.group.queue.heap, a.work.e);
    HeapIsPushed(p);
    SameWorkers(p, a);
    WorkerExists(p, a);
  }

  lemma WorkerExists(p: State, a: Step)
    requires Enabled(p, a) && a.ByWorker?
    ensures a.i < |p.workers|
  {
  }

  lemma HeapIsPushed(p: State)
    requires Reachable(p)
    ensures forall x | x in p.group.queue.heap :: x in p.group.queue.pushed
  {
    ReachableIsSafe(p);
  }

  // ---- The wrapper ----

  /**
   * The wrapper drops a callback exactly if it is a SkipOnShutdown callback posted through the pool,
   * and shutdown has started; a dropped callback is over without having run.
   */
  lemma DroppedIff(p: State, i: nat)
    requires Enabled(p, ByWorker(i, WorkStep.Start))
    ensures var w, r := p.workers[i], DoWork(p, i, WorkStep.Start);
            var c := p.cells[w.source];
            if c.gated && c.traits.shutdownBehavior == SkipOnShutdown && p.tracker.shutdownStarted
            then r.workers[i] == Releasing(w.source) && r.cells[w.source].dropped == c.dropped + {w.task.sequenceNum}
            else r.workers[i] == Running(w.source, w.task) && r.cells == p.cells
  {
  }

  /** After the start of shutdown no SkipOnShutdown callback of the pool begins to run, in any run. */
  lemma SkippedNeverBegins(p: State, a: Step, i: nat)
    requires Enabled(p, a) && p.tracker.shutdownStarted && i < |p.workers| == |Do(p, a).workers|
    requires !p.workers[i].Running? && Do(p, a).workers[i].Running?
    ensures var w := Do(p, a).workers[i];
            && w.source < |p.cells|
            && !(p.cells[w.source].gated && p.cells[w.source].traits.shutdownBehavior == SkipOnShutdown)
  {
    if a.ByWorker? {
      BeginsByWorker(p, a.i, a.work, i);
    } else {
      hide DoWork;
    }
  }

  lemma BeginsByWorker(p: State, k: nat, a: WorkStep, i: nat)
    requires WorkEnabled(p, k, a) && i < |p.workers| == |DoWork(p, k, a).workers|
    requires !p.workers[i].Running? && DoWork(p, k, a).workers[i].Running?
    ensures k == i && a.Start?
  {
  }
}
