/**
 * What every step of the pool keeps, part four: the order of shutdown. The counter of tasks that
 * block shutdown is exact; the group and the timer are stopped only after it has reached zero;
 * no thread sleeps through the stop.
 */
module PoolShutdown {
  import opened Basics
  import opened Traits
  import opened Pool
  import opened PoolExclusion
  import S = Sequences
  import T = TaskTrackers

  // ---- Accounting ----

  /** A BlockShutdown task accepted through the pool whose run is not over. */
  function Owes(c: Cell): nat {
    if c.gated && c.traits.shutdownBehavior == BlockShutdown && c.finished == [] then 1 else 0
  }

  ghost predicate CounterExact(p: State) {
    p.tracker.blocking == Sum(Owes, p.cells)
  }

  /** A gated sequence carries one task: either its post is still about to push it, or it did. */
  ghost predicate OneTaskEach(cells: seq<Cell>, posts: seq<Post>) {
    forall s | 0 <= s < |cells| && cells[s].gated ::
      && |cells[s].q.posted| <= 1
      && (cells[s].q.posted == [] ==> exists j :: 0 <= j < |posts| && posts[j].Accepted? && posts[j].source == s)
  }

  /** The wrapper drops nothing but SkipOnShutdown tasks of the pool, and only once shutdown has started. */
  ghost predicate DropsOnlySkippable(p: State) {
    forall s | 0 <= s < |p.cells| && p.cells[s].dropped != {} ::
      p.cells[s].gated && p.cells[s].traits.shutdownBehavior == SkipOnShutdown && p.tracker.shutdownStarted
  }

  // ---- Phases of the calls of shutdown ----

  /** Past the wait of the tracker. */
  predicate PastTracker(c: Closer) {
    !c.Checking? && !c.Waiting?
  }

  predicate PastGroupStop(c: Closer) {
    PastTracker(c) && !c.StoppingGroup?
  }

  predicate PastTimerStop(c: Closer) {
    c.WakingTimer? || c.ReapingTimer? || c.JoiningTimer? || c.Closed?
  }

  predicate Agrees(p: State, c: Closer) {
    && (c.Waiting? ==> p.tracker.blocking > 0)
    && (PastTracker(c) ==> p.tracker.blocking == 0)
    && (PastGroupStop(c) ==> p.group.shutdown)
    && (PastTimerStop(c) ==> p.timer.shutdown)
  }

  /** Where each call of shutdown stands agrees with the flags and the counter. */
  ghost predicate ClosersAgree(p: State) {
    && (p.closers != [] ==> p.tracker.shutdownStarted)
    && forall c | 0 <= c < |p.closers| :: Agrees(p, p.closers[c])
  }

  /** The flags are set in order, and only when no task blocks shutdown any more. */
  ghost predicate StopsInOrder(p: State) {
    && (p.group.shutdown ==> p.closers != [] && p.tracker.shutdownStarted && p.tracker.blocking == 0)
    && (p.timer.shutdown ==> p.group.shutdown)
    && (forall i | 0 <= i < |p.workers| :: p.workers[i].Exited? ==> p.group.shutdown)
    && (p.timer.phase.Stopped? ==> p.timer.shutdown)
  }

  /** Once a flag is set, whoever still sleeps will be woken by the call that set it. */
  ghost predicate NobodySleepsThrough(p: State) {
    && (p.group.shutdown && AnyAsleep(p.workers) ==> WakingGroup in p.closers)
    && (p.timer.shutdown && (p.timer.phase.Idle? || p.timer.phase.Dozing?) ==> WakingTimer in p.closers)
  }

  ghost predicate InvShutdown(p: State) {
    && CounterExact(p) && OneTaskEach(p.cells, p.posts) && DropsOnlySkippable(p)
    && ClosersAgree(p) && StopsInOrder(p) && NobodySleepsThrough(p)
  }

  // ---- Workers ----

  /** The task in the hands of a worker is the only one of a gated sequence. */
  lemma HeldIsUnfinished(p: State, i: nat)
    requires Inv(p) && OneTaskEach(p.cells, p.posts)
    requires i < |p.workers| && Holds(p.workers[i]) && p.cells[p.workers[i].source].gated
    ensures p.cells[p.workers[i].source].finished == []
  {
    var c := p.cells[p.workers[i].source];
    assert S.Valid(c.q, p.clock);
    assert |multiset(c.q.posted)| == |c.q.posted| && |multiset(c.q.taken)| == |c.q.taken|;
    assert |c.q.taken| <= |c.q.posted|;
  }

  /** The only step of a worker that moves the counter. */
  lemma CounterBySettle(p: State, i: nat)
    requires Inv(p) && WorkEnabled(p, i, Settle) && CounterExact(p) && OneTaskEach(p.cells, p.posts)
    ensures CounterExact(DoWork(p, i, Settle))
    ensures 0 <= DoWork(p, i, Settle).tracker.blocking <= p.tracker.blocking
  {
    var s := p.workers[i].source;
    SumUpdate(Owes, p.cells, s, DoWork(p, i, Settle).cells[s]);
    if p.cells[s].gated {
      HeldIsUnfinished(p, i);
    }
  }

  lemma CounterByWorker(p: State, i: nat, a: WorkStep)
    requires WorkEnabled(p, i, a) && CounterExact(p) && !a.Settle?
    ensures CounterExact(DoWork(p, i, a)) && DoWork(p, i, a).tracker == p.tracker
  {
    var s := if a.Claim? || a.Take? || a.Start? || a.Release? then p.workers[i].source else 0;
    if s < |p.cells| {
      SumUpdate(Owes, p.cells, s, DoWork(p, i, a).cells[s]);
    }
  }

  lemma OneTaskByWorker(p: State, i: nat, a: WorkStep)
    requires WorkEnabled(p, i, a) && OneTaskEach(p.cells, p.posts)
    ensures OneTaskEach(DoWork(p, i, a).cells, DoWork(p, i, a).posts)
  {
  }

  lemma DropsByWorker(p: State, i: nat, a: WorkStep)
    requires WorkEnabled(p, i, a) && DropsOnlySkippable(p)
    ensures DropsOnlySkippable(DoWork(p, i, a))
  {
  }

  lemma StopByWorker(p: State, i: nat, a: WorkStep)
    requires WorkEnabled(p, i, a) && ClosersAgree(p) && 0 <= DoWork(p, i, a).tracker.blocking <= p.tracker.blocking
    ensures ClosersAgree(DoWork(p, i, a))
  {
  }

  lemma OrderByWorker(p: State, i: nat, a: WorkStep)
    requires WorkEnabled(p, i, a) && StopsInOrder(p) && 0 <= DoWork(p, i, a).tracker.blocking <= p.tracker.blocking
    ensures StopsInOrder(DoWork(p, i, a))
  {
  }

  lemma SleepByWorker(p: State, i: nat, a: WorkStep)
    requires WorkEnabled(p, i, a) && NobodySleepsThrough(p)
    ensures NobodySleepsThrough(DoWork(p, i, a))
  {
    var r := DoWork(p, i, a);
    forall x | x in p.closers && !x.Waiting? ensures x in r.closers {
      var k :| 0 <= k < |p.closers| && p.closers[k] == x;
      assert r.closers[k] == x;
    }
  }

  // ---- Posts ----

  lemma CounterByPost(p: State, a: PostStep)
    requires PostEnabled(p, a) && CounterExact(p)
    ensures CounterExact(DoPost(p, a))
  {
    var r := DoPost(p, a);
    match a
    case NewRunner(_) => CounterByNewCell(p, a);
    case Gate(_, _, _) => CounterByNewCell(p, a);
    case PostTask(s, _) => SumUpdate(Owes, p.cells, s, r.cells[s]);
    case PostDelayed(s, _, _) => SumUpdate(Owes, p.cells, s, r.cells[s]);
    case PushGated(j) => SumUpdate(Owes, p.cells, p.posts[j].source, r.cells[p.posts[j].source]);
    case _ =>
  }

  /** The counter goes up with the sequence of an accepted BlockShutdown task. */
  lemma CounterByNewCell(p: State, a: PostStep)
    requires PostEnabled(p, a) && CounterExact(p) && (a.NewRunner? || a.Gate?)
    ensures CounterExact(DoPost(p, a))
  {
    SumAppend(Owes, p.cells, Cell(S.EMPTY, a.traits, a.Gate?, [], {}));
  }

  /** Only the one push of an accepted post reaches a gated sequence. */
  lemma GatedGetsOneTask(p: State, a: PostStep)
    requires PostEnabled(p, a) && PostsBound(p.cells, p.posts) && OneTaskEach(p.cells, p.posts)
    ensures var cells := DoPost(p, a).cells;
            forall s | 0 <= s < |cells| && cells[s].gated :: |cells[s].q.posted| <= 1
  {
  }

  lemma OneTaskByPost(p: State, a: PostStep)
    requires PostEnabled(p, a) && PostsBound(p.cells, p.posts) && OneTaskEach(p.cells, p.posts)
    ensures OneTaskEach(DoPost(p, a).cells, DoPost(p, a).posts)
  {
    GatedGetsOneTask(p, a);
    AcceptedIsKnown(p, a);
  }

  lemma AcceptedIsKnown(p: State, a: PostStep)
    requires PostEnabled(p, a) && OneTaskEach(p.cells, p.posts)
    ensures var r := DoPost(p, a);
            forall s | 0 <= s < |r.cells| && r.cells[s].gated && r.cells[s].q.posted == [] ::
              exists j :: 0 <= j < |r.posts| && r.posts[j].Accepted? && r.posts[j].source == s
  {
    var r := DoPost(p, a);
    forall s | 0 <= s < |r.cells| && r.cells[s].gated && r.cells[s].q.posted == []
      ensures exists j :: 0 <= j < |r.posts| && r.posts[j].Accepted? && r.posts[j].source == s
    {
      if s < |p.cells| {
        var j :| 0 <= j < |p.posts| && p.posts[j].Accepted? && p.posts[j].source == s;
        assert r.posts[j] == p.posts[j];
      } else {
        assert r.posts[|p.posts|].Accepted?;
      }
    }
  }

  lemma StopByPost(p: State, a: PostStep)
    requires PostEnabled(p, a) && ClosersAgree(p) && StopsInOrder(p)
    ensures ClosersAgree(DoPost(p, a)) && StopsInOrder(DoPost(p, a))
  {
  }

  lemma SleepByPost(p: State, a: PostStep)
    requires PostEnabled(p, a) && DropsOnlySkippable(p) && NobodySleepsThrough(p)
    ensures DropsOnlySkippable(DoPost(p, a)) && NobodySleepsThrough(DoPost(p, a))
  {
  }

  // ---- The timer thread ----

  lemma StopByTimer(p: State, a: TimerStep)
    requires TimerEnabled(p, a) && InvShutdown(p)
    ensures InvShutdown(DoTimer(p, a))
  {
  }

  // ---- Calls of shutdown ----

  lemma StopByCloser(p: State, c: nat, a: CloseStep)
    requires CloseEnabled(p, c, a) && InvShutdown(p)
    ensures InvShutdown(DoClose(p, c, a))
  {
    var r := DoClose(p, c, a);
    forall x | x in p.closers && x != p.closers[c] ensures x in r.closers {
      var k :| 0 <= k < |p.closers| && p.closers[k] == x;
      assert r.closers[k] == x;
    }
    assert r.closers[c] in r.closers;
  }

  lemma StopByOpening(p: State)
    requires InvShutdown(p)
    ensures InvShutdown(Do(p, OpenShutdown))
  {
    forall x | x in p.closers ensures x in Do(p, OpenShutdown).closers {
      assert Do(p, OpenShutdown).closers[..|p.closers|] == p.closers;
    }
  }

  // ---- All of it ----

  lemma ShutdownStep(p: State, a: Step)
    requires Inv(p) && InvShutdown(p) && Enabled(p, a)
    ensures InvShutdown(Do(p, a))
  {
    match a
    case Tick(_) =>
    case ByPost(b) =>
      CounterByPost(p, b);
      OneTaskByPost(p, b);
      StopByPost(p, b);
      SleepByPost(p, b);
    case ByWorker(i, b) =>
      if b.Settle? {
        CounterBySettle(p, i);
      } else {
        CounterByWorker(p, i, b);
      }
      OneTaskByWorker(p, i, b);
      DropsByWorker(p, i, b);
      StopByWorker(p, i, b);
      OrderByWorker(p, i, b);
      SleepByWorker(p, i, b);
    case ByTimer(b) => StopByTimer(p, b);
    case OpenShutdown => StopByOpening(p);
    case ByCloser(c, b) => StopByCloser(p, c, b);
  }
}
