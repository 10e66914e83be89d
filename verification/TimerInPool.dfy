/**
 * The repeating timer on a sequenced runner of the pool. Ticks are delayed tasks of one sequence, and
 * any worker may run them. That the ticks of the timer run one at a time is not assumed here: it
 * follows from the exclusion that the pool keeps. The composition refines the timer that
 * `RepeatingTimers` describes, so its results hold for runs of the pool.
 */
module TimerInPool {
  import opened Basics
  import opened Pool
  import opened PoolExclusion
  import opened PoolQuiescence
  import opened PoolTheorems
  import S = Sequences
  import R = RepeatingTimers

  /**
   * `epochOf` maps the tasks of sequence `runner` that are ticks, by their numbers, to their epochs;
   * `started` are the ticks that a worker has begun, `ticks` what the workers are doing that are
   * inside one. The other fields are those of the timer.
   */
  datatype State = State(
    pool: Pool.State, runner: nat, epochOf: map<nat, nat>, started: set<nat>, ticks: map<nat, R.Tick>,
    epochs: nat, active: Option<nat>, starting: set<nat>, ending: set<nat>, invoked: multiset<nat>)

  datatype Step =
    | PoolStep(a: Pool.Step)
    | Start
    | ScheduleFirst(e: nat, readyTime: nat)
    | ReturnFromStart(e: nat)
    | Stop
    | RunTick(i: nat)
    | Upgrade(i: nat)
    | ScheduleNext(i: nat, readyTime: nat)
    | Release(i: nat)
    | Call(i: nat)
    | Finish(i: nat)

  /** Worker `i` has taken a tick and is about to call it. */
  predicate AtTick(s: State, i: nat) {
    && i < |s.pool.workers| && s.pool.workers[i].Holding? && s.pool.workers[i].source == s.runner
    && s.pool.workers[i].task.sequenceNum in s.epochOf
  }

  predicate Alive(s: State, e: nat) {
    || s.active == Some(e) || e in s.starting || e in s.ending
    || exists i :: i in s.ticks && (s.ticks[i] == R.Upgraded(e) || s.ticks[i] == R.Scheduled(e))
  }

  ghost predicate RunnerExists(p: Pool.State, s: nat) {
    s < |p.cells| && !p.cells[s].gated
  }

  /** Any step of the pool but those that begin a tick, or leave a callback whose tick is not over. */
  ghost predicate Enabled(s: State, a: Step) {
    match a
    case PoolStep(b) =>
      && Pool.Enabled(s.pool, b)
      && (b.ByWorker? && b.work.Start? ==> !AtTick(s, b.i))
      && (b.ByWorker? && b.work.Return? ==> b.i !in s.ticks)
    case Start => true
    case ScheduleFirst(e, _) => e in s.starting && RunnerExists(s.pool, s.runner)
    case ReturnFromStart(e) => e in s.ending
    case Stop => true
    case RunTick(i) => AtTick(s, i) && RunnerExists(s.pool, s.runner)
    case Upgrade(i) => i in s.ticks && s.ticks[i].Started?
    case ScheduleNext(i, _) => i in s.ticks && s.ticks[i].Upgraded? && RunnerExists(s.pool, s.runner)
    case Release(i) => i in s.ticks && s.ticks[i].Scheduled?
    case Call(i) => i in s.ticks && s.ticks[i].Calling?
    case Finish(i) => i in s.ticks && s.ticks[i].InCallback?
  }

  /** `schedule_next` on the runner, if the weak reference that it is given can be upgraded. */
  ghost function Post(s: State, e: nat, readyTime: nat): State
    requires RunnerExists(s.pool, s.runner)
  {
    if Alive(s, e) then
      s.(pool := DoPost(s.pool, PostDelayed(s.runner, e, readyTime)),
         epochOf := s.epochOf[s.pool.cells[s.runner].q.next := e])
    else s
  }

  ghost function Do(s: State, a: Step): State
    requires Enabled(s, a)
  {
    match a
    case PoolStep(b) => s.(pool := Pool.Do(s.pool, b))
    case Start => s.(epochs := s.epochs + 1, active := Some(s.epochs), starting := s.starting + {s.epochs})
    case ScheduleFirst(e, readyTime) =>
      Post(s, e, readyTime).(starting := s.starting - {e}, ending := s.ending + {e})
    case ReturnFromStart(e) => s.(ending := s.ending - {e})
    case Stop => s.(active := None)
    case RunTick(i) =>
      var n := s.pool.workers[i].task.sequenceNum;
      s.(pool := DoWork(s.pool, i, WorkStep.Start), started := s.started + {n},
         ticks := s.ticks[i := R.Started(s.epochOf[n])])
    case Upgrade(i) =>
      var e := s.ticks[i].epoch;
      s.(ticks := if Alive(s, e) then s.ticks[i := R.Upgraded(e)] else s.ticks - {i})
    case ScheduleNext(i, readyTime) =>
      var e := s.ticks[i].epoch;
      Post(s, e, readyTime).(ticks := s.ticks[i := R.Scheduled(e)])
    case Release(i) => s.(ticks := s.ticks[i := R.Calling(s.ticks[i].epoch)])
    case Call(i) =>
      var e := s.ticks[i].epoch;
      s.(ticks := s.ticks[i := R.InCallback(e)], invoked := s.invoked + multiset{e})
    case Finish(i) => s.(ticks := s.ticks - {i})
  }

  /** A timer that was never started, on a runner of a pool that may be in any reachable state. */
  ghost predicate Init(s: State) {
    && Pool.Reachable(s.pool) && RunnerExists(s.pool, s.runner)
    && s == State.State(s.pool, s.runner, map[], {}, map[], 0, None, {}, {}, multiset{})
  }

  ghost predicate Next(s: State, r: State) {
    exists a :: Enabled(s, a) && r == Do(s, a)
  }

  ghost predicate IsPath(ss: seq<State>) {
    ss != [] && forall n | 0 <= n < |ss| - 1 :: Next(ss[n], ss[n + 1])
  }

  ghost predicate IsRun(ss: seq<State>) {
    IsPath(ss) && Init(ss[0])
  }

  ghost predicate Reachable(s: State) {
    exists ss :: IsRun(ss) && ss[|ss| - 1] == s
  }

  // ---- Tasks that have begun ----

  predicate Inside(w: Worker, s: nat, n: nat) {
    (w.Running? || w.Ran?) && w.source == s && w.task.sequenceNum == n
  }

  /** Task number `n` of sequence `s` has been called: it is running, or finished. */
  ghost predicate Begun(p: Pool.State, s: nat, n: nat)
    requires s < |p.cells|
  {
    || (exists k :: 0 <= k < |p.cells[s].finished| && p.cells[s].finished[k].sequenceNum == n)
    || (exists i :: 0 <= i < |p.workers| && Inside(p.workers[i], s, n))
  }

  /** The step by which a worker calls task `n` of sequence `s`. */
  predicate Calls(p: Pool.State, a: Pool.Step, s: nat, n: nat) {
    && a.ByWorker? && a.work.Start? && a.i < |p.workers| && p.workers[a.i].Holding?
    && p.workers[a.i].source == s && p.workers[a.i].task.sequenceNum == n
  }

  lemma BegunByWorker(p: Pool.State, i: nat, a: WorkStep, s: nat, n: nat)
    requires WorkEnabled(p, i, a) && RunnerExists(p, s) && s < |DoWork(p, i, a).cells|
    ensures Begun(DoWork(p, i, a), s, n) <==> Begun(p, s, n) || Calls(p, ByWorker(i, a), s, n)
  {
    var r := DoWork(p, i, a);
    if Begun(p, s, n) || Calls(p, ByWorker(i, a), s, n) {
      BegunStays(p, i, a, s, n);
    }
    if Begun(r, s, n) {
      BegunBefore(p, i, a, s, n);
    }
  }

  lemma BegunStays(p: Pool.State, i: nat, a: WorkStep, s: nat, n: nat)
    requires WorkEnabled(p, i, a) && RunnerExists(p, s) && s < |DoWork(p, i, a).cells|
    requires Begun(p, s, n) || Calls(p, ByWorker(i, a), s, n)
    ensures Begun(DoWork(p, i, a), s, n)
  {
    var r := DoWork(p, i, a);
    if Calls(p, ByWorker(i, a), s, n) {
      assert Inside(r.workers[i], s, n);
    } else if k :| 0 <= k < |p.cells[s].finished| && p.cells[s].finished[k].sequenceNum == n {
      assert r.cells[s].finished[k] == p.cells[s].finished[k];
    } else {
      var k :| 0 <= k < |p.workers| && Inside(p.workers[k], s, n);
      if k == i && a.Settle? {
        assert r.cells[s].finished[|p.cells[s].finished|] == p.workers[i].task;
      } else {
        assert Inside(r.workers[k], s, n);
      }
    }
  }

  lemma BegunBefore(p: Pool.State, i: nat, a: WorkStep, s: nat, n: nat)
    requires WorkEnabled(p, i, a) && RunnerExists(p, s) && s < |DoWork(p, i, a).cells|
    requires Begun(DoWork(p, i, a), s, n)
    ensures Begun(p, s, n) || Calls(p, ByWorker(i, a), s, n)
  {
    var r := DoWork(p, i, a);
    if k :| 0 <= k < |r.cells[s].finished| && r.cells[s].finished[k].sequenceNum == n {
      FinishedBefore(p, i, a, s, k);
    } else {
      var k :| 0 <= k < |r.workers| && Inside(r.workers[k], s, n);
      InsideBefore(p, i, a, s, n, k);
    }
  }

  lemma FinishedBefore(p: Pool.State, i: nat, a: WorkStep, s: nat, k: nat)
    requires WorkEnabled(p, i, a) && RunnerExists(p, s) && s < |DoWork(p, i, a).cells|
    requires k < |DoWork(p, i, a).cells[s].finished|
    ensures var n := DoWork(p, i, a).cells[s].finished[k].sequenceNum;
            || (k < |p.cells[s].finished| && p.cells[s].finished[k].sequenceNum == n)
            || Inside(p.workers[i], s, n)
  {
  }

  lemma InsideBefore(p: Pool.State, i: nat, a: WorkStep, s: nat, n: nat, k: nat)
    requires WorkEnabled(p, i, a) && RunnerExists(p, s)
    requires k < |DoWork(p, i, a).workers| && Inside(DoWork(p, i, a).workers[k], s, n)
    ensures (k < |p.workers| && Inside(p.workers[k], s, n)) || Calls(p, ByWorker(i, a), s, n)
  {
  }

  /** Wake-ups of sleeping workers are all that the other threads do to workers. */
  ghost predicate SameInside(p: Pool.State, r: Pool.State, s: nat)
    requires s < |p.cells| && s < |r.cells|
  {
    && r.cells[s].finished == p.cells[s].finished && |r.workers| == |p.workers|
    && forall i | 0 <= i < |p.workers| :: r.workers[i] == p.workers[i] || (p.workers[i].Asleep? && r.workers[i].Awake?)
  }

  lemma BegunByOthers(p: Pool.State, a: Pool.Step, s: nat, n: nat)
    requires Pool.Enabled(p, a) && !a.ByWorker? && s < |p.cells| && s < |Pool.Do(p, a).cells|
    requires SameInside(p, Pool.Do(p, a), s)
    ensures Begun(Pool.Do(p, a), s, n) <==> Begun(p, s, n)
  {
    var r := Pool.Do(p, a);
    forall i | 0 <= i < |p.workers| ensures Inside(r.workers[i], s, n) == Inside(p.workers[i], s, n) {
    }
  }

  lemma OthersSameInside(p: Pool.State, a: Pool.Step, s: nat)
    requires Pool.Enabled(p, a) && !a.ByWorker? && s < |p.cells| && s < |Pool.Do(p, a).cells|
    ensures SameInside(p, Pool.Do(p, a), s)
  {
    if a.ByPost? {
      PostSameInside(p, a.post, s);
    } else {
      hide DoPost, DoWork;
    }
  }

  lemma PostSameInside(p: Pool.State, a: PostStep, s: nat)
    requires PostEnabled(p, a) && s < |p.cells| && s < |DoPost(p, a).cells|
    ensures SameInside(p, DoPost(p, a), s)
  {
  }

  lemma BegunStep(p: Pool.State, a: Pool.Step, s: nat, n: nat)
    requires Pool.Enabled(p, a) && RunnerExists(p, s) && s < |Pool.Do(p, a).cells|
    ensures Begun(Pool.Do(p, a), s, n) <==> Begun(p, s, n) || Calls(p, a, s, n)
  {
    hide DoWork, Begun;
    if a.ByWorker? {
      BegunByWorker(p, a.i, a.work, s, n);
    } else {
      OthersSameInside(p, a, s);
      BegunByOthers(p, a, s, n);
    }
  }

  /** A task that has begun was posted; one that a worker is about to call has not begun. */
  lemma BegunIsPosted(p: Pool.State, s: nat, n: nat)
    requires Safe(p) && s < |p.cells| && Begun(p, s, n)
    ensures n < p.cells[s].q.next
  {
    var q := p.cells[s].q;
    assert S.Conserved(q) by { assert S.Valid(q, p.clock); }
    FinishedArePosted(p, s);
    if k :| 0 <= k < |p.cells[s].finished| && p.cells[s].finished[k].sequenceNum == n {
      var t := p.cells[s].finished[k];
      assert t in multiset(p.cells[s].finished);
      PostedIsNumbered(q, t);
    } else {
      var i :| 0 <= i < |p.workers| && Inside(p.workers[i], s, n);
      assert q.taken[|q.taken| - 1] == p.workers[i].task;
      assert p.workers[i].task in multiset(q.taken);
      PostedIsNumbered(q, p.workers[i].task);
    }
  }

  lemma PostedIsNumbered(q: S.State, t: S.Task)
    requires S.Conserved(q) && t in multiset(q.posted)
    ensures t.sequenceNum < q.next
  {
    assert t in q.posted;
  }

  lemma HeldHasNotBegun(p: Pool.State, i: nat)
    requires Safe(p) && i < |p.workers| && p.workers[i].Holding? && p.workers[i].source < |p.cells|
    ensures !Begun(p, p.workers[i].source, p.workers[i].task.sequenceNum)
    ensures p.workers[i].task.sequenceNum < p.cells[p.workers[i].source].q.next
  {
    var s, t := p.workers[i].source, p.workers[i].task;
    var q := p.cells[s].q;
    assert S.Valid(q, p.clock);
    assert q.taken == p.cells[s].finished + [t];
    forall k | 0 <= k < |p.cells[s].finished| ensures p.cells[s].finished[k].sequenceNum != t.sequenceNum {
      assert q.taken[k] == p.cells[s].finished[k];
      TakenAreDistinct(q, k, |q.taken| - 1);
    }
    assert t in multiset(q.taken);
    assert t in multiset(q.posted);
  }

  // ---- Pending ticks ----

  /** The epochs of the ticks with numbers below `n` that nobody has begun. */
  function Pending(epochOf: map<nat, nat>, started: set<nat>, n: nat): multiset<nat> {
    if n == 0 then multiset{}
    else
      var rest := Pending(epochOf, started, n - 1);
      if n - 1 in epochOf && n - 1 !in started then rest + multiset{epochOf[n - 1]} else rest
  }

  lemma {:induction false} PendingGrows(epochOf: map<nat, nat>, started: set<nat>, n: nat, m: nat)
    requires n <= m && forall k | k in epochOf :: k < n
    ensures Pending(epochOf, started, m) == Pending(epochOf, started, n)
    decreases m
  {
    if n < m {
      PendingGrows(epochOf, started, n, m - 1);
    }
  }

  /** Numbers from `n` on do not matter to what is pending below. */
  lemma {:induction false} PendingPosted(epochOf: map<nat, nat>, started: set<nat>, n: nat, k: nat, e: nat)
    requires n <= k
    ensures Pending(epochOf[k := e], started, n) == Pending(epochOf, started, n)
  {
    if n > 0 {
      PendingPosted(epochOf, started, n - 1, k, e);
    }
  }

  lemma {:induction false} PendingBegun(epochOf: map<nat, nat>, started: set<nat>, n: nat, k: nat)
    requires n <= k
    ensures Pending(epochOf, started + {k}, n) == Pending(epochOf, started, n)
  {
    if n > 0 {
      PendingBegun(epochOf, started, n - 1, k);
    }
  }

  lemma {:induction false} PendingOneLess(epochOf: map<nat, nat>, started: set<nat>, n: nat, k: nat, e: nat)
    requires k < n && k in epochOf && k !in started
    ensures Pending(epochOf, started, n)[e]
            == Pending(epochOf, started + {k}, n)[e] + if epochOf[k] == e then 1 else 0
    decreases n
  {
    if k == n - 1 {
      PendingBegun(epochOf, started, k, k);
    } else {
      PendingOneLess(epochOf, started, n - 1, k, e);
    }
  }

  lemma PendingStarts(epochOf: map<nat, nat>, started: set<nat>, n: nat, k: nat)
    requires k < n && k in epochOf && k !in started
    ensures Pending(epochOf, started, n) == Pending(epochOf, started + {k}, n) + multiset{epochOf[k]}
  {
    hide Pending;
    forall e: nat
      ensures Pending(epochOf, started, n)[e] == (Pending(epochOf, started + {k}, n) + multiset{epochOf[k]})[e]
    {
      PendingOneLess(epochOf, started, n, k, e);
    }
  }

  // ---- The timer that the composition refines ----

  ghost function Current(ticks: map<nat, R.Tick>): R.Tick {
    if ticks == map[] then R.Idle else var i :| i in ticks; ticks[i]
  }

  ghost function View(s: State): R.State {
    R.State(s.epochs, s.active, s.starting, s.ending, Pending(s.epochOf, s.started, Posts(s)),
            Current(s.ticks), s.invoked)
  }

  /** How many tasks were posted to the runner. */
  function Posts(s: State): nat {
    if s.runner < |s.pool.cells| then s.pool.cells[s.runner].q.next else 0
  }

  /** Workers that are inside a tick run a task of the runner; so there is at most one. */
  ghost predicate TicksRun(s: State) {
    && (forall i | i in s.ticks ::
          && !s.ticks[i].Idle? && i < |s.pool.workers|
          && s.pool.workers[i].Running? && s.pool.workers[i].source == s.runner)
    && (forall i, j | i in s.ticks && j in s.ticks :: i == j)
  }

  ghost predicate Inv(s: State) {
    && Safe(s.pool) && RunnerExists(s.pool, s.runner)
    && TicksRun(s)
    && (forall n | n in s.epochOf :: n < s.pool.cells[s.runner].q.next)
    && (forall n | n in s.epochOf :: n in s.started <==> Begun(s.pool, s.runner, n))
    && s.started <= s.epochOf.Keys
  }

  lemma CurrentIs(ticks: map<nat, R.Tick>, i: nat)
    requires i in ticks && forall j | j in ticks :: j == i
    ensures Current(ticks) == ticks[i] && ticks - {i} == map[]
  {
    assert ticks != map[];
  }

  /** The exclusion of the pool: while a worker is about to call a task of the runner, nobody is inside a tick. */
  lemma NobodyElseTicks(s: State, i: nat)
    requires Inv(s) && AtTick(s, i)
    ensures s.ticks == map[]
  {
    assert Exclusive(s.pool.cells, s.pool.workers);
    forall j | j in s.ticks ensures false {
      assert Owns(s.pool.workers[i]) && Owns(s.pool.workers[j]);
    }
  }

  /** What a step of the pool keeps of the runner. */
  lemma PoolKeepsRunner(s: State, a: Pool.Step)
    requires Inv(s) && Pool.Enabled(s.pool, a)
    ensures var r := Pool.Do(s.pool, a);
            && Safe(r) && RunnerExists(r, s.runner)
            && s.pool.cells[s.runner].q.next <= r.cells[s.runner].q.next
  {
    hide Pool.Do, Pool.Enabled;
    SafeStep(s.pool, a);
    StepKeepsPosts(s.pool, a);
    NextCountsPosts(s.pool, s.runner);
    NextCountsPosts(Pool.Do(s.pool, a), s.runner);
  }

  lemma NextCountsPosts(p: Pool.State, s: nat)
    requires Safe(p) && s < |p.cells|
    ensures p.cells[s].q.next == |p.cells[s].q.posted|
  {
    assert S.Valid(p.cells[s].q, p.clock);
  }

  lemma RunningStays(p: Pool.State, a: Pool.Step, i: nat)
    requires Pool.Enabled(p, a) && i < |p.workers| && p.workers[i].Running? && a != ByWorker(i, Return)
    ensures i < |Pool.Do(p, a).workers| && Pool.Do(p, a).workers[i] == p.workers[i]
  {
    SameWorkers(p, a);
    if a.ByWorker? {
      RunningStaysByWorker(p, a.i, a.work, i);
    }
  }

  lemma RunningStaysByWorker(p: Pool.State, k: nat, a: WorkStep, i: nat)
    requires WorkEnabled(p, k, a) && i < |p.workers| && p.workers[i].Running? && !(k == i && a.Return?)
    ensures i < |DoWork(p, k, a).workers| && DoWork(p, k, a).workers[i] == p.workers[i]
  {
  }

  /** A tick that is posted is one more pending tick. */
  lemma PostAddsPending(s: State, e: nat, readyTime: nat)
    requires Inv(s) && Alive(s, e)
    ensures var r := Post(s, e, readyTime);
            Inv(r) && View(r) == View(s).(pending := View(s).pending + multiset{e})
  {
    var a := ByPost(PostDelayed(s.runner, e, readyTime));
    var n := Posts(s);
    hide Safe, Begun, Pool.Do, DoPost, Alive;
    var r := Post(s, e, readyTime);
    PostDelayedIsStep(s.pool, s.runner, e, readyTime);
    PoolKeepsRunner(s, a);
    PendingPosted(s.epochOf, s.started, n, n, e);
    if Begun(s.pool, s.runner, n) {
      BegunIsPosted(s.pool, s.runner, n);
    }
    forall k | k in r.epochOf ensures k in r.started <==> Begun(r.pool, s.runner, k) {
      BegunStep(s.pool, a, s.runner, k);
    }
    forall i | i in s.ticks ensures i < |r.pool.workers| && r.pool.workers[i] == s.pool.workers[i] {
      RunningStays(s.pool, a, i);
    }
  }

  lemma PostDelayedIsStep(p: Pool.State, s: nat, callback: nat, readyTime: nat)
    requires RunnerExists(p, s)
    ensures var a := PostDelayed(s, callback, readyTime);
            && Pool.Enabled(p, ByPost(a)) && Pool.Do(p, ByPost(a)) == DoPost(p, a)
            && s < |DoPost(p, a).cells| && DoPost(p, a).cells[s].q.next == p.cells[s].q.next + 1
  {
  }

  lemma StartIsStep(p: Pool.State, i: nat)
    requires WorkEnabled(p, i, WorkStep.Start) && RunnerExists(p, p.workers[i].source)
    ensures var w, a := p.workers[i], WorkStep.Start;
            && Pool.Enabled(p, ByWorker(i, a)) && Pool.Do(p, ByWorker(i, a)) == DoWork(p, i, a)
            && DoWork(p, i, a) == p.(workers := p.workers[i := Running(w.source, w.task)])
  {
  }

  /** What the step is for the timer; `None` if it is nothing to it. */
  ghost function Label(s: State, a: Step): Option<R.Step>
    requires Enabled(s, a)
  {
    match a
    case PoolStep(_) => None
    case Start => Some(R.Step.Start)
    case ScheduleFirst(e, _) => Some(R.ScheduleFirst(e))
    case ReturnFromStart(e) => Some(R.ReturnFromStart(e))
    case Stop => Some(R.Step.Stop)
    case RunTick(i) => Some(R.RunTick(s.epochOf[s.pool.workers[i].task.sequenceNum]))
    case Upgrade(_) => Some(R.Upgrade)
    case ScheduleNext(_, _) => Some(R.ScheduleNext)
    case Release(_) => Some(R.Release)
    case Call(_) => Some(R.Call)
    case Finish(_) => Some(R.Finish)
  }

  /** The step keeps the invariant, and is a step of the timer or nothing to it. */
  ghost predicate Refines(s: State, a: Step)
    requires Enabled(s, a)
  {
    && Inv(Do(s, a))
    && match Label(s, a)
       case None => View(Do(s, a)) == View(s)
       case Some(b) => R.Enabled(View(s), b) && View(Do(s, a)) == R.Do(View(s), b)
  }

  /** A step of the pool that begins no tick and ends none leaves the timer as it is. */
  lemma PoolStepStutters(s: State, a: Pool.Step)
    requires Inv(s) && Enabled(s, PoolStep(a))
    ensures Refines(s, PoolStep(a))
  {
    hide Pool.Do, Pool.Enabled, Safe, Begun;
    var r := Do(s, PoolStep(a));
    PoolKeepsRunner(s, a);
    PendingGrows(s.epochOf, s.started, s.pool.cells[s.runner].q.next, r.pool.cells[s.runner].q.next);
    forall n | n in s.epochOf ensures n in s.started <==> Begun(r.pool, s.runner, n) {
      BegunStep(s.pool, a, s.runner, n);
    }
    forall i | i in s.ticks ensures i < |r.pool.workers| && r.pool.workers[i] == s.pool.workers[i] {
      RunningStays(s.pool, a, i);
    }
  }

  /** A worker that begins a tick keeps the invariant, and takes one tick from the pending ones. */
  lemma RunTickKeeps(s: State, i: nat)
    requires Inv(s) && Enabled(s, RunTick(i))
    ensures var n, r := s.pool.workers[i].task.sequenceNum, Do(s, RunTick(i));
            && Inv(r) && s.ticks == map[] && Posts(r) == Posts(s)
            && n < Posts(s) && n !in s.started && r.ticks == map[i := R.Started(s.epochOf[n])]
  {
    hide Safe, Begun, DoWork, Pool.Do, Alive, View;
    var a := ByWorker(i, WorkStep.Start);
    var r := Do(s, RunTick(i));
    StartIsStep(s.pool, i);
    NobodyElseTicks(s, i);
    HeldHasNotBegun(s.pool, i);
    PoolKeepsRunner(s, a);
    forall k | k in r.epochOf ensures k in r.started <==> Begun(r.pool, s.runner, k) {
      BegunStep(s.pool, a, s.runner, k);
    }
  }

  lemma RunIsStep(v: R.State, w: R.State, e: nat)
    requires v.tick.Idle? && v.pending == w.pending + multiset{e} && w == v.(pending := w.pending, tick := R.Started(e))
    ensures R.Enabled(v, R.RunTick(e)) && w == R.Do(v, R.RunTick(e))
  {
  }

  /** The tick that a worker begins was pending, and no other one is running. */
  lemma RunTickRefines(s: State, i: nat)
    requires Inv(s) && Enabled(s, RunTick(i))
    ensures Refines(s, RunTick(i))
  {
    hide Inv, DoWork, Pool.Do, Alive, Pending, R.Enabled, R.Do;
    var n, r := s.pool.workers[i].task.sequenceNum, Do(s, RunTick(i));
    RunTickKeeps(s, i);
    PendingStarts(s.epochOf, s.started, Posts(s), n);
    CurrentIs(r.ticks, i);
    RunIsStep(View(s), View(r), s.epochOf[n]);
  }

  lemma AliveInView(s: State, e: nat)
    requires Inv(s)
    ensures R.Alive(View(s), e) <==> Alive(s, e)
  {
    if s.ticks != map[] {
      var i :| i in s.ticks;
      CurrentIs(s.ticks, i);
    }
  }

  lemma FirstPostRefines(s: State, e: nat, readyTime: nat)
    requires Inv(s) && Enabled(s, ScheduleFirst(e, readyTime))
    ensures Refines(s, ScheduleFirst(e, readyTime))
  {
    hide Safe, Begun, DoPost, Pending;
    PostAddsPending(s, e, readyTime);
  }

  lemma NextPostRefines(s: State, i: nat, readyTime: nat)
    requires Inv(s) && Enabled(s, ScheduleNext(i, readyTime))
    ensures Refines(s, ScheduleNext(i, readyTime))
  {
    hide Safe, Begun, DoPost, Pending;
    PostAddsPending(s, s.ticks[i].epoch, readyTime);
    CurrentIs(s.ticks, i);
    CurrentIs(Do(s, ScheduleNext(i, readyTime)).ticks, i);
  }

  /** Steps inside a tick that post nothing keep the invariant. */
  lemma TickKeeps(s: State, a: Step)
    requires Inv(s) && Enabled(s, a) && (a.Upgrade? || a.Release? || a.Call? || a.Finish?)
    ensures Inv(Do(s, a)) && a.i in s.ticks
    ensures forall j | j in s.ticks || j in Do(s, a).ticks :: j == a.i
    ensures Do(s, a) == s.(ticks := Do(s, a).ticks, invoked := Do(s, a).invoked)
  {
    hide Safe, Begun, Alive;
  }

  lemma TicksInView(s: State, ticks: map<nat, R.Tick>, invoked: multiset<nat>)
    ensures View(s.(ticks := ticks, invoked := invoked)) == View(s).(tick := Current(ticks), invoked := invoked)
  {
    hide Pending, Current;
  }

  /** What the timer sees of a step inside a tick: the tick moves on, or is over. */
  lemma TickInView(s: State, a: Step)
    requires Inv(s) && Enabled(s, a) && (a.Upgrade? || a.Release? || a.Call? || a.Finish?)
    ensures Inv(Do(s, a)) && a.i in s.ticks && View(s).tick == s.ticks[a.i] && View(s).invoked == s.invoked
    ensures View(Do(s, a)) ==
              View(s).(tick := if a.i in Do(s, a).ticks then Do(s, a).ticks[a.i] else R.Idle,
                       invoked := Do(s, a).invoked)
  {
    hide Inv, Do, Pending;
    TickKeeps(s, a);
    TicksInView(s, Do(s, a).ticks, Do(s, a).invoked);
    CurrentIs(s.ticks, a.i);
    if a.i in Do(s, a).ticks {
      CurrentIs(Do(s, a).ticks, a.i);
    } else {
      assert Do(s, a).ticks == map[];
    }
  }

  /** The steps of a tick, on the timer alone. */
  predicate TickMoves(v: R.State, b: R.Step, next: R.Tick, invoked: multiset<nat>) {
    match b
    case Upgrade => v.tick.Started? && invoked == v.invoked
                    && next == if R.Alive(v, v.tick.epoch) then R.Upgraded(v.tick.epoch) else R.Idle
    case Release => v.tick.Scheduled? && next == R.Calling(v.tick.epoch) && invoked == v.invoked
    case Call =>
      v.tick.Calling? && next == R.InCallback(v.tick.epoch) && invoked == v.invoked + multiset{v.tick.epoch}
    case Finish => v.tick.InCallback? && next == R.Idle && invoked == v.invoked
    case _ => false
  }

  lemma TickMovesIsStep(v: R.State, b: R.Step, next: R.Tick, invoked: multiset<nat>)
    requires TickMoves(v, b, next, invoked)
    ensures R.Enabled(v, b) && R.Do(v, b) == v.(tick := next, invoked := invoked)
  {
    hide R.Alive;
  }

  lemma TickMovesOn(s: State, a: Step)
    requires Inv(s) && Enabled(s, a) && (a.Upgrade? || a.Release? || a.Call? || a.Finish?)
    requires View(s).tick == s.ticks[a.i] && View(s).invoked == s.invoked
    ensures var r := Do(s, a);
            TickMoves(View(s), Label(s, a).value, if a.i in r.ticks then r.ticks[a.i] else R.Idle, r.invoked)
  {
    hide Inv, View, Alive, R.Alive, Post, Pool.Do, DoWork, AtTick, Pool.Enabled, RunnerExists;
    if a.Upgrade? {
      AliveInView(s, s.ticks[a.i].epoch);
    } else {
      assert Do(s, a).ticks == s.ticks - {a.i} || a.i in Do(s, a).ticks;
    }
  }

  lemma TickRefines(s: State, a: Step)
    requires Inv(s) && Enabled(s, a) && (a.Upgrade? || a.Release? || a.Call? || a.Finish?)
    ensures Refines(s, a)
  {
    hide Inv, View, TickMoves, R.Do, R.Enabled, Do, AtTick;
    TickInView(s, a);
    TickMovesOn(s, a);
    var next := if a.i in Do(s, a).ticks then Do(s, a).ticks[a.i] else R.Idle;
    TickMovesIsStep(View(s), Label(s, a).value, next, Do(s, a).invoked);
  }

  /** Calls of the timer that post nothing. */
  lemma CallRefines(s: State, a: Step)
    requires Inv(s) && Enabled(s, a) && (a.Start? || a.Stop? || a.ReturnFromStart?)
    ensures Refines(s, a)
  {
    hide Safe, Begun, Pending;
  }

  /** Every step of the pool and of the timer on it is a step of the timer alone, or nothing to it. */
  lemma StepRefinesTimer(s: State, a: Step)
    requires Inv(s) && Enabled(s, a)
    ensures Refines(s, a)
  {
    hide Refines, Inv;
    match a
    case PoolStep(b) => PoolStepStutters(s, b);
    case RunTick(i) => RunTickRefines(s, i);
    case ScheduleFirst(e, readyTime) => FirstPostRefines(s, e, readyTime);
    case ScheduleNext(i, readyTime) => NextPostRefines(s, i, readyTime);
    case Start => CallRefines(s, a);
    case Stop => CallRefines(s, a);
    case ReturnFromStart(_) => CallRefines(s, a);
    case _ => TickRefines(s, a);
  }

  lemma NextRefinesTimer(s: State, r: State)
    requires Inv(s) && Next(s, r)
    ensures Inv(r) && (View(r) == View(s) || R.Next(View(s), View(r)))
  {
    hide View, Inv, Do, Enabled;
    var a :| Enabled(s, a) && r == Do(s, a);
    StepRefinesTimer(s, a);
  }

  lemma InitRefines(s: State)
    requires Init(s)
    ensures Inv(s) && View(s) == R.INIT
  {
    ReachableIsSafe(s.pool);
    PendingGrows(map[], {}, 0, s.pool.cells[s.runner].q.next);
  }

  // ---- Main results ----

  /** A run of the pool with a timer on one of its runners is a run of the timer. */
  lemma {:induction false} RunRefinesTimer(ss: seq<State>, n: nat)
    requires IsRun(ss) && n < |ss|
    ensures Inv(ss[n]) && R.Reachable(View(ss[n]))
  {
    hide View, Inv, Next, Init;
    if n == 0 {
      InitRefines(ss[0]);
      assert R.IsPath([R.INIT]);
    } else {
      RunRefinesTimer(ss, n - 1);
      assert Next(ss[n - 1], ss[n - 1 + 1]);
      NextRefinesTimer(ss[n - 1], ss[n]);
      if View(ss[n]) != View(ss[n - 1]) {
        R.ReachableNext(View(ss[n - 1]), View(ss[n]));
      }
    }
  }

  /** Each start has at most one pending tick in the pool; the active one has one, pending or about to be posted. */
  lemma OneTickInPool(s: State, e: nat)
    requires Reachable(s)
    ensures Pending(s.epochOf, s.started, Posts(s))[e] <= R.Ticks(View(s), e) <= 1
    ensures s.active == Some(e) ==> R.Ticks(View(s), e) == 1
  {
    var ss :| IsRun(ss) && ss[|ss| - 1] == s;
    RunRefinesTimer(ss, |ss| - 1);
    R.OneTickPerStart(View(s), e);
  }

  /** A pending tick is in the pool: queued, waiting for its time, or in the hands of the worker about to call it. */
  lemma PendingIsInPool(s: State, n: nat)
    requires Reachable(s) && n in s.epochOf && n !in s.started
    ensures s.runner < |s.pool.cells|
    ensures var q := s.pool.cells[s.runner].q;
            exists t: S.Task :: t.sequenceNum == n
              && (t in q.immediate || t in q.delayed
                  || exists i :: 0 <= i < |s.pool.workers| && s.pool.workers[i] == Holding(s.runner, t))
  {
    var ss :| IsRun(ss) && ss[|ss| - 1] == s;
    RunRefinesTimer(ss, |ss| - 1);
    NotBegunIsInPool(s.pool, s.runner, n);
  }

  lemma NotBegunIsInPool(p: Pool.State, s: nat, n: nat)
    requires Safe(p) && s < |p.cells| && n < p.cells[s].q.next && !Begun(p, s, n)
    ensures var q := p.cells[s].q;
            exists t: S.Task :: t.sequenceNum == n
              && (t in q.immediate || t in q.delayed
                  || exists i :: 0 <= i < |p.workers| && p.workers[i] == Holding(s, t))
  {
    var q := p.cells[s].q;
    assert S.Valid(q, p.clock);
    var t := q.posted[n];
    assert t in multiset(q.posted);
    if t !in q.immediate && t !in q.delayed {
      assert t in multiset(q.taken);
      assert t !in p.cells[s].finished;
      var i :| 0 <= i < |p.workers| && Holds(p.workers[i]) && p.workers[i].source == s;
      assert !Inside(p.workers[i], s, n);
      assert p.workers[i] == Holding(s, t);
    }
  }

  /**
   * Once an epoch is cancelled, over every run of the pool its callback is invoked at most by the tick
   * that was already past its upgrade.
   */
  lemma CancelledEpochIsSilentInPool(ss: seq<State>, n: nat, e: nat)
    requires IsPath(ss) && n < |ss| && Reachable(ss[0]) && R.Cancelled(View(ss[0]), e)
    ensures ss[n].invoked[e] + R.InFlight(View(ss[n]), e) <= ss[0].invoked[e] + R.InFlight(View(ss[0]), e)
  {
    var past :| IsRun(past) && past[|past| - 1] == ss[0];
    RunRefinesTimer(past, |past| - 1);
    SilentOnPath(ss, n, e);
  }

  lemma {:induction false} SilentOnPath(ss: seq<State>, n: nat, e: nat)
    requires IsPath(ss) && n < |ss| && Inv(ss[0]) && R.Cancelled(View(ss[0]), e)
    ensures Inv(ss[n]) && R.Cancelled(View(ss[n]), e)
    ensures ss[n].invoked[e] + R.InFlight(View(ss[n]), e) <= ss[0].invoked[e] + R.InFlight(View(ss[0]), e)
  {
    hide Inv, Next, R.Cancelled, R.InFlight;
    if n > 0 {
      SilentOnPath(ss, n - 1, e);
      assert Next(ss[n - 1], ss[n - 1 + 1]);
      NextRefinesTimer(ss[n - 1], ss[n]);
      if View(ss[n]) != View(ss[n - 1]) {
        R.CancelledNext(View(ss[n - 1]), View(ss[n]), e);
      }
    }
  }
}
