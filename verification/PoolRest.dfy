/**
 * Where the quiet steps of the pool run out, and what that means for shutdown. The runs may have any
 * number of delayed tasks whose time is still to come.
 */
module PoolRest {
  import opened Basics
  import opened Traits
  import opened Pool
  import opened PoolExclusion
  import opened PoolCoverage
  import opened PoolWakeups
  import opened PoolShutdown
  import opened PoolQuiescence
  import opened PoolTheorems
  import S = Sequences
  import Q = PriorityQueues
  import D = DelayedTasks

  // ---- Who can move ----

  /** No thread of the pool can move on its own. */
  ghost predicate Stuck(p: State) {
    forall a | Quiet(a) :: !Enabled(p, a)
  }

  lemma PickExists(ws: seq<Worker>) returns (w: nat)
    ensures Picks(ws, w)
  {
    w := 0;
    if AnyAsleep(ws) {
      w :| w < |ws| && ws[w].Asleep?;
    }
  }

  /** Every worker that is neither asleep nor gone can take its next step. */
  lemma WorkerCanMove(p: State, i: nat)
    requires Bounds(p) && i < |p.workers| && !p.workers[i].Asleep? && !p.workers[i].Exited?
    ensures !Stuck(p)
  {
    var w := PickExists(p.workers);
    var e := Q.Entry(BestEffort, 0, 0, 0);
    if !p.group.shutdown && p.group.queue.heap != {} {
      e := Q.TopExists(p.group.queue.heap);
    }
    var a := match p.workers[i]
      case Popped(_) => Claim
      case Claimed(_) => Take
      case Holding(_, _) => Start
      case Running(_, _) => Return
      case Ran(_, _) => Settle
      case Releasing(_) => Release
      case Released(_) => Recheck
      case PushingBack(_) => PushBack
      case Notifying => WorkStep.Notify(w)
      case _ => Fetch(e);
    assert Quiet(ByWorker(i, a)) && Enabled(p, ByWorker(i, a));
  }

  lemma PostCanMove(p: State, j: nat)
    requires Bounds(p) && j < |p.posts| && !p.posts[j].Posted?
    ensures !Stuck(p)
  {
    var w := PickExists(p.workers);
    var a := match p.posts[j]
      case Accepted(_, _, _) => PushGated(j)
      case Pushed(_) => QueueSource(j)
      case Notifying => NotifyGroup(j, w)
      case Adding(_, _) => AddToTimer(j)
      case _ => NotifyTimer(j);
    assert Quiet(ByPost(a)) && Enabled(p, ByPost(a));
  }

  /** Nothing but the clock can move the timer thread, or nothing at all. */
  ghost predicate TimerRests(p: State) {
    p.timer.phase.Idle? || p.timer.phase.Stopped? || (p.timer.phase.Dozing? && p.clock < p.timer.phase.until)
  }

  lemma TimerCanMove(p: State)
    requires Bounds(p) && !TimerRests(p)
    ensures !Stuck(p)
  {
    var w := PickExists(p.workers);
    var e := D.DelayedEntry(0, 0, 0);
    if p.timer.heap != {} {
      e := D.NextExists(p.timer.heap);
    }
    var a := match p.timer.phase
      case Carrying(_) => HandOver
      case Notifying => TimerStep.Notify(w)
      case Dozing(_) => TimeOut
      case _ => Scan(e);
    assert Quiet(ByTimer(a)) && Enabled(p, ByTimer(a));
  }

  /** The call of shutdown waits: for a notification, or for threads that it joins. */
  ghost predicate MustWait(p: State, c: Closer) {
    || c.Waiting? || c.Closed?
    || (c.JoiningGroup? && !(forall i | 0 <= i < |p.workers| :: p.workers[i].Exited?))
    || (c.JoiningTimer? && !p.timer.phase.Stopped?)
  }

  lemma CloserCanMove(p: State, c: nat)
    requires c < |p.closers| && !MustWait(p, p.closers[c])
    ensures !Stuck(p)
  {
    var a := match p.closers[c]
      case Checking => Check
      case StoppingGroup => StopGroup
      case WakingGroup => WakeGroup
      case ReapingGroup => ReapGroup
      case JoiningGroup(_) => JoinGroup
      case StoppingTimer => StopTimer
      case WakingTimer => WakeTimer
      case ReapingTimer => ReapTimer
      case _ => JoinTimer;
    assert Quiet(ByCloser(c, a)) && Enabled(p, ByCloser(c, a));
  }

  /** What a stuck state looks like, thread by thread. */
  ghost predicate AtRest(p: State) {
    && (forall i | 0 <= i < |p.workers| :: p.workers[i].Asleep? || p.workers[i].Exited?)
    && (forall j | 0 <= j < |p.posts| :: p.posts[j].Posted?)
    && TimerRests(p)
    && (forall c | 0 <= c < |p.closers| :: MustWait(p, p.closers[c]))
  }

  lemma StuckIsAtRest(p: State)
    requires Bounds(p) && Stuck(p)
    ensures AtRest(p)
  {
    forall i | 0 <= i < |p.workers| ensures p.workers[i].Asleep? || p.workers[i].Exited? {
      if !p.workers[i].Asleep? && !p.workers[i].Exited? {
        WorkerCanMove(p, i);
      }
    }
    forall j | 0 <= j < |p.posts| ensures p.posts[j].Posted? {
      if !p.posts[j].Posted? {
        PostCanMove(p, j);
      }
    }
    if !TimerRests(p) {
      TimerCanMove(p);
    }
    forall c | 0 <= c < |p.closers| ensures MustWait(p, p.closers[c]) {
      if !MustWait(p, p.closers[c]) {
        CloserCanMove(p, c);
      }
    }
  }

  // ---- What is left at rest ----

  lemma NoRelief(p: State)
    requires AtRest(p)
    ensures Relief(p) == 0
  {
    if Sum(WorkerRelief, p.workers) > 0 {
      var i := SumWitness(WorkerRelief, p.workers);
    }
    if Sum(PostRelief, p.posts) > 0 {
      var j := SumWitness(PostRelief, p.posts);
    }
  }

  /** Task `t` waits for its time, and the timer thread sleeps until then, or less. */
  ghost predicate ToCome(p: State, t: S.Task) {
    p.timer.phase.Dozing? && p.clock < p.timer.phase.until <= S.ReadyAt(t)
  }

  /** At rest before the group is stopped, the only tasks left are those whose time is still to come. */
  lemma RestOnlyWaits(p: State, s: nat)
    requires Safe(p) && AtRest(p) && !p.group.shutdown && s < |p.cells|
    ensures p.group.queue.heap == {} && p.cells[s].q.immediate == []
    ensures forall t | t in p.cells[s].q.delayed :: ToCome(p, t)
  {
    NoRelief(p);
    assert p.workers[0].Asleep?;
    assert CellCovered(p, s);
    assert !Covered(p, s);
    forall t | t in p.cells[s].q.delayed ensures ToCome(p, t) {
      assert DelayCovered(p, s, S.ReadyAt(t));
    }
  }

  predicate Busy(c: Cell) {
    c.q.immediate != [] || c.q.delayed != {}
  }

  /** With nothing queued and nothing in hand, whatever was posted is finished. */
  lemma EmptyIsFinished(p: State, s: nat)
    requires Inv(p) && s < |p.cells| && !Busy(p.cells[s])
    requires forall i | 0 <= i < |p.workers| :: !Holds(p.workers[i])
    ensures multiset(p.cells[s].finished) == multiset(p.cells[s].q.posted)
  {
    assert S.Valid(p.cells[s].q, p.clock);
    assert !Held(p.workers, s);
    assert p.cells[s].q.taken == p.cells[s].finished;
  }

  /** A pool task that still blocks shutdown is somewhere: its post is in progress, it is queued, or a worker has it. */
  lemma OwedIsSomewhere(p: State, s: nat)
    requires Inv(p) && OneTaskEach(p.cells, p.posts) && s < |p.cells| && Owes(p.cells[s]) > 0
    ensures || Busy(p.cells[s]) || Held(p.workers, s)
            || exists j :: 0 <= j < |p.posts| && p.posts[j].Accepted? && p.posts[j].source == s
  {
    var c := p.cells[s];
    assert S.Valid(c.q, p.clock);
    if c.q.posted != [] && !Busy(c) {
      PostedIsTaken(c.q);
    }
  }

  lemma PostedIsTaken(q: S.State)
    requires S.Conserved(q) && q.posted != [] && q.immediate == [] && q.delayed == {}
    ensures q.taken != []
  {
    assert q.posted[0] in multiset(q.posted);
    assert q.posted[0] in multiset(q.taken);
  }

  /** At rest, a BlockShutdown task that is still owed is a delayed one whose time is still to come. */
  lemma RestOwesOnlyDelayed(p: State, s: nat)
    requires Safe(p) && AtRest(p) && s < |p.cells| && Owes(p.cells[s]) > 0
    ensures exists t :: t in p.cells[s].q.delayed && ToCome(p, t)
  {
    SumIncludes(Owes, p.cells, s);
    RestOnlyWaits(p, s);
    OwedIsSomewhere(p, s);
    var t :| t in p.cells[s].q.delayed;
    assert ToCome(p, t);
  }

  /** At rest with nothing owed, every call of shutdown has returned and every thread is gone. */
  lemma RestIsClosed(p: State)
    requires Safe(p) && AtRest(p) && p.closers != [] && p.tracker.blocking == 0
    ensures forall c | 0 <= c < |p.closers| :: p.closers[c].Closed?
    ensures forall i | 0 <= i < |p.workers| :: p.workers[i].Exited?
    ensures p.timer.phase.Stopped?
  {
    assert forall c | 0 <= c < |p.closers| :: Agrees(p, p.closers[c]);
    assert Agrees(p, p.closers[0]);
    assert p.group.shutdown;
    assert WakingGroup !in p.closers;
    assert forall i | 0 <= i < |p.workers| :: p.workers[i].Exited?;
    assert WakingTimer !in p.closers;
  }

  // ---- Quiet paths ----

  ghost predicate QuietPath(ps: seq<State>) {
    ps != [] && forall n | 0 <= n < |ps| - 1 :: QuietNext(ps[n], ps[n + 1])
  }

  lemma {:induction false} QuietPathIsSafe(ps: seq<State>, n: nat)
    requires QuietPath(ps) && Safe(ps[0]) && n < |ps|
    ensures Safe(ps[n])
  {
    hide Safe, QuietNext;
    if n > 0 {
      QuietPathIsSafe(ps, n - 1);
      assert QuietNext(ps[n - 1], ps[n - 1 + 1]);
      QuietNextDecreases(ps[n - 1], ps[n]);
    }
  }

  /** The time of every BlockShutdown task of the pool has come, if it is not finished. */
  ghost predicate BlockersDue(p: State) {
    forall s | 0 <= s < |p.cells| && Owes(p.cells[s]) > 0 ::
      && (forall t | t in p.cells[s].q.delayed :: S.ReadyAt(t) <= p.clock)
      && (forall j | 0 <= j < |p.posts| && p.posts[j].Accepted? && p.posts[j].source == s ::
            p.posts[j].ready.Some? ==> p.posts[j].ready.value <= p.clock)
  }

  lemma BlockersByWorker(p: State, i: nat, a: WorkStep)
    requires WorkEnabled(p, i, a) && BlockersDue(p)
    ensures BlockersDue(DoWork(p, i, a))
  {
  }

  lemma BlockersByPost(p: State, a: PostStep)
    requires PostEnabled(p, a) && Quiet(ByPost(a)) && BlockersDue(p)
    ensures BlockersDue(DoPost(p, a))
  {
  }

  lemma BlockersStep(p: State, a: Step)
    requires Quiet(a) && Enabled(p, a) && BlockersDue(p)
    ensures BlockersDue(Do(p, a))
  {
    match a
    case ByPost(b) => BlockersByPost(p, b);
    case ByWorker(i, b) => BlockersByWorker(p, i, b);
    case _ =>
  }

  lemma {:induction false} BlockersStayDue(ps: seq<State>, n: nat)
    requires QuietPath(ps) && BlockersDue(ps[0]) && n < |ps|
    ensures BlockersDue(ps[n])
  {
    hide BlockersDue, Do, Enabled;
    if n > 0 {
      BlockersStayDue(ps, n - 1);
      assert QuietNext(ps[n - 1], ps[n - 1 + 1]);
      var a :| Quiet(a) && Enabled(ps[n - 1], a) && ps[n] == Do(ps[n - 1], a);
      BlockersStep(ps[n - 1], a);
    }
  }

  /** The time of every delayed task has come. */
  ghost predicate AllDue(p: State) {
    && (forall s, t | 0 <= s < |p.cells| && t in p.cells[s].q.delayed :: S.ReadyAt(t) <= p.clock)
    && (forall e | e in p.timer.heap :: e.readyTime <= p.clock)
    && (forall j | 0 <= j < |p.posts| ::
          && (p.posts[j].Adding? ==> p.posts[j].readyTime <= p.clock)
          && (p.posts[j].Accepted? && p.posts[j].ready.Some? ==> p.posts[j].ready.value <= p.clock))
    && (p.timer.phase.Dozing? ==> p.timer.phase.until <= p.clock)
  }

  lemma DueByWorker(p: State, i: nat, a: WorkStep)
    requires WorkEnabled(p, i, a) && AllDue(p)
    ensures AllDue(DoWork(p, i, a))
  {
  }

  lemma DueByPost(p: State, a: PostStep)
    requires PostEnabled(p, a) && AllDue(p) && Quiet(ByPost(a))
    ensures AllDue(DoPost(p, a))
  {
  }

  lemma DueByTimer(p: State, a: TimerStep)
    requires TimerEnabled(p, a) && AllDue(p) && !a.WakeSpuriously?
    ensures AllDue(DoTimer(p, a))
  {
  }

  lemma DueByCloser(p: State, c: nat, a: CloseStep)
    requires CloseEnabled(p, c, a) && AllDue(p)
    ensures AllDue(DoClose(p, c, a))
  {
  }

  lemma DueStep(p: State, a: Step)
    requires Quiet(a) && Enabled(p, a) && AllDue(p)
    ensures AllDue(Do(p, a))
  {
    match a
    case ByPost(b) => DueByPost(p, b);
    case ByWorker(i, b) => DueByWorker(p, i, b);
    case ByTimer(b) => DueByTimer(p, b);
    case ByCloser(c, b) => DueByCloser(p, c, b);
  }

  lemma {:induction false} AllStayDue(ps: seq<State>, n: nat)
    requires QuietPath(ps) && AllDue(ps[0]) && n < |ps|
    ensures AllDue(ps[n])
  {
    hide AllDue, Do, Enabled;
    if n > 0 {
      AllStayDue(ps, n - 1);
      assert QuietNext(ps[n - 1], ps[n - 1 + 1]);
      var a :| Quiet(a) && Enabled(ps[n - 1], a) && ps[n] == Do(ps[n - 1], a);
      DueStep(ps[n - 1], a);
    }
  }

  // ---- Main results ----

  /** From every reachable state, whatever is delayed, the quiet steps come to an end. */
  lemma PoolComesToRest(f: nat -> State)
    requires Reachable(f(0))
    ensures exists n: nat :: !QuietNext(f(n), f(n + 1))
  {
    ReachableIsSafe(f(0));
    NoInfiniteQuietRun(f);
  }

  /**
   * Shutdown cannot deadlock. While a call of shutdown has not returned, some worker, poster, timer
   * or shutdown step is enabled; or the call waits for an accepted BlockShutdown task whose time is
   * still to come, and the timer thread will wake up by then. Other delayed tasks hold up nothing.
   */
  lemma ShutdownCannotDeadlock(p: State, c: nat)
    requires Reachable(p) && c < |p.closers| && !p.closers[c].Closed?
    ensures || (exists a :: Quiet(a) && Enabled(p, a))
            || (&& p.closers[c].Waiting?
                && exists s, t :: 0 <= s < |p.cells| && Owes(p.cells[s]) > 0
                                  && t in p.cells[s].q.delayed && ToCome(p, t))
  {
    ReachableIsSafe(p);
    if Stuck(p) {
      StuckIsAtRest(p);
      assert Agrees(p, p.closers[c]);
      if p.tracker.blocking == 0 {
        RestIsClosed(p);
      } else {
        var s := SumWitness(Owes, p.cells);
        RestOwesOnlyDelayed(p, s);
      }
    }
  }

  /**
   * Shutdown returns. When the BlockShutdown tasks of the pool are due, whatever else is delayed, a
   * quiet run after a call of shutdown ends with every call returned, every thread gone, and no
   * accepted BlockShutdown task unfinished.
   */
  lemma ShutdownReturns(ps: seq<State>)
    requires QuietPath(ps) && Reachable(ps[0]) && BlockersDue(ps[0])
    requires Stuck(ps[|ps| - 1]) && ps[|ps| - 1].closers != []
    ensures var p := ps[|ps| - 1];
            && (forall c | 0 <= c < |p.closers| :: p.closers[c].Closed?)
            && (forall i | 0 <= i < |p.workers| :: p.workers[i].Exited?)
            && p.timer.phase.Stopped?
            && (forall s | 0 <= s < |p.cells| :: Owes(p.cells[s]) == 0)
  {
    var p := ps[|ps| - 1];
    ReachableIsSafe(ps[0]);
    QuietPathIsSafe(ps, |ps| - 1);
    BlockersStayDue(ps, |ps| - 1);
    RestAfterBlockers(p);
    RestIsClosed(p);
    forall s | 0 <= s < |p.cells| ensures Owes(p.cells[s]) == 0 {
      SumIncludes(Owes, p.cells, s);
    }
  }

  lemma RestAfterBlockers(p: State)
    requires Safe(p) && Stuck(p) && BlockersDue(p)
    ensures AtRest(p) && p.tracker.blocking == 0
  {
    StuckIsAtRest(p);
    if p.tracker.blocking > 0 {
      var s := SumWitness(Owes, p.cells);
      RestOwesOnlyDelayed(p, s);
    }
  }

  /**
   * Quiescence. When all delayed tasks are due, a quiet run without a call of shutdown ends with every
   * posted task finished and both heaps and all sequences empty.
   */
  lemma QuietRunDrains(ps: seq<State>)
    requires QuietPath(ps) && Reachable(ps[0]) && AllDue(ps[0])
    requires Stuck(ps[|ps| - 1]) && ps[|ps| - 1].closers == []
    ensures var p := ps[|ps| - 1];
            && p.group.queue.heap == {} && p.timer.heap == {}
            && forall s | 0 <= s < |p.cells| ::
                 !Busy(p.cells[s]) && multiset(p.cells[s].finished) == multiset(p.cells[s].q.posted)
  {
    hide Safe, AllDue, Stuck, Busy;
    ReachableIsSafe(ps[0]);
    QuietPathIsSafe(ps, |ps| - 1);
    AllStayDue(ps, |ps| - 1);
    RestIsDrained(ps[|ps| - 1]);
  }

  lemma RestIsDrained(p: State)
    requires Safe(p) && Stuck(p) && AllDue(p) && p.closers == []
    ensures p.group.queue.heap == {} && p.timer.heap == {}
    ensures forall s | 0 <= s < |p.cells| ::
              !Busy(p.cells[s]) && multiset(p.cells[s].finished) == multiset(p.cells[s].q.posted)
  {
    hide S.Valid;
    StuckIsAtRest(p);
    NoRelief(p);
    assert p.workers[0].Asleep?;
    forall s | 0 <= s < |p.cells|
      ensures !Busy(p.cells[s]) && multiset(p.cells[s].finished) == multiset(p.cells[s].q.posted)
    {
      RestOnlyWaits(p, s);
      EmptyIsFinished(p, s);
    }
  }

  /** Such runs exist: from every reachable state the threads of the pool come to rest. */
  lemma RestIsReached(p: State) returns (ps: seq<State>)
    requires Reachable(p)
    ensures QuietPath(ps) && ps[0] == p && Stuck(ps[|ps| - 1])
  {
    ReachableIsSafe(p);
    ps := PathToRest(p);
  }

  lemma {:induction false} PathToRest(p: State) returns (ps: seq<State>)
    requires Safe(p)
    ensures QuietPath(ps) && ps[0] == p && Stuck(ps[|ps| - 1])
    decreases Work(p), Restless(p)
  {
    hide Safe, Work, Restless, Do, Enabled;
    if Stuck(p) {
      ps := [p];
    } else {
      var a :| Quiet(a) && Enabled(p, a);
      var r := Do(p, a);
      assert QuietNext(p, r);
      QuietNextDecreases(p, r);
      var rest := PathToRest(r);
      ps := [p] + rest;
      forall n | 0 <= n < |ps| - 1 ensures QuietNext(ps[n], ps[n + 1]) {
        assert n > 0 ==> QuietNext(rest[n - 1], rest[n - 1 + 1]);
      }
    }
  }

  // ---- Shutdown can always return ----

  lemma {:induction false} HeapBound(h: set<S.Task>) returns (b: nat)
    ensures forall t | t in h :: S.ReadyAt(t) <= b
    decreases |h|
  {
    b := 0;
    if h != {} {
      var x :| x in h;
      b := HeapBound(h - {x});
      b := if b < S.ReadyAt(x) then S.ReadyAt(x) else b;
    }
  }

  lemma {:induction false} CellsBound(cells: seq<Cell>) returns (b: nat)
    ensures forall s, t | 0 <= s < |cells| && t in cells[s].q.delayed :: S.ReadyAt(t) <= b
  {
    b := 0;
    if cells != [] {
      var last := |cells| - 1;
      b := CellsBound(cells[..last]);
      var c := HeapBound(cells[last].q.delayed);
      b := if b < c then c else b;
      forall s, t | 0 <= s < |cells| && t in cells[s].q.delayed ensures S.ReadyAt(t) <= b {
        assert s < last ==> cells[s] == cells[..last][s];
      }
    }
  }

  /** The deadline of an accepted post is not later than `now`. */
  predicate AcceptedBy(x: Post, now: nat) {
    x.Accepted? && x.ready.Some? ==> x.ready.value <= now
  }

  lemma {:induction false} PostsReadyBound(posts: seq<Post>) returns (b: nat)
    ensures forall j | 0 <= j < |posts| :: AcceptedBy(posts[j], b)
  {
    b := 0;
    if posts != [] {
      var last := |posts| - 1;
      b := PostsReadyBound(posts[..last]);
      if posts[last].Accepted? && posts[last].ready.Some? && b < posts[last].ready.value {
        b := posts[last].ready.value;
      }
      forall j | 0 <= j < |posts| ensures AcceptedBy(posts[j], b) {
        assert j < last ==> posts[j] == posts[..last][j];
      }
    }
  }

  /** Some time has all BlockShutdown tasks due. */
  lemma DueAtSomeTime(p: State) returns (now: nat)
    ensures p.clock <= now && BlockersDue(p.(clock := now))
  {
    var b := CellsBound(p.cells);
    var c := PostsReadyBound(p.posts);
    now := p.clock + b + c;
    forall j | 0 <= j < |p.posts| ensures AcceptedBy(p.posts[j], now) {
      assert AcceptedBy(p.posts[j], c);
    }
  }

  /** A quiet run leads from its start to its end, and leaves the calls of shutdown in progress. */
  lemma {:induction false} QuietPathLeads(p: State, ps: seq<State>, n: nat)
    requires QuietPath(ps) && n < |ps| && Leads(p, ps[0])
    ensures Leads(p, ps[n]) && |ps[n].closers| == |ps[0].closers|
  {
    hide Leads, Do, Enabled;
    if n > 0 {
      QuietPathLeads(p, ps, n - 1);
      assert QuietNext(ps[n - 1], ps[n - 1 + 1]);
      var a :| Quiet(a) && Enabled(ps[n - 1], a) && ps[n] == Do(ps[n - 1], a);
      LeadsOn(p, ps[n - 1], a);
      CallsStay(ps[n - 1], a);
    }
  }

  lemma CallsStay(p: State, a: Step)
    requires Enabled(p, a) && Quiet(a)
    ensures |Do(p, a).closers| == |p.closers|
  {
    if !a.ByCloser? {
      ClosersElsewhere(p, a);
    }
  }

  /**
   * From every reachable state shutdown can return: once the clock has passed the deadlines of the
   * BlockShutdown tasks, every quiet run to its end does it.
   */
  lemma ShutdownCanReturn(p: State) returns (r: State)
    requires Reachable(p) && p.closers != []
    ensures Leads(p, r) && |r.closers| == |p.closers|
    ensures forall c | 0 <= c < |r.closers| :: r.closers[c].Closed?
    ensures forall i | 0 <= i < |r.workers| :: r.workers[i].Exited?
    ensures r.timer.phase.Stopped? && forall s | 0 <= s < |r.cells| :: Owes(r.cells[s]) == 0
  {
    hide Do, Enabled, BlockersDue, QuietPath, Stuck;
    var now := DueAtSomeTime(p);
    var q := Later(p, now);
    var ps := RestIsReached(q);
    QuietPathLeads(p, ps, |ps| - 1);
    ShutdownReturns(ps);
    r := ps[|ps| - 1];
  }

  /** Time passes. */
  lemma Later(p: State, now: nat) returns (q: State)
    requires Reachable(p) && p.clock <= now
    ensures Reachable(q) && Leads(p, q) && q == p.(clock := now)
  {
    LeadsHome(p);
    q := Go(p, p, Tick(now));
    ReachableLeads(p, q);
  }
}
