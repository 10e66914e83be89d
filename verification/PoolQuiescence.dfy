/**
 * Liveness of the pool: the measure. A quiet step is any step of the threads of the pool except a new
 * call from outside, a spurious wake-up, and the clock. Whatever is delayed, quiet steps run out;
 * `PoolRest` says where.
 */
module PoolQuiescence {
  import opened Basics
  import opened Traits
  import opened Pool
  import opened PoolExclusion
  import opened PoolCoverage
  import opened PoolWakeups
  import opened PoolShutdown
  import S = Sequences
  import Q = PriorityQueues
  import D = DelayedTasks

  /** Everything that the parts one to four keep. */
  ghost predicate Safe(p: State) {
    && p.workers != []
    && Inv(p) && NothingStranded(p) && WorkConserving(p) && TimerOnTime(p) && InvShutdown(p)
  }

  lemma SameWorkers(p: State, a: Step)
    requires Enabled(p, a)
    ensures |Do(p, a).workers| == |p.workers|
  {
    if a.ByWorker? {
      SameWorkersByWorker(p, a.i, a.work);
    }
  }

  lemma SameWorkersByWorker(p: State, i: nat, a: WorkStep)
    requires WorkEnabled(p, i, a)
    ensures |DoWork(p, i, a).workers| == |p.workers|
  {
  }

  lemma SafeStep(p: State, a: Step)
    requires Safe(p) && Enabled(p, a)
    ensures Safe(Do(p, a))
  {
    SameWorkers(p, a);
    InvStep(p, a);
    StrandedStep(p, a);
    ConservingStep(p, a);
    OnTimeStep(p, a);
    ShutdownStep(p, a);
  }

  predicate Quiet(a: Step) {
    match a
    case Tick(_) => false
    case ByPost(b) => b.PushGated? || b.QueueSource? || b.NotifyGroup? || b.AddToTimer? || b.NotifyTimer?
    case ByWorker(_, b) => !b.WakeSpuriously?
    case ByTimer(b) => !b.WakeSpuriously?
    case OpenShutdown => false
    case ByCloser(_, b) => !b.WakeSpuriously?
  }

  ghost predicate QuietNext(p: State, r: State) {
    exists a :: Quiet(a) && Enabled(p, a) && r == Do(p, a)
  }

  // ---- The measure ----

  /** A worker that looks at the sequence finds a task. */
  predicate Ready(c: Cell, now: nat) {
    S.HasReady(c.q, now)
  }

  function CellWeight(c: Cell): nat {
    10 * (|c.q.immediate| + |c.q.delayed|)
  }

  /** A worker that will look at a sequence again re-enqueues it only if something in it is ready. */
  function WorkerWeight(cells: seq<Cell>, now: nat, w: Worker): nat {
    match w
    case Awake => 0
    case Asleep => 0
    case Exited => 0
    case Notifying => 1
    case Claimed(_) => 3
    case Popped(_) => 4
    case PushingBack(_) => 7
    case Released(s) => if s < |cells| && Ready(cells[s], now) then 8 else 1
    case Releasing(s) => if s < |cells| && Ready(cells[s], now) then 9 else 2
    case Ran(_, _) => 10
    case Running(_, _) => 11
    case Holding(_, _) => 12
  }

  function WeightIn(cells: seq<Cell>, now: nat): Worker -> nat {
    (w: Worker) => WorkerWeight(cells, now, w)
  }

  function PostWeight(x: Post): nat {
    match x
    case Posted => 0
    case Notifying => 1
    case NotifyingTimer => 1
    case Pushed(_) => 7
    case Adding(_, _) => 10
    case Accepted(_, _, _) => 21
  }

  /** A doze whose time is over ends; any other goes on until the clock moves. */
  function TimerWeight(t: TimerPhase, now: nat): nat {
    match t
    case Dozing(until) => if until <= now then 1 else 0
    case Notifying => 1
    case Carrying(_) => 7
    case _ => 0
  }

  function CloserWeight(c: Closer): nat {
    match c
    case Checking => 10
    case Waiting => 10
    case StoppingGroup => 9
    case WakingGroup => 8
    case ReapingGroup => 7
    case JoiningGroup(_) => 6
    case StoppingTimer => 5
    case WakingTimer => 4
    case ReapingTimer => 3
    case JoiningTimer(_) => 2
    case Closed => 0
  }

  /** What is left to do. */
  function Work(p: State): nat {
    Sum(CellWeight, p.cells) + Sum(WeightIn(p.cells, p.clock), p.workers) + Sum(PostWeight, p.posts)
    + 5 * |p.group.queue.heap| + 8 * |p.timer.heap| + TimerWeight(p.timer.phase, p.clock) + Sum(CloserWeight, p.closers)
  }

  function AwakeWorker(w: Worker): nat { if w.Awake? then 1 else 0 }

  function CheckingCloser(c: Closer): nat { if c.Checking? then 1 else 0 }

  /** Threads that may find nothing to do and go to sleep. */
  function Restless(p: State): nat {
    Sum(AwakeWorker, p.workers) + Sum(CheckingCloser, p.closers) + (if p.timer.phase.Scanning? then 1 else 0)
  }

  ghost predicate Decreases(p: State, r: State) {
    Work(r) < Work(p) || (Work(r) == Work(p) && Restless(r) < Restless(p))
  }

  // ---- Workers ----

  /** The steps that write the cell of the worker's sequence. */
  predicate WritesCell(a: WorkStep) {
    a.Claim? || a.Take? || a.Start? || a.Settle? || a.Release?
  }

  /** What the worker carries, together with what is queued in its sequence, goes down. */
  lemma OwnWeight(p: State, i: nat, a: WorkStep)
    requires WorkEnabled(p, i, a) && WritesCell(a)
    ensures var r, s := DoWork(p, i, a), p.workers[i].source;
            && |r.cells| == |p.cells| && |r.workers| == |p.workers|
            && r.cells == p.cells[s := r.cells[s]] && r.workers == p.workers[i := r.workers[i]]
            && (Ready(r.cells[s], p.clock) ==> Ready(p.cells[s], p.clock))
            && CellWeight(r.cells[s]) + WorkerWeight(r.cells, p.clock, r.workers[i])
               < CellWeight(p.cells[s]) + WorkerWeight(r.cells, p.clock, p.workers[i])
  {
    if a.Take? {
      TakeWeight(p, i);
    }
  }

  lemma TakeWeight(p: State, i: nat)
    requires WorkEnabled(p, i, Take)
    ensures var r, s := DoWork(p, i, Take), p.workers[i].source;
            && (Ready(r.cells[s], p.clock) ==> Ready(p.cells[s], p.clock))
            && CellWeight(r.cells[s]) + WorkerWeight(r.cells, p.clock, r.workers[i])
               < CellWeight(p.cells[s]) + WorkerWeight(r.cells, p.clock, p.workers[i])
  {
    hide S.AfterTake, S.TakenTask;
    S.TakeTaskShrinks(p.cells[p.workers[i].source].q, p.clock);
  }

  lemma SameClosers(cs: seq<Closer>)
    ensures Sum(CloserWeight, WakeClosers(cs)) <= Sum(CloserWeight, cs)
  {
    SumMonotone(CloserWeight, WakeClosers(cs), CloserWeight, cs);
  }

  lemma WeightsGoDown(cells: seq<Cell>, now: nat, ws: seq<Worker>, i: nat, s: nat, c: Cell, w: Worker)
    requires i < |ws| && s < |cells|
    requires var after := cells[s := c];
             && (Ready(c, now) ==> Ready(cells[s], now))
             && CellWeight(c) + WorkerWeight(after, now, w) < CellWeight(cells[s]) + WorkerWeight(after, now, ws[i])
    ensures var after := cells[s := c];
            Sum(CellWeight, after) + Sum(WeightIn(after, now), ws[i := w])
            < Sum(CellWeight, cells) + Sum(WeightIn(cells, now), ws)
  {
    var after := cells[s := c];
    SumUpdate(CellWeight, cells, s, c);
    SumUpdate(WeightIn(after, now), ws, i, w);
    SumMonotone(WeightIn(after, now), ws, WeightIn(cells, now), ws);
  }

  lemma WritesOnlyCell(p: State, i: nat, a: WorkStep)
    requires WorkEnabled(p, i, a) && WritesCell(a)
    ensures var r := DoWork(p, i, a);
            && r.posts == p.posts && r.group == p.group && r.timer == p.timer && r.clock == p.clock
            && (r.closers == p.closers || r.closers == WakeClosers(p.closers))
  {
  }

  lemma WorkByCellWriter(p: State, i: nat, a: WorkStep)
    requires WorkEnabled(p, i, a) && WritesCell(a)
    ensures Work(DoWork(p, i, a)) < Work(p)
  {
    hide DoWork, WorkerWeight, CellWeight, Ready;
    var r, s := DoWork(p, i, a), p.workers[i].source;
    WritesOnlyCell(p, i, a);
    OwnWeight(p, i, a);
    WeightsGoDown(p.cells, p.clock, p.workers, i, s, r.cells[s], r.workers[i]);
    SameClosers(p.closers);
  }

  /** Waking a sleeper does not add to the work. */
  lemma WakeWeight(cells: seq<Cell>, now: nat, ws: seq<Worker>, w: nat)
    ensures Sum(WeightIn(cells, now), Wake(ws, w)) <= Sum(WeightIn(cells, now), ws)
  {
    SumMonotone(WeightIn(cells, now), Wake(ws, w), WeightIn(cells, now), ws);
  }

  lemma WorkByNotify(p: State, i: nat, w: nat)
    requires WorkEnabled(p, i, WorkStep.Notify(w))
    ensures Work(DoWork(p, i, WorkStep.Notify(w))) < Work(p)
  {
    SumUpdate(WeightIn(p.cells, p.clock), p.workers, i, Awake);
    WakeWeight(p.cells, p.clock, p.workers[i := Awake], w);
  }

  lemma WorkByPushBack(p: State, i: nat)
    requires WorkEnabled(p, i, PushBack)
    ensures Work(DoWork(p, i, PushBack)) < Work(p)
  {
    SumUpdate(WeightIn(p.cells, p.clock), p.workers, i, Worker.Notifying);
  }

  lemma WorkByRecheck(p: State, i: nat)
    requires WorkEnabled(p, i, Recheck)
    ensures Work(DoWork(p, i, Recheck)) < Work(p)
  {
    SumUpdate(WeightIn(p.cells, p.clock), p.workers, i, DoWork(p, i, Recheck).workers[i]);
  }

  lemma WorkByFetch(p: State, i: nat, e: Q.Entry)
    requires WorkEnabled(p, i, Fetch(e))
    ensures Decreases(p, DoWork(p, i, Fetch(e)))
  {
    var w := DoWork(p, i, Fetch(e)).workers[i];
    SumUpdate(WeightIn(p.cells, p.clock), p.workers, i, w);
    SumUpdate(AwakeWorker, p.workers, i, w);
  }

  lemma WorkByWorker(p: State, i: nat, a: WorkStep)
    requires WorkEnabled(p, i, a) && !a.WakeSpuriously?
    ensures Decreases(p, DoWork(p, i, a))
  {
    if WritesCell(a) {
      WorkByCellWriter(p, i, a);
    } else if a.Notify? {
      WorkByNotify(p, i, a.w);
    } else if a.Return? {
      SumUpdate(WeightIn(p.cells, p.clock), p.workers, i, Ran(p.workers[i].source, p.workers[i].task));
    } else if a.Fetch? {
      WorkByFetch(p, i, a.e);
    } else if a.Recheck? {
      WorkByRecheck(p, i);
    } else {
      WorkByPushBack(p, i);
    }
  }

  // ---- Posts in progress ----

  /** A worker that attends a sequence other than the one pushed to keeps its weight. */
  lemma WorkByPushGated(p: State, j: nat)
    requires PostEnabled(p, PushGated(j)) && WorkersBound(p.cells, p.workers) && PostsBound(p.cells, p.posts)
    ensures Work(DoPost(p, PushGated(j))) < Work(p)
  {
    hide WorkerWeight, Live;
    var r, s := DoPost(p, PushGated(j)), p.posts[j].source;
    SumUpdate(PostWeight, p.posts, j, r.posts[j]);
    SumUpdate(CellWeight, p.cells, s, r.cells[s]);
    UnattendedWeight(p.cells, p.clock, p.workers, s, r.cells[s]);
  }

  /** Nobody attends a sequence before its first post, so the post changes no worker's weight. */
  lemma UnattendedWeight(cells: seq<Cell>, now: nat, ws: seq<Worker>, s: nat, c: Cell)
    requires WorkersBound(cells, ws) && s < |cells| && cells[s].q.posted == []
    ensures Sum(WeightIn(cells[s := c], now), ws) <= Sum(WeightIn(cells, now), ws)
  {
    forall k | 0 <= k < |ws| ensures WorkerWeight(cells[s := c], now, ws[k]) <= WorkerWeight(cells, now, ws[k]) {
      assert Attends(ws[k]) ==> Live(cells, ws[k].source);
    }
    SumMonotone(WeightIn(cells[s := c], now), ws, WeightIn(cells, now), ws);
  }

  lemma WorkByNotifyGroup(p: State, j: nat, w: nat)
    requires PostEnabled(p, NotifyGroup(j, w))
    ensures Work(DoPost(p, NotifyGroup(j, w))) < Work(p)
  {
    SumUpdate(PostWeight, p.posts, j, Posted);
    WakeWeight(p.cells, p.clock, p.workers, w);
  }

  lemma WorkByQueueSource(p: State, j: nat)
    requires PostEnabled(p, QueueSource(j))
    ensures Work(DoPost(p, QueueSource(j))) < Work(p)
  {
    SumUpdate(PostWeight, p.posts, j, Post.Notifying);
  }

  lemma WorkByAddToTimer(p: State, j: nat)
    requires PostEnabled(p, AddToTimer(j))
    ensures Work(DoPost(p, AddToTimer(j))) < Work(p)
  {
    SumUpdate(PostWeight, p.posts, j, NotifyingTimer);
  }

  lemma WorkByNotifyTimer(p: State, j: nat)
    requires PostEnabled(p, NotifyTimer(j))
    ensures Work(DoPost(p, NotifyTimer(j))) < Work(p)
  {
    SumUpdate(PostWeight, p.posts, j, Posted);
  }

  lemma WorkByPost(p: State, a: PostStep)
    requires PostEnabled(p, a) && Quiet(ByPost(a)) && Bounds(p)
    ensures Work(DoPost(p, a)) < Work(p)
  {
    hide Work;
    match a
    case PushGated(j) => WorkByPushGated(p, j);
    case NotifyGroup(j, w) => WorkByNotifyGroup(p, j, w);
    case QueueSource(j) => WorkByQueueSource(p, j);
    case AddToTimer(j) => WorkByAddToTimer(p, j);
    case NotifyTimer(j) => WorkByNotifyTimer(p, j);
  }

  // ---- The timer thread and the calls of shutdown ----

  lemma WorkByTimer(p: State, a: TimerStep)
    requires TimerEnabled(p, a) && !a.WakeSpuriously?
    ensures Decreases(p, DoTimer(p, a))
  {
    if a.Notify? {
      WakeWeight(p.cells, p.clock, p.workers, a.w);
    }
  }

  lemma WorkByCheck(p: State, c: nat)
    requires CloseEnabled(p, c, Check)
    ensures Decreases(p, DoClose(p, c, Check))
  {
    var x := DoClose(p, c, Check).closers[c];
    SumUpdate(CloserWeight, p.closers, c, x);
    SumUpdate(CheckingCloser, p.closers, c, x);
  }

  lemma WorkByWakeGroup(p: State, c: nat)
    requires CloseEnabled(p, c, WakeGroup)
    ensures Work(DoClose(p, c, WakeGroup)) < Work(p)
  {
    SumUpdate(CloserWeight, p.closers, c, ReapingGroup);
    SumMonotone(WeightIn(p.cells, p.clock), WakeAll(p.workers), WeightIn(p.cells, p.clock), p.workers);
  }

  /** A call of shutdown that moves on, while the rest of the pool has no more work than before. */
  lemma AdvanceWeight(p: State, r: State, c: nat)
    requires c < |p.closers| && |r.closers| == |p.closers| && r.closers == p.closers[c := r.closers[c]]
    requires r.cells == p.cells && r.workers == p.workers && r.posts == p.posts
    requires r.group.queue == p.group.queue && r.timer.heap == p.timer.heap
    requires r.clock == p.clock && TimerWeight(r.timer.phase, r.clock) <= TimerWeight(p.timer.phase, p.clock)
    requires CloserWeight(r.closers[c]) < CloserWeight(p.closers[c])
    ensures Work(r) < Work(p)
  {
    SumUpdate(CloserWeight, p.closers, c, r.closers[c]);
  }

  lemma WorkByAdvance(p: State, c: nat, a: CloseStep)
    requires CloseEnabled(p, c, a) && !a.WakeSpuriously? && !a.Check? && !a.WakeGroup?
    ensures Work(DoClose(p, c, a)) < Work(p)
  {
    hide Work;
    AdvanceWeight(p, DoClose(p, c, a), c);
  }

  lemma WorkByCloser(p: State, c: nat, a: CloseStep)
    requires CloseEnabled(p, c, a) && !a.WakeSpuriously?
    ensures Decreases(p, DoClose(p, c, a))
  {
    hide Work, DoClose;
    if a.Check? {
      WorkByCheck(p, c);
    } else if a.WakeGroup? {
      WorkByWakeGroup(p, c);
    } else {
      WorkByAdvance(p, c, a);
    }
  }

  /** Every quiet step uses up work, or puts a restless thread to sleep. */
  lemma QuietDecreases(p: State, a: Step)
    requires Safe(p) && Quiet(a) && Enabled(p, a)
    ensures Decreases(p, Do(p, a))
  {
    match a
    case ByPost(b) =>
      WorkByPost(p, b);
    case ByWorker(i, b) =>
      WorkByWorker(p, i, b);
    case ByTimer(b) => WorkByTimer(p, b);
    case ByCloser(c, b) =>
      WorkByCloser(p, c, b);
  }

  lemma QuietNextDecreases(p: State, r: State)
    requires Safe(p) && QuietNext(p, r)
    ensures Safe(r) && Decreases(p, r)
  {
    var a :| Quiet(a) && Enabled(p, a) && r == Do(p, a);
    SafeStep(p, a);
    QuietDecreases(p, a);
  }

  lemma {:induction false} QuietRunEnds(f: nat -> State, from: nat) returns (n: nat)
    requires Safe(f(from))
    ensures n >= from && !QuietNext(f(n), f(n + 1))
    decreases Work(f(from)), Restless(f(from))
  {
    hide Safe, QuietNext, Work, Restless;
    if QuietNext(f(from), f(from + 1)) {
      QuietNextDecreases(f(from), f(from + 1));
      n := QuietRunEnds(f, from + 1);
    } else {
      n := from;
    }
  }

  // ---- Main results ----

  /**
   * Quiescence. From any safe state, whatever is delayed, no infinite sequence of states is made of
   * quiet steps only.
   */
  lemma NoInfiniteQuietRun(f: nat -> State)
    requires Safe(f(0))
    ensures exists n: nat :: !QuietNext(f(n), f(n + 1))
  {
    var n := QuietRunEnds(f, 0);
  }
}
