/**
 * The thread pool as one concurrent step machine.
 *
 * Every step is one critical section, one atomic operation, or one notification. Threads are the
 * workers, the timer thread, the calls in progress that post a task, and the calls in progress of
 * `ThreadPool::shutdown`. A condition variable is the set of threads in its waiting phase; a
 * waiting thread may also wake up for no reason. The clock is a natural number that never falls.
 */
module Pool {
  import opened Basics
  import opened Traits
  import S = Sequences
  import Q = PriorityQueues
  import D = DelayedTasks
  import T = TaskTrackers
  import G = ThreadGroups

  /**
   * A sequence in the pool. `gated` marks the one-task sequences of `ThreadPool::post_task` and
   * `post_delayed_task`, whose callback carries the shutdown wrapper. History: tasks whose
   * callback is over, in order, and the numbers of those whose callback the wrapper dropped.
   */
  datatype Cell = Cell(q: S.State, traits: TaskTraits, gated: bool, finished: seq<S.Task>, dropped: set<nat>)

  /** `source` is an index into the cells. */
  datatype Worker =
    | Awake                             // about to lock the group in get_work
    | Asleep                            // in the group's condition variable
    | Popped(source: nat)               // about to call will_run_task
    | Claimed(source: nat)              // about to call take_task
    | Holding(source: nat, task: S.Task)  // about to call the callback
    | Running(source: nat, task: S.Task)  // inside the callback
    | Ran(source: nat, task: S.Task)      // callback over, about to call after_run_task
    | Releasing(source: nat)             // about to clear has_worker
    | Released(source: nat)              // flag cleared, about to lock and look again
    | PushingBack(source: nat)          // about to re-enqueue
    | Notifying                         // re-enqueued, about to notify the group
    | Exited

  datatype Post =
    | Accepted(source: nat, ready: Option<nat>, callback: nat)  // past will_post_task
    | Pushed(source: nat)                 // task in the sequence, group not told yet
    | Notifying                           // entry queued, about to notify the group
    | Adding(source: nat, readyTime: nat) // delayed task in the sequence, timer not told yet
    | NotifyingTimer                      // entry in the timer heap, about to notify the timer
    | Posted

  datatype TimerPhase =
    | Scanning            // about to lock the timer heap
    | Idle                // waiting with no time limit
    | Dozing(until: nat)  // waiting until then
    | Carrying(source: nat)
    | Notifying
    | Stopped

  datatype Timer = Timer(heap: set<D.DelayedEntry>, nextId: nat, shutdown: bool, phase: TimerPhase)

  datatype Group = Group(queue: Q.Queue, shutdown: bool, handles: bool)

  /** One call of `ThreadPool::shutdown`. */
  datatype Closer =
    | Checking             // about to lock the tracker and look at the counter
    | Waiting              // in the tracker's condition variable
    | StoppingGroup        // about to set the group's shutdown flag
    | WakingGroup          // flag set, about to notify all
    | ReapingGroup         // about to take the join handles
    | JoiningGroup(joins: bool)
    | StoppingTimer
    | WakingTimer
    | ReapingTimer
    | JoiningTimer(joins: bool)
    | Closed

  datatype State = State(
    clock: nat, cells: seq<Cell>, group: Group, workers: seq<Worker>, posts: seq<Post>,
    timer: Timer, timerHandle: bool, tracker: T.Tracker, closers: seq<Closer>)

  ghost predicate Init(p: State) {
    && p.cells == [] && p.posts == [] && p.closers == []
    && p.group == Group(Q.EMPTY, false, true)
    && |p.workers| >= 1 && (forall i | 0 <= i < |p.workers| :: p.workers[i] == Awake)
    && p.timer == Timer({}, 0, false, Scanning) && p.timerHandle
    && p.tracker == T.Tracker(false, 0)
  }

  // ---- Building blocks ----

  function SetWorker(p: State, i: nat, w: Worker): State
    requires i < |p.workers|
  {
    p.(workers := p.workers[i := w])
  }

  function SetPost(p: State, j: nat, x: Post): State
    requires j < |p.posts|
  {
    p.(posts := p.posts[j := x])
  }

  function SetCloser(p: State, c: nat, x: Closer): State
    requires c < |p.closers|
  {
    p.(closers := p.closers[c := x])
  }

  function SetCell(p: State, s: nat, q: S.State): State
    requires s < |p.cells|
  {
    p.(cells := p.cells[s := p.cells[s].(q := q)])
  }

  /** The critical section of `push_task_source`. */
  function Enqueue(p: State, s: nat): State
    requires s < |p.cells|
  {
    p.(group := p.group.(queue := Q.WithEntry(p.group.queue, p.cells[s].traits.priority, p.clock, s)))
  }

  ghost predicate AnyAsleep(ws: seq<Worker>) {
    exists i :: 0 <= i < |ws| && ws[i].Asleep?
  }

  /** `notify_one` picks some sleeping worker, if there is one. */
  ghost predicate Picks(ws: seq<Worker>, w: nat) {
    AnyAsleep(ws) ==> w < |ws| && ws[w].Asleep?
  }

  function Wake(ws: seq<Worker>, w: nat): seq<Worker> {
    if w < |ws| && ws[w].Asleep? then ws[w := Awake] else ws
  }

  function WakeAll(ws: seq<Worker>): (r: seq<Worker>)
  {
    seq(|ws|, i requires 0 <= i < |ws| => if ws[i].Asleep? then Awake else ws[i])
  }

  function WakeClosers(cs: seq<Closer>): seq<Closer> {
    seq(|cs|, i requires 0 <= i < |cs| => if cs[i].Waiting? then Checking else cs[i])
  }

  /** A notification of the timer's condition variable, whose only waiter is the timer thread. */
  function Rouse(t: TimerPhase): TimerPhase {
    if t.Idle? || t.Dozing? then Scanning else t
  }

  // ---- Posting ----

  datatype PostStep =
    | NewRunner(traits: TaskTraits)
    | PostTask(s: nat, callback: nat)
    | PostDelayed(s: nat, callback: nat, readyTime: nat)
    | Gate(traits: TaskTraits, ready: Option<nat>, callback: nat)
    | Reject(traits: TaskTraits)
    | PushGated(j: nat)
    | QueueSource(j: nat)
    | NotifyGroup(j: nat, w: nat)
    | AddToTimer(j: nat)
    | NotifyTimer(j: nat)

  ghost predicate PostEnabled(p: State, a: PostStep) {
    match a
    case NewRunner(_) => true
    case PostTask(s, _) => s < |p.cells| && !p.cells[s].gated
    case PostDelayed(s, _, _) => s < |p.cells| && !p.cells[s].gated
    case Gate(traits, _, _) => T.Admits(p.tracker, traits.shutdownBehavior)
    case Reject(traits) => !T.Admits(p.tracker, traits.shutdownBehavior)
    case PushGated(j) => j < |p.posts| && p.posts[j].Accepted? && p.posts[j].source < |p.cells|
    case QueueSource(j) => j < |p.posts| && p.posts[j].Pushed? && p.posts[j].source < |p.cells|
    case NotifyGroup(j, w) => j < |p.posts| && p.posts[j] == Post.Notifying && Picks(p.workers, w)
    case AddToTimer(j) => j < |p.posts| && p.posts[j].Adding?
    case NotifyTimer(j) => j < |p.posts| && p.posts[j].NotifyingTimer?
  }

  ghost function DoPost(p: State, a: PostStep): State
    requires PostEnabled(p, a)
  {
    match a
    case NewRunner(traits) =>
      p.(cells := p.cells + [Cell(S.EMPTY, traits, false, [], {})])
    case PostTask(s, callback) =>
      SetCell(p, s, S.WithTask(p.cells[s].q, callback, p.clock)).(posts := p.posts + [Pushed(s)])
    case PostDelayed(s, callback, readyTime) =>
      SetCell(p, s, S.WithDelayed(p.cells[s].q, callback, readyTime)).(posts := p.posts + [Adding(s, readyTime)])
    case Gate(traits, ready, callback) =>
      p.(cells := p.cells + [Cell(S.EMPTY, traits, true, [], {})],
         posts := p.posts + [Accepted(|p.cells|, ready, callback)],
         tracker := T.Admitted(p.tracker, traits.shutdownBehavior))
    case Reject(_) => p
    case PushGated(j) =>
      var Accepted(s, ready, callback) := p.posts[j];
      (match ready
       case None => SetPost(SetCell(p, s, S.WithTask(p.cells[s].q, callback, p.clock)), j, Pushed(s))
       case Some(r) => SetPost(SetCell(p, s, S.WithDelayed(p.cells[s].q, callback, r)), j, Adding(s, r)))
    case QueueSource(j) =>
      SetPost(Enqueue(p, p.posts[j].source), j, Post.Notifying)
    case NotifyGroup(j, w) =>
      SetPost(p, j, Posted).(workers := Wake(p.workers, w))
    case AddToTimer(j) =>
      var e := D.DelayedEntry(p.posts[j].readyTime, p.timer.nextId, p.posts[j].source);
      SetPost(p, j, NotifyingTimer).(timer := p.timer.(heap := p.timer.heap + {e}, nextId := p.timer.nextId + 1))
    case NotifyTimer(j) =>
      SetPost(p, j, Posted).(timer := p.timer.(phase := Rouse(p.timer.phase)))
  }

  // ---- Workers ----

  datatype WorkStep =
    | Fetch(e: Q.Entry)   // one turn of the loop in get_work; `e` is what the heap pops, if it does
    | WakeSpuriously
    | Claim
    | Take
    | Start
    | Return
    | Settle
    | Release
    | Recheck
    | PushBack
    | Notify(w: nat)

  ghost predicate WorkEnabled(p: State, i: nat, a: WorkStep) {
    && i < |p.workers|
    && var w := p.workers[i];
       match a
       case Fetch(e) => w.Awake? && (!p.group.shutdown && p.group.queue.heap != {} ==> Q.IsTop(p.group.queue.heap, e))
       case WakeSpuriously => w.Asleep?
       case Claim => w.Popped? && w.source < |p.cells|
       case Take => w.Claimed? && w.source < |p.cells|
       case Start => w.Holding? && w.source < |p.cells|
       case Return => w.Running?
       case Settle => w.Ran? && w.source < |p.cells|
       case Release => w.Releasing? && w.source < |p.cells|
       case Recheck => w.Released? && w.source < |p.cells|
       case PushBack => w.PushingBack? && w.source < |p.cells|
       case Notify(x) => w == Worker.Notifying && Picks(p.workers, x)
  }

  /** The shutdown wrapper drops the callback of a pool task. */
  predicate Drops(p: State, c: Cell) {
    c.gated && p.tracker.shutdownStarted && c.traits.shutdownBehavior == SkipOnShutdown
  }

  ghost function DoWork(p: State, i: nat, a: WorkStep): State
    requires WorkEnabled(p, i, a)
  {
    var w := p.workers[i];
    match a
    case Fetch(e) =>
      (match G.NextTurn(p.group.queue.heap, p.group.shutdown, e)
       case Stop => SetWorker(p, i, Exited)
       case Wait => SetWorker(p, i, Asleep)
       case Work(x) => SetWorker(p, i, Popped(x.source)).(group := p.group.(queue := Q.AfterPop(p.group.queue, x))))
    case WakeSpuriously => SetWorker(p, i, Awake)
    case Claim =>
      if p.cells[w.source].q.hasWorker then SetWorker(p, i, Awake)
      else SetWorker(SetCell(p, w.source, p.cells[w.source].q.(hasWorker := true)), i, Claimed(w.source))
    case Take =>
      var q := p.cells[w.source].q;
      SetWorker(SetCell(p, w.source, S.AfterTake(q, p.clock)), i,
        match S.TakenTask(q, p.clock)
        case None => Releasing(w.source)
        case Some(t) => Holding(w.source, t))
    case Start =>
      var c := p.cells[w.source];
      if Drops(p, c) then
        SetWorker(p, i, Releasing(w.source)).(
          cells := p.cells[w.source :=
            c.(finished := c.finished + [w.task], dropped := c.dropped + {w.task.sequenceNum})])
      else SetWorker(p, i, Running(w.source, w.task))
    case Return => SetWorker(p, i, Ran(w.source, w.task))
    case Settle =>
      var c := p.cells[w.source];
      var q := SetWorker(p, i, Releasing(w.source)).(
        cells := p.cells[w.source := c.(finished := c.finished + [w.task])]);
      if c.gated then
        q.(tracker := T.AfterRun(p.tracker, c.traits.shutdownBehavior),
           closers :=
             if T.NotifiesShutdown(p.tracker, c.traits.shutdownBehavior) then WakeClosers(p.closers) else p.closers)
      else q
    case Release =>
      SetWorker(SetCell(p, w.source, p.cells[w.source].q.(hasWorker := false)), i, Released(w.source))
    case Recheck =>
      SetWorker(p, i, if S.HasReady(p.cells[w.source].q, p.clock) then PushingBack(w.source) else Awake)
    case PushBack => SetWorker(Enqueue(p, w.source), i, Worker.Notifying)
    case Notify(x) => p.(workers := Wake(p.workers[i := Awake], x))
  }

  // ---- The timer thread ----

  datatype TimerStep =
    | Scan(e: D.DelayedEntry)  // one turn of timer_loop; `e` is the top of the heap, if there is one
    | TimeOut
    | WakeSpuriously
    | HandOver
    | Notify(w: nat)

  ghost predicate TimerEnabled(p: State, a: TimerStep) {
    match a
    case Scan(e) =>
      p.timer.phase.Scanning? && (!p.timer.shutdown && p.timer.heap != {} ==> D.IsNext(p.timer.heap, e))
    case TimeOut => p.timer.phase.Dozing? && p.timer.phase.until <= p.clock
    case WakeSpuriously => p.timer.phase.Idle? || p.timer.phase.Dozing?
    case HandOver => p.timer.phase.Carrying? && p.timer.phase.source < |p.cells|
    case Notify(w) => p.timer.phase == TimerPhase.Notifying && Picks(p.workers, w)
  }

  ghost function DoTimer(p: State, a: TimerStep): State
    requires TimerEnabled(p, a)
  {
    match a
    case Scan(e) =>
      p.(timer :=
        match D.NextTurn(p.timer.heap, p.timer.shutdown, p.clock, e)
        case Stop => p.timer.(phase := Stopped)
        case WaitForNotice => p.timer.(phase := Idle)
        case WaitUntil(t) => p.timer.(phase := Dozing(t))
        case Fire(x) => p.timer.(heap := p.timer.heap - {x}, phase := Carrying(x.source)))
    case TimeOut => p.(timer := p.timer.(phase := Scanning))
    case WakeSpuriously => p.(timer := p.timer.(phase := Scanning))
    case HandOver => Enqueue(p, p.timer.phase.source).(timer := p.timer.(phase := TimerPhase.Notifying))
    case Notify(w) => p.(timer := p.timer.(phase := Scanning), workers := Wake(p.workers, w))
  }

  // ---- Shutdown ----

  datatype CloseStep =
    | Check
    | WakeSpuriously
    | StopGroup
    | WakeGroup
    | ReapGroup
    | JoinGroup
    | StopTimer
    | WakeTimer
    | ReapTimer
    | JoinTimer

  ghost predicate CloseEnabled(p: State, c: nat, a: CloseStep) {
    && c < |p.closers|
    && var x := p.closers[c];
       match a
       case Check => x.Checking?
       case WakeSpuriously => x.Waiting?
       case StopGroup => x.StoppingGroup?
       case WakeGroup => x.WakingGroup?
       case ReapGroup => x.ReapingGroup?
       case JoinGroup => x.JoiningGroup? && (x.joins ==> forall i | 0 <= i < |p.workers| :: p.workers[i].Exited?)
       case StopTimer => x.StoppingTimer?
       case WakeTimer => x.WakingTimer?
       case ReapTimer => x.ReapingTimer?
       case JoinTimer => x.JoiningTimer? && (x.joins ==> p.timer.phase.Stopped?)
  }

  ghost function DoClose(p: State, c: nat, a: CloseStep): State
    requires CloseEnabled(p, c, a)
  {
    match a
    case Check => SetCloser(p, c, if p.tracker.blocking > 0 then Waiting else StoppingGroup)
    case WakeSpuriously => SetCloser(p, c, Checking)
    case StopGroup => SetCloser(p, c, WakingGroup).(group := p.group.(shutdown := true))
    case WakeGroup => SetCloser(p, c, ReapingGroup).(workers := WakeAll(p.workers))
    case ReapGroup => SetCloser(p, c, JoiningGroup(p.group.handles)).(group := p.group.(handles := false))
    case JoinGroup => SetCloser(p, c, StoppingTimer)
    case StopTimer => SetCloser(p, c, WakingTimer).(timer := p.timer.(shutdown := true))
    case WakeTimer => SetCloser(p, c, ReapingTimer).(timer := p.timer.(phase := Rouse(p.timer.phase)))
    case ReapTimer => SetCloser(p, c, JoiningTimer(p.timerHandle)).(timerHandle := false)
    case JoinTimer => SetCloser(p, c, Closed)
  }

  // ---- Steps and runs ----

  datatype Step =
    | Tick(now: nat)
    | ByPost(post: PostStep)
    | ByWorker(i: nat, work: WorkStep)
    | ByTimer(turn: TimerStep)
    | OpenShutdown   // a thread calls ThreadPool::shutdown and runs its first critical section
    | ByCloser(c: nat, close: CloseStep)

  ghost predicate Enabled(p: State, a: Step) {
    match a
    case Tick(now) => p.clock <= now
    case ByPost(b) => PostEnabled(p, b)
    case ByWorker(i, b) => WorkEnabled(p, i, b)
    case ByTimer(b) => TimerEnabled(p, b)
    case OpenShutdown => true
    case ByCloser(c, b) => CloseEnabled(p, c, b)
  }

  ghost function Do(p: State, a: Step): State
    requires Enabled(p, a)
  {
    match a
    case Tick(now) => p.(clock := now)
    case ByPost(b) => DoPost(p, b)
    case ByWorker(i, b) => DoWork(p, i, b)
    case ByTimer(b) => DoTimer(p, b)
    case OpenShutdown =>
      p.(tracker := p.tracker.(shutdownStarted := true),
         closers := p.closers + [if p.tracker.blocking == 0 then StoppingGroup else Checking])
    case ByCloser(c, b) => DoClose(p, c, b)
  }

  ghost predicate Next(p: State, r: State) {
    exists a :: Enabled(p, a) && r == Do(p, a)
  }

  ghost predicate IsRun(ps: seq<State>) {
    && ps != [] && Init(ps[0])
    && forall n | 0 <= n < |ps| - 1 :: Next(ps[n], ps[n + 1])
  }

  ghost predicate Reachable(p: State) {
    exists ps :: IsRun(ps) && ps[|ps| - 1] == p
  }
}
