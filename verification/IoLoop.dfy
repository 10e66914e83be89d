/**
 * The event loop of the IO task runner (rust_io/io_task_runner.rs) as a step machine: the thread
 * of the loop, the calls in progress that post tasks or shut the runner down, the eventfd that
 * wakes the loop, and the clock in nanoseconds. The kernel may report events of watched
 * descriptors at any moment; they change nothing here.
 */
module IoLoop {
  import opened Basics

  const NANOS_PER_MILLI: nat := 1_000_000
  const I32_MAX: nat := 0x7fff_ffff
  const EVENTFD_MAX: nat := 0xffff_ffff_ffff_fffe

  datatype DelayedTask = DelayedTask(deadline: nat, callback: nat)

  predicate IsNext(heap: multiset<DelayedTask>, d: DelayedTask) {
    d in heap && forall x | x in heap :: d.deadline <= x.deadline
  }

  /** The timeout for epoll_wait in milliseconds, rounded down and capped; -1 means no timeout. */
  function TimeoutMs(heap: multiset<DelayedTask>, next: DelayedTask, now: nat): int {
    if |heap| == 0 then -1
    else if next.deadline <= now then 0
    else
      var ms := (next.deadline - now) / NANOS_PER_MILLI;
      if ms < I32_MAX then ms else I32_MAX
  }

  datatype Phase =
    | Draining                    // about to pop an immediate task
    | InTask(callback: nat)
    | Expiring                    // about to read the clock
    | Peeking(now: nat)           // clock read, about to lock the heap of delayed tasks
    | InDelayed(task: DelayedTask)
    | CheckingStop
    | Computing                   // about to compute the timeout
    | Entering(timeout: int, computedAt: nat)              // about to call epoll_wait
    | Polling(timeout: int, computedAt: nat, entered: nat) // in epoll_wait
    | Handling(wake: bool)        // going through the events; `wake`: that of the eventfd is among them
    | Left

  /** A call in progress of post_task or post_delayed_task, or of shutdown. */
  datatype Call =
    | Admitted(callback: nat, deadline: Option<nat>)  // past the test of the shutdown flag
    | Waking                                          // pushed, about to write the eventfd
    | Returned
    | Stopping                                        // shutdown flag set, about to write the eventfd
    | Joining                                         // about to take the thread handle and join
    | Joined

  datatype State = State(
    clock: nat, tasks: seq<nat>, delayed: multiset<DelayedTask>, eventfd: nat, shutdown: bool,
    handle: bool, phase: Phase, calls: seq<Call>)

  ghost predicate Init(s: State) {
    s == State(s.clock, [], multiset{}, 0, false, true, Draining, [])
  }

  datatype Step =
    | Tick(now: nat)
    | Admit(callback: nat, deadline: Option<nat>)
    | Push(j: nat)
    | Wake(j: nat)
    | OpenShutdown
    | Join(j: nat)
    | Drain
    | FinishTask
    | ReadClock
    | Expire(d: DelayedTask)
    | FinishDelayed
    | CheckStop
    | Compute(d: DelayedTask)
    | Enter
    | Deliver(wake: bool)  // epoll_wait returns with events, or after its timeout
    | Interrupt            // epoll_wait returns EINTR
    | Fail                 // epoll_wait returns another error
    | ReadWake
    | EndHandling

  ghost predicate Enabled(s: State, a: Step) {
    match a
    case Tick(now) => s.clock <= now
    case Admit(_, _) => !s.shutdown
    case Push(j) => j < |s.calls| && s.calls[j].Admitted?
    case Wake(j) => j < |s.calls| && (s.calls[j].Waking? || s.calls[j].Stopping?)
    case OpenShutdown => true
    case Join(j) => j < |s.calls| && s.calls[j].Joining? && (s.handle ==> s.phase.Left?)
    case Drain => s.phase.Draining?
    case FinishTask => s.phase.InTask?
    case ReadClock => s.phase.Expiring?
    case Expire(d) => s.phase.Peeking? && (|s.delayed| > 0 ==> IsNext(s.delayed, d))
    case FinishDelayed => s.phase.InDelayed?
    case CheckStop => s.phase.CheckingStop?
    case Compute(d) => s.phase.Computing? && (|s.delayed| > 0 ==> IsNext(s.delayed, d))
    case Enter => s.phase.Entering?
    case Deliver(wake) => s.phase.Polling? && (wake ==> s.eventfd > 0)
    case Interrupt => s.phase.Polling?
    case Fail => s.phase.Polling?
    case ReadWake => s.phase.Handling? && s.phase.wake
    case EndHandling => s.phase.Handling? && !s.phase.wake
  }

  ghost function Do(s: State, a: Step): State
    requires Enabled(s, a)
  {
    match a
    case Tick(now) => s.(clock := now)
    case Admit(callback, deadline) => s.(calls := s.calls + [Admitted(callback, deadline)])
    case Push(j) =>
      var Admitted(callback, deadline) := s.calls[j];
      var r := s.(calls := s.calls[j := Waking]);
      (match deadline
       case None => r.(tasks := s.tasks + [callback])
       case Some(time) => r.(delayed := s.delayed + multiset{DelayedTask(time, callback)}))
    case Wake(j) =>
      s.(eventfd := if s.eventfd < EVENTFD_MAX then s.eventfd + 1 else s.eventfd,
         calls := s.calls[j := if s.calls[j].Waking? then Returned else Joining])
    case OpenShutdown => s.(shutdown := true, calls := s.calls + [Stopping])
    case Join(j) => s.(handle := false, calls := s.calls[j := Joined])
    case Drain =>
      if s.tasks == [] then s.(phase := Expiring)
      else s.(tasks := s.tasks[1..], phase := InTask(s.tasks[0]))
    case FinishTask => s.(phase := Draining)
    case ReadClock => s.(phase := Peeking(s.clock))
    case Expire(d) =>
      if |s.delayed| > 0 && d.deadline <= s.phase.now
      then s.(delayed := s.delayed - multiset{d}, phase := InDelayed(d))
      else s.(phase := CheckingStop)
    case FinishDelayed => s.(phase := Expiring)
    case CheckStop => s.(phase := if s.shutdown then Left else Computing)
    case Compute(d) => s.(phase := Entering(TimeoutMs(s.delayed, d, s.clock), s.clock))
    case Enter => s.(phase := Polling(s.phase.timeout, s.phase.computedAt, s.clock))
    case Deliver(wake) => s.(phase := Handling(wake))
    case Interrupt => s.(phase := Draining)
    case Fail => s.(phase := Left)
    case ReadWake => s.(eventfd := 0, phase := Handling(false))
    case EndHandling => s.(phase := Draining)
  }

  // ---- No lost wake-up ----

  /** The loop is going to drain the immediate tasks before it waits again. */
  predicate WillDrain(x: Phase) {
    x.Draining? || x.InTask? || x.Handling?
  }

  /** The loop is going to test the shutdown flag before it waits again. */
  predicate WillCheckStop(x: Phase) {
    WillDrain(x) || x.Expiring? || x.Peeking? || x.InDelayed? || x.CheckingStop?
  }

  /** The eventfd is readable, or some call is about to make it so. */
  ghost predicate Told(s: State) {
    s.eventfd > 0 || Waking in s.calls || Stopping in s.calls
  }

  /** A timeout computed at `at` ends no later than the deadline, up to the time it takes to enter epoll_wait. */
  predicate InTime(timeout: int, at: nat, d: DelayedTask) {
    timeout == 0 || (timeout > 0 && at + timeout * NANOS_PER_MILLI <= d.deadline)
  }

  ghost predicate TasksSafe(s: State) {
    s.tasks != [] ==> Told(s) || WillDrain(s.phase) || s.phase.Left?
  }

  ghost predicate StopSafe(s: State) {
    s.shutdown ==> Told(s) || WillCheckStop(s.phase) || s.phase.Left?
  }

  ghost predicate DelaysSafe(s: State) {
    (s.phase.Entering? || s.phase.Polling?) && !Told(s) ==>
      forall d | d in s.delayed :: InTime(s.phase.timeout, s.phase.computedAt, d)
  }

  ghost predicate Ordered(s: State) {
    s.phase.Polling? ==> s.phase.computedAt <= s.phase.entered <= s.clock
  }

  /** What the phase and the calls say about the clock, the flag and the handle. */
  ghost predicate Sane(s: State) {
    && Ordered(s)
    && (s.phase.Entering? ==> s.phase.computedAt <= s.clock)
    && (s.phase.Peeking? ==> s.phase.now <= s.clock)
    && (s.phase.InDelayed? ==> s.phase.task.deadline <= s.clock)
    && (!s.handle ==> s.phase.Left?)
    && (forall j | 0 <= j < |s.calls| :: s.calls[j].Stopping? || s.calls[j].Joining? ==> s.shutdown)
    && (forall j | 0 <= j < |s.calls| :: s.calls[j].Joined? ==> s.phase.Left?)
  }

  ghost predicate Inv(s: State) {
    TasksSafe(s) && StopSafe(s) && DelaysSafe(s) && Sane(s)
  }

  lemma TimeoutInTime(heap: multiset<DelayedTask>, next: DelayedTask, now: nat, d: DelayedTask)
    requires IsNext(heap, next) && d in heap
    ensures InTime(TimeoutMs(heap, next, now), now, d)
  {
    assert |heap| > 0;
    var gap := next.deadline - now;
    assert gap >= 0 ==> gap / NANOS_PER_MILLI * NANOS_PER_MILLI <= gap;
  }

  /**
   * Nor does it end much earlier: short of the cap, it is the time to the earliest deadline, rounded
   * down to milliseconds.
   */
  lemma TimeoutNotEarly(heap: multiset<DelayedTask>, next: DelayedTask, now: nat)
    requires IsNext(heap, next)
    ensures var ms := TimeoutMs(heap, next, now);
            && 0 <= ms <= I32_MAX
            && (ms < I32_MAX ==> next.deadline < now + (ms + 1) * NANOS_PER_MILLI)
  {
    assert |heap| > 0;
    var gap := next.deadline - now;
    assert gap >= 0 ==> gap < (gap / NANOS_PER_MILLI + 1) * NANOS_PER_MILLI;
  }

  /** Only the loop's own read of the eventfd takes the notice away. */
  lemma StaysTold(s: State, a: Step)
    requires Enabled(s, a) && Told(s) && !a.ReadWake?
    ensures Told(Do(s, a))
  {
    var r := Do(s, a);
    forall x | x in s.calls && (x.Waking? || x.Stopping?) ensures x in r.calls || r.eventfd > 0 {
      var k :| 0 <= k < |s.calls| && s.calls[k] == x;
      assert r.eventfd > 0 || r.calls[k] == x;
    }
  }

  /** A call that adds work or sets the flag leaves a notice. */
  lemma CallsTell(s: State, a: Step)
    requires Enabled(s, a) && (a.Push? || a.OpenShutdown?)
    ensures Told(Do(s, a))
  {
    var r := Do(s, a);
    assert r.calls[if a.Push? then a.j else |s.calls|] in r.calls;
  }

  lemma NoticesStep(s: State, a: Step)
    requires TasksSafe(s) && StopSafe(s) && Enabled(s, a)
    ensures TasksSafe(Do(s, a)) && StopSafe(Do(s, a))
  {
    hide Told, TimeoutMs;
    if Told(s) && !a.ReadWake? {
      StaysTold(s, a);
    }
    if a.Push? || a.OpenShutdown? {
      CallsTell(s, a);
    }
  }

  lemma DelaysStep(s: State, a: Step)
    requires DelaysSafe(s) && Enabled(s, a)
    ensures DelaysSafe(Do(s, a))
  {
    hide Told, TimeoutMs, InTime;
    if Told(s) && !a.ReadWake? {
      StaysTold(s, a);
    }
    if a.Push? || a.OpenShutdown? {
      CallsTell(s, a);
    } else if a.Compute? {
      forall d | d in s.delayed ensures InTime(TimeoutMs(s.delayed, a.d, s.clock), s.clock, d) {
        TimeoutInTime(s.delayed, a.d, s.clock, d);
      }
    }
  }

  lemma SaneStep(s: State, a: Step)
    requires Sane(s) && Enabled(s, a)
    ensures Sane(Do(s, a))
  {
    hide TimeoutMs;
  }

  lemma InvStep(s: State, a: Step)
    requires Inv(s) && Enabled(s, a)
    ensures Inv(Do(s, a))
  {
    hide TasksSafe, StopSafe, DelaysSafe, Sane, Do, Enabled;
    NoticesStep(s, a);
    DelaysStep(s, a);
    SaneStep(s, a);
  }

  // ---- Runs ----

  ghost predicate Next(s: State, r: State) {
    exists a :: Enabled(s, a) && r == Do(s, a)
  }

  ghost predicate IsRun(ss: seq<State>) {
    && ss != [] && Init(ss[0])
    && forall n | 0 <= n < |ss| - 1 :: Next(ss[n], ss[n + 1])
  }

  ghost predicate Reachable(s: State) {
    exists ss :: IsRun(ss) && ss[|ss| - 1] == s
  }

  lemma {:induction false} RunKeeps(ss: seq<State>, n: nat)
    requires IsRun(ss) && n < |ss|
    ensures Inv(ss[n])
  {
    if n > 0 {
      RunKeeps(ss, n - 1);
      assert Next(ss[n - 1], ss[n - 1 + 1]);
      var a :| Enabled(ss[n - 1], a) && ss[n] == Do(ss[n - 1], a);
      InvStep(ss[n - 1], a);
    }
  }

  lemma ReachableKeeps(s: State)
    requires Reachable(s)
    ensures Inv(s)
  {
    var ss :| IsRun(ss) && ss[|ss| - 1] == s;
    RunKeeps(ss, |ss| - 1);
  }

  /** The loop is in epoll_wait, the eventfd is not readable, and the timeout is not over. */
  ghost predicate Blocked(s: State) {
    && s.phase.Polling? && s.eventfd == 0
    && (s.phase.timeout >= 0 ==> s.clock < s.phase.entered + s.phase.timeout * NANOS_PER_MILLI)
  }

  /**
   * The loop never sleeps on work. While it is blocked and no call is about to write the eventfd,
   * the task queue is empty, shutdown has not begun, and the wait ends no later than every
   * deadline, but for the time between computing the timeout and entering the wait.
   */
  lemma NeverSleepsOnWork(s: State)
    requires Reachable(s) && Blocked(s) && Waking !in s.calls && Stopping !in s.calls
    ensures s.tasks == [] && !s.shutdown
    ensures forall d | d in s.delayed ::
              s.phase.timeout > 0 &&
              s.phase.entered + s.phase.timeout * NANOS_PER_MILLI <= d.deadline + (s.phase.entered - s.phase.computedAt)
  {
    ReachableKeeps(s);
    assert !Told(s);
    forall d | d in s.delayed ensures InTime(s.phase.timeout, s.phase.computedAt, d) {
    }
  }

  /** A call of shutdown has returned only if the loop has left. */
  lemma JoinedMeansLeft(s: State, j: nat)
    requires Reachable(s) && j < |s.calls| && s.calls[j].Joined?
    ensures s.phase.Left?
  {
    ReachableKeeps(s);
  }

  // ---- Shutdown terminates ----

  /** The loop, calls in progress, and notices that are due; no new call, no clock, no spurious return. */
  ghost predicate Quiet(s: State, a: Step)
    requires Enabled(s, a)
  {
    match a
    case Tick(_) => false
    case Admit(_, _) => false
    case OpenShutdown => false
    case Interrupt => false
    case Fail => false
    case Deliver(wake) => wake || !Blocked(s)
    case _ => true
  }

  function CallWeight(c: Call): nat {
    match c
    case Admitted(_, _) => 6
    case Waking => 1
    case Returned => 0
    case Stopping => 2
    case Joining => 1
    case Joined => 0
  }

  /** How far the loop is from its next test of the flag. */
  function PhaseWeight(x: Phase): nat {
    match x
    case Left => 0
    case CheckingStop => 1
    case Peeking(_) => 2
    case Expiring => 3
    case InDelayed(_) => 4
    case Draining => 4
    case InTask(_) => 5
    case Handling(wake) => if wake then 6 else 5
    case Polling(_, _, _) => 7
    case Entering(_, _) => 8
    case Computing => 9
  }

  function Work(s: State): nat {
    3 * |s.tasks| + 3 * |s.delayed| + Sum(CallWeight, s.calls) + PhaseWeight(s.phase)
  }

  predicate ByCall(a: Step) {
    a.Push? || a.Wake? || a.Join?
  }

  lemma CallDecreases(s: State, a: Step)
    requires Enabled(s, a) && ByCall(a)
    ensures Work(Do(s, a)) < Work(s) && Do(s, a).shutdown == s.shutdown
  {
    SumUpdate(CallWeight, s.calls, a.j, Do(s, a).calls[a.j]);
  }

  lemma LoopDecreases(s: State, a: Step)
    requires Enabled(s, a) && Quiet(s, a) && s.shutdown && !ByCall(a)
    ensures Work(Do(s, a)) < Work(s) && Do(s, a).shutdown
  {
    hide CallWeight, Blocked, TimeoutMs;
    if a.Expire? {
      ExpireDecreases(s, a.d);
    }
  }

  lemma ExpireDecreases(s: State, d: DelayedTask)
    requires Enabled(s, Expire(d))
    ensures Work(Do(s, Expire(d))) < Work(s) && Do(s, Expire(d)).shutdown == s.shutdown
  {
    hide CallWeight;
  }

  lemma QuietDecreases(s: State, a: Step)
    requires Enabled(s, a) && Quiet(s, a) && s.shutdown
    ensures Work(Do(s, a)) < Work(s) && Do(s, a).shutdown
  {
    hide Work, Do;
    if ByCall(a) {
      CallDecreases(s, a);
    } else {
      LoopDecreases(s, a);
    }
  }

  ghost predicate QuietNext(s: State, r: State) {
    exists a :: Enabled(s, a) && Quiet(s, a) && r == Do(s, a)
  }

  lemma QuietNextDecreases(s: State, r: State)
    requires QuietNext(s, r) && s.shutdown
    ensures Work(r) < Work(s) && r.shutdown
  {
    hide Work;
    var a :| Enabled(s, a) && Quiet(s, a) && r == Do(s, a);
    QuietDecreases(s, a);
  }

  lemma {:induction false} QuietRunEnds(f: nat -> State, from: nat) returns (n: nat)
    requires f(from).shutdown
    ensures n >= from && !QuietNext(f(n), f(n + 1))
    decreases Work(f(from))
  {
    hide Work, QuietNext;
    n := from;
    if QuietNext(f(from), f(from + 1)) {
      QuietNextDecreases(f(from), f(from + 1));
      n := QuietRunEnds(f, from + 1);
    }
  }

  /** After shutdown has begun, quiet steps run out. */
  lemma ShutdownComesToRest(f: nat -> State)
    requires f(0).shutdown
    ensures exists n: nat :: !QuietNext(f(n), f(n + 1))
  {
    var n := QuietRunEnds(f, 0);
  }

  lemma NextExists(heap: multiset<DelayedTask>) returns (d: DelayedTask)
    ensures |heap| > 0 ==> IsNext(heap, d)
    decreases |heap|
  {
    d := DelayedTask(0, 0);
    if |heap| > 0 {
      var x :| x in heap;
      var n := NextExists(heap - multiset{x});
      d := if |heap| > 1 && n.deadline < x.deadline then n else x;
      assert heap == (heap - multiset{x}) + multiset{x};
      forall y | y in heap ensures d.deadline <= y.deadline {
        if y != x {
          assert y in heap - multiset{x};
        }
      }
    }
  }

  /**
   * `ran` are tasks in the order of their deadlines, none later than what is still in the heap, and
   * each due at its own reading of the clock.
   */
  ghost predicate RanInOrder(ran: seq<DelayedTask>, heap: multiset<DelayedTask>, clock: nat -> nat) {
    && (forall i | 0 <= i < |ran| :: ran[i].deadline <= clock(i))
    && (forall i, j | 0 <= i < j < |ran| :: ran[i].deadline <= ran[j].deadline)
    && (forall i, d | 0 <= i < |ran| && d in heap :: ran[i].deadline <= d.deadline)
  }

  lemma RunNext(ran: seq<DelayedTask>, heap: multiset<DelayedTask>, next: DelayedTask, clock: nat -> nat)
    requires RanInOrder(ran, heap, clock) && IsNext(heap, next)
    ensures next.deadline <= clock(|ran|) ==> RanInOrder(ran + [next], heap - multiset{next}, clock)
    ensures next.deadline > clock(|ran|) ==> forall d | d in heap :: d.deadline > clock(|ran|)
    ensures heap == (heap - multiset{next}) + multiset{next}
  {
  }

  ghost predicate Stuck(s: State) {
    forall a | Enabled(s, a) :: !Quiet(s, a)
  }

  lemma LoopCanMove(s: State)
    requires Inv(s) && s.shutdown && !s.phase.Left?
    ensures !Stuck(s)
  {
    var d := NextExists(s.delayed);
    var a := match s.phase
      case Draining => Drain
      case InTask(_) => FinishTask
      case Expiring => ReadClock
      case Peeking(_) => Expire(d)
      case InDelayed(_) => FinishDelayed
      case CheckingStop => CheckStop
      case Computing => Compute(d)
      case Entering(_, _) => Enter
      case Handling(wake) => if wake then ReadWake else EndHandling
      case _ => Deliver(true);
    if s.phase.Polling? && s.eventfd == 0 {
      var j :| 0 <= j < |s.calls| && (s.calls[j] == Waking || s.calls[j] == Stopping);
      assert Enabled(s, Wake(j)) && Quiet(s, Wake(j));
    } else {
      assert Enabled(s, a) && Quiet(s, a);
    }
  }

  lemma CloserCanMove(s: State, j: nat)
    requires s.phase.Left? && j < |s.calls| && (s.calls[j].Stopping? || s.calls[j].Joining?)
    ensures !Stuck(s)
  {
    var a := if s.calls[j].Stopping? then Wake(j) else Join(j);
    assert Enabled(s, a) && Quiet(s, a);
  }

  /** Where the quiet steps run out after shutdown, the loop has left and every call of shutdown has returned. */
  lemma ShutdownEndsJoined(s: State)
    requires Reachable(s) && s.shutdown && Stuck(s)
    ensures s.phase.Left?
    ensures forall j | 0 <= j < |s.calls| :: !s.calls[j].Stopping? && !s.calls[j].Joining?
  {
    ReachableKeeps(s);
    if !s.phase.Left? {
      LoopCanMove(s);
    }
    forall j | 0 <= j < |s.calls| ensures !s.calls[j].Stopping? && !s.calls[j].Joining? {
      if s.calls[j].Stopping? || s.calls[j].Joining? {
        CloserCanMove(s, j);
      }
    }
  }
}
