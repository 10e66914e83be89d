/**
 * When the event loop comes to rest by itself. The timeout of epoll_wait is rounded down to
 * milliseconds, so in the last millisecond before a deadline the loop does not sleep: it polls with
 * a timeout of zero, over and over. Apart from that it always comes to rest, asleep with nothing to
 * do.
 */
module IoRest {
  import opened Basics
  import opened IoLoop

  /** A quiet step; a return of epoll_wait reports the eventfd, if that is readable. */
  ghost predicate Settled(s: State, a: Step)
    requires Enabled(s, a)
  {
    Quiet(s, a) && (a.Deliver? && s.eventfd > 0 ==> a.wake)
  }

  ghost predicate SettledNext(s: State, r: State) {
    exists a :: Enabled(s, a) && Settled(s, a) && r == Do(s, a)
  }

  /** Less than a millisecond ahead. */
  predicate Soon(deadline: nat, now: nat) {
    now < deadline < now + NANOS_PER_MILLI
  }

  /** Some delayed task, queued or about to be, is due within the millisecond. */
  ghost predicate AnySoon(s: State) {
    || (exists d :: d in s.delayed && Soon(d.deadline, s.clock))
    || (exists j :: 0 <= j < |s.calls| && Imminent(s.calls[j], s.clock))
  }

  predicate Imminent(c: Call, now: nat) {
    c.Admitted? && c.deadline.Some? && Soon(c.deadline.value, now)
  }

  /** The next epoll_wait, or the present one, blocks unless it is woken. */
  predicate WillBlock(s: State) {
    || (s.phase.Entering? && s.phase.timeout != 0)
    || (s.phase.Polling? && (s.phase.timeout >= 0 ==> s.clock < s.phase.entered + s.phase.timeout * NANOS_PER_MILLI))
  }

  /** The eventfd is readable, or a call in progress is going to make it so. */
  ghost predicate Pending(s: State) {
    || s.eventfd > 0
    || exists j :: 0 <= j < |s.calls| && (s.calls[j].Admitted? || s.calls[j].Waking? || s.calls[j].Stopping?)
  }

  /** The loop polls without end while the clock stands still. */
  ghost predicate Spinning(s: State) {
    !s.shutdown && !s.phase.Left? && AnySoon(s) && (WillBlock(s) ==> Pending(s))
  }

  // ---- The measure ----

  predicate AnyDue(heap: multiset<DelayedTask>, now: nat) {
    exists d :: d in heap && d.deadline <= now
  }

  function RestCallWeight(c: Call): nat {
    match c
    case Admitted(_, _) => 100
    case Waking => 21
    case Returned => 0
    case Stopping => 22
    case Joining => 1
    case Joined => 0
  }

  /** How far the loop is from its next wait, with one more round if something is due by now. */
  function RestPhaseWeight(s: State): nat {
    match s.phase
    case Left => 0
    case Polling(_, _, _) => if WillBlock(s) then 4 else 14
    case Entering(_, _) => if WillBlock(s) then 5 else 15
    case Computing => if AnyDue(s.delayed, s.clock) then 16 else 6
    case CheckingStop => if AnyDue(s.delayed, s.clock) then 17 else 7
    case Peeking(now) => if AnyDue(s.delayed, s.clock) && !AnyDue(s.delayed, now) then 18 else 8
    case Expiring => 9
    case InDelayed(_) => 10
    case Draining => 10
    case InTask(_) => 11
    case Handling(wake) => if wake then 12 else 11
  }

  /** A readable eventfd is good for one round, unless the loop is about to read it. */
  function NoticeWeight(s: State): nat {
    if s.eventfd > 0 && s.phase != Handling(true) then 20 else 0
  }

  function RestWork(s: State): nat {
    30 * |s.tasks| + 30 * |s.delayed| + Sum(RestCallWeight, s.calls) + NoticeWeight(s) + RestPhaseWeight(s)
  }

  /** A call that queues a task may cost the loop one more round. */
  lemma CallDelaysPhase(s: State, a: Step)
    requires Enabled(s, a) && ByCall(a)
    ensures RestPhaseWeight(Do(s, a)) <= RestPhaseWeight(s) + if a.Push? then 10 else 0
    ensures NoticeWeight(Do(s, a)) <= NoticeWeight(s) + if a.Wake? then 20 else 0
  {
  }

  lemma CallUsesUp(s: State, a: Step)
    requires Enabled(s, a) && ByCall(a)
    ensures RestWork(Do(s, a)) < RestWork(s)
  {
    hide RestPhaseWeight, NoticeWeight;
    CallDelaysPhase(s, a);
    SumUpdate(RestCallWeight, s.calls, a.j, Do(s, a).calls[a.j]);
  }

  /** With nothing due within the millisecond, only what is due already makes the timeout zero. */
  lemma ZeroMeansDue(s: State, d: DelayedTask)
    requires Enabled(s, Compute(d)) && !AnySoon(s)
    ensures TimeoutMs(s.delayed, d, s.clock) == 0 ==> AnyDue(s.delayed, s.clock)
  {
    if |s.delayed| > 0 && d.deadline > s.clock {
      assert !Soon(d.deadline, s.clock);
      assert (d.deadline - s.clock) / NANOS_PER_MILLI >= 1;
    }
  }

  lemma ExpireUsesUp(s: State, d: DelayedTask)
    requires Enabled(s, Expire(d))
    ensures RestWork(Do(s, Expire(d))) < RestWork(s)
  {
    hide RestWork;
    if |s.delayed| > 0 && d.deadline <= s.phase.now {
      PopUsesUp(s, d);
    } else {
      MovingOnUsesUp(s, d);
    }
  }

  lemma PopUsesUp(s: State, d: DelayedTask)
    requires Enabled(s, Expire(d)) && |s.delayed| > 0 && d.deadline <= s.phase.now
    ensures RestWork(Do(s, Expire(d))) < RestWork(s)
  {
    hide RestCallWeight, AnyDue;
    assert |s.delayed - multiset{d}| == |s.delayed| - 1;
  }

  lemma MovingOnUsesUp(s: State, d: DelayedTask)
    requires Enabled(s, Expire(d)) && (|s.delayed| == 0 || d.deadline > s.phase.now)
    ensures RestWork(Do(s, Expire(d))) < RestWork(s)
  {
    hide RestCallWeight;
    assert !AnyDue(s.delayed, s.phase.now);
    hide AnyDue, IsNext;
  }

  lemma LoopUsesUp(s: State, a: Step)
    requires Inv(s) && Enabled(s, a) && Settled(s, a) && !ByCall(a)
    requires a.Compute? ==> !AnySoon(s)
    ensures RestWork(Do(s, a)) < RestWork(s)
  {
    hide RestCallWeight, AnySoon, Inv;
    if a.Compute? {
      ZeroMeansDue(s, a.d);
    } else if a.Expire? {
      ExpireUsesUp(s, a.d);
    } else {
      MoveUsesUp(s, a);
    }
  }

  lemma MoveUsesUp(s: State, a: Step)
    requires Enabled(s, a) && Settled(s, a) && !ByCall(a) && !a.Compute? && !a.Expire?
    ensures RestWork(Do(s, a)) < RestWork(s)
  {
    hide RestCallWeight, AnyDue;
  }

  lemma SoonTaskStays(s: State, a: Step, d: DelayedTask)
    requires Enabled(s, a) && Settled(s, a) && d in Do(s, a).delayed && Soon(d.deadline, Do(s, a).clock)
    ensures AnySoon(s)
  {
    hide Blocked, TimeoutMs;
    if a.Push? {
      assert d in s.delayed || Imminent(s.calls[a.j], s.clock);
    } else {
      assert d in s.delayed;
    }
  }

  lemma SoonCallStays(s: State, a: Step, j: nat)
    requires Enabled(s, a) && Settled(s, a) && j < |Do(s, a).calls| && Imminent(Do(s, a).calls[j], Do(s, a).clock)
    ensures j < |s.calls| && Imminent(s.calls[j], s.clock)
  {
    hide Blocked, TimeoutMs;
  }

  lemma SoonStays(s: State, a: Step)
    requires Enabled(s, a) && Settled(s, a) && AnySoon(Do(s, a))
    ensures AnySoon(s)
  {
    hide Settled, Do;
    var r := Do(s, a);
    if d :| d in r.delayed && Soon(d.deadline, r.clock) {
      SoonTaskStays(s, a, d);
    } else {
      var j :| 0 <= j < |r.calls| && Imminent(r.calls[j], r.clock);
      SoonCallStays(s, a, j);
    }
  }

  /** What does not spin uses up work, and never starts to spin. */
  lemma NotSpinningUsesUp(s: State, a: Step)
    requires Inv(s) && !s.shutdown && !Spinning(s) && Enabled(s, a) && Settled(s, a)
    ensures !Spinning(Do(s, a)) && !Do(s, a).shutdown && RestWork(Do(s, a)) < RestWork(s)
  {
    hide RestWork;
    if ByCall(a) {
      CallUsesUp(s, a);
    } else {
      LoopUsesUp(s, a);
    }
    if AnySoon(Do(s, a)) {
      SoonStays(s, a);
    }
  }

  lemma SettledNextUsesUp(s: State, r: State)
    requires Inv(s) && !s.shutdown && !Spinning(s) && SettledNext(s, r)
    ensures Inv(r) && !r.shutdown && !Spinning(r) && RestWork(r) < RestWork(s)
  {
    hide RestWork, Spinning, Inv, Do;
    var a :| Enabled(s, a) && Settled(s, a) && r == Do(s, a);
    NotSpinningUsesUp(s, a);
    InvStep(s, a);
  }

  lemma {:induction false} SettledRunEnds(f: nat -> State, from: nat) returns (n: nat)
    requires Inv(f(from)) && !f(from).shutdown && !Spinning(f(from))
    ensures n >= from && !SettledNext(f(n), f(n + 1))
    decreases RestWork(f(from))
  {
    hide RestWork, Spinning, Inv, SettledNext;
    n := from;
    if SettledNext(f(from), f(from + 1)) {
      SettledNextUsesUp(f(from), f(from + 1));
      n := SettledRunEnds(f, from + 1);
    }
  }

  // ---- Spinning goes on ----

  lemma SoonTask(s: State) returns (d: DelayedTask)
    requires AnySoon(s) && (forall j | 0 <= j < |s.calls| :: !Imminent(s.calls[j], s.clock))
    ensures d in s.delayed && Soon(d.deadline, s.clock)
  {
    d :| d in s.delayed && Soon(d.deadline, s.clock);
  }

  /** The step by which a spinning loop goes on. */
  lemma SpinStep(s: State) returns (a: Step)
    requires Inv(s) && Spinning(s)
    ensures Enabled(s, a) && Settled(s, a)
    ensures a.Push? || a.Wake? ==> WillBlock(s) && s.phase.Polling?
    ensures !a.Join?
  {
    var d := NextExists(s.delayed);
    a := match s.phase
      case Draining => Drain
      case InTask(_) => FinishTask
      case Expiring => ReadClock
      case Peeking(_) => Expire(d)
      case InDelayed(_) => FinishDelayed
      case CheckingStop => CheckStop
      case Computing => Compute(d)
      case Entering(_, _) => Enter
      case Handling(wake) => if wake then ReadWake else EndHandling
      case _ => Deliver(s.eventfd > 0);
    if s.phase.Polling? && s.eventfd == 0 && WillBlock(s) {
      var j :| 0 <= j < |s.calls| && (s.calls[j].Admitted? || s.calls[j].Waking? || s.calls[j].Stopping?);
      a := if s.calls[j].Admitted? then Push(j) else Wake(j);
    }
  }

  /** A task due within the millisecond is not due yet, and stays queued. */
  lemma SoonTaskGoesOn(s: State, a: Step, d: DelayedTask)
    requires Inv(s) && Enabled(s, a) && Settled(s, a) && d in s.delayed && Soon(d.deadline, s.clock)
    ensures AnySoon(Do(s, a))
  {
    hide TimeoutMs, Blocked, Told;
    assert d in Do(s, a).delayed && Do(s, a).clock == s.clock;
  }

  /** The call that is about to queue such a task keeps it, or queues it. */
  lemma SoonCallGoesOn(s: State, a: Step, j: nat)
    requires Enabled(s, a) && Settled(s, a) && j < |s.calls| && Imminent(s.calls[j], s.clock)
    ensures AnySoon(Do(s, a))
  {
    hide TimeoutMs, Blocked;
    var r := Do(s, a);
    if a == Push(j) {
      assert DelayedTask(s.calls[j].deadline.value, s.calls[j].callback) in r.delayed;
    } else {
      assert r.calls[j] == s.calls[j] && r.clock == s.clock;
    }
  }

  lemma SoonGoesOn(s: State, a: Step)
    requires Inv(s) && AnySoon(s) && Enabled(s, a) && Settled(s, a)
    ensures AnySoon(Do(s, a))
  {
    hide Do, Inv, Settled, Enabled, Soon;
    if d :| d in s.delayed && Soon(d.deadline, s.clock) {
      SoonTaskGoesOn(s, a, d);
    } else {
      var j :| 0 <= j < |s.calls| && Imminent(s.calls[j], s.clock);
      SoonCallGoesOn(s, a, j);
    }
  }

  lemma ComputesZero(s: State, d: DelayedTask)
    requires Enabled(s, Compute(d)) && AnySoon(s) && !Pending(s)
    ensures TimeoutMs(s.delayed, d, s.clock) == 0
  {
    var x := SoonTask(s);
    assert d.deadline <= x.deadline;
    if d.deadline > s.clock {
      assert (d.deadline - s.clock) / NANOS_PER_MILLI == 0;
    }
  }

  lemma SpinGoesOn(s: State) returns (r: State)
    requires Inv(s) && Spinning(s)
    ensures SettledNext(s, r) && Inv(r) && Spinning(r)
  {
    var a := SpinStep(s);
    r := Do(s, a);
    InvStep(s, a);
    SoonGoesOn(s, a);
    if a.Compute? && !Pending(s) {
      ComputesZero(s, a.d);
    }
    if WillBlock(r) {
      StillPending(s, a);
    }
  }

  lemma StillPending(s: State, a: Step)
    requires Spinning(s) && Enabled(s, a) && Settled(s, a) && !a.Join? && WillBlock(Do(s, a))
    requires a.Compute? && !Pending(s) ==> TimeoutMs(s.delayed, a.d, s.clock) == 0
    ensures Pending(Do(s, a))
  {
    var r := Do(s, a);
    assert Pending(s);
    if a.Push? {
      assert r.calls[a.j].Waking?;
    } else if s.eventfd == 0 && !a.Wake? {
      var j :| 0 <= j < |s.calls| && (s.calls[j].Admitted? || s.calls[j].Waking? || s.calls[j].Stopping?);
      assert r.calls[j] == s.calls[j];
    }
  }

  ghost function Spin(s: State, n: nat): (r: State)
    requires Inv(s) && Spinning(s)
    ensures Inv(r) && Spinning(r)
  {
    if n == 0 then s else
      var q := Spin(s, n - 1);
      assert exists r :: SettledNext(q, r) && Inv(r) && Spinning(r) by { var r := SpinGoesOn(q); }
      var r :| SettledNext(q, r) && Inv(r) && Spinning(r);
      r
  }

  // ---- Main results ----

  ghost predicate EndlessRun(f: nat -> State) {
    forall n: nat :: SettledNext(f(n), f(n + 1))
  }

  /**
   * While the clock stands still and nobody calls, the loop goes on for ever if and only if it spins
   * in the last millisecond before a deadline.
   */
  lemma EndlessIffSpinning(s: State)
    requires Reachable(s)
    ensures (exists f: nat -> State :: f(0) == s && EndlessRun(f)) <==> Spinning(s)
  {
    ReachableKeeps(s);
    if Spinning(s) {
      var f := (n: nat) => if Inv(s) && Spinning(s) then Spin(s, n) else s;
      forall n: nat ensures SettledNext(f(n), f(n + 1)) {
      }
      assert f(0) == s && EndlessRun(f);
    } else if f: nat -> State :| f(0) == s && EndlessRun(f) {
      NotEndless(f);
    }
  }

  lemma NotEndless(f: nat -> State)
    requires Inv(f(0)) && !Spinning(f(0))
    ensures !EndlessRun(f)
  {
    hide Inv, Spinning;
    var n;
    if f(0).shutdown {
      n := QuietRunEnds(f, 0);
    } else {
      n := SettledRunEnds(f, 0);
    }
    assert !SettledNext(f(n), f(n + 1));
  }

  /** No settled step is possible. */
  ghost predicate AtRest(s: State) {
    forall a | Enabled(s, a) :: !Settled(s, a)
  }

  lemma RestIsPolling(s: State)
    requires Inv(s) && !s.shutdown && !s.phase.Left? && AtRest(s)
    ensures s.phase.Polling? && WillBlock(s)
  {
    var d := NextExists(s.delayed);
    var a := match s.phase
      case Draining => Drain
      case InTask(_) => FinishTask
      case Expiring => ReadClock
      case Peeking(_) => Expire(d)
      case InDelayed(_) => FinishDelayed
      case CheckingStop => CheckStop
      case Computing => Compute(d)
      case Entering(_, _) => Enter
      case Handling(wake) => if wake then ReadWake else EndHandling
      case _ => Deliver(s.eventfd > 0);
    assert Enabled(s, a);
  }

  lemma CallMovesOn(s: State, j: nat)
    requires j < |s.calls| && (s.calls[j].Admitted? || s.calls[j].Waking? || s.calls[j].Stopping?)
    ensures !AtRest(s)
  {
    var a := if s.calls[j].Admitted? then Push(j) else Wake(j);
    assert Enabled(s, a) && Settled(s, a);
  }

  /**
   * Where the loop comes to rest without a call of shutdown it is asleep in epoll_wait, no task is
   * queued, every call has returned, and it sleeps past no deadline.
   */
  lemma RestIsAsleep(s: State)
    requires Reachable(s) && !s.shutdown && !s.phase.Left? && AtRest(s)
    ensures Blocked(s) && s.tasks == []
    ensures forall j | 0 <= j < |s.calls| :: !s.calls[j].Admitted? && !s.calls[j].Waking?
    ensures forall d | d in s.delayed :: InTime(s.phase.timeout, s.phase.computedAt, d)
  {
    ReachableKeeps(s);
    RestIsPolling(s);
    forall j | 0 <= j < |s.calls| ensures !s.calls[j].Admitted? && !s.calls[j].Waking? && !s.calls[j].Stopping? {
      if s.calls[j].Admitted? || s.calls[j].Waking? || s.calls[j].Stopping? {
        CallMovesOn(s, j);
      }
    }
    assert Enabled(s, Deliver(s.eventfd > 0));
    assert !Told(s);
  }
}
