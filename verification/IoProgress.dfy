/**
 * Until it is shut down, the event loop can always get everything done: from every reachable state
 * some run, in which time passes, starts all tasks that are queued or about to be.
 */
module IoProgress {
  import opened Basics
  import opened IoLoop
  import opened IoRest
  import opened IoTasks

  /** The time of every delayed task, queued or about to be, has come. */
  ghost predicate AllDue(s: State) {
    && (forall d | d in s.delayed :: d.deadline <= s.clock)
    && (forall j | 0 <= j < |s.calls| :: DueCall(s.calls[j], s.clock))
  }

  predicate DueCall(c: Call, now: nat) {
    c.Admitted? && c.deadline.Some? ==> c.deadline.value <= now
  }

  /** The loop will not block on a timeout that it computed earlier. */
  ghost predicate Fresh(s: State) {
    WillBlock(s) ==> s.phase.computedAt == s.clock
  }

  /** The loop runs, nobody has shut it down, and everything is due. */
  ghost predicate Busy(s: State) {
    Inv(s) && !s.shutdown && !s.phase.Left? && AllDue(s)
  }

  lemma DueTaskStays(s: State, a: Step)
    requires AllDue(s) && Enabled(s, a) && Settled(s, a)
    ensures forall d | d in Do(s, a).delayed :: d.deadline <= s.clock
  {
    hide TimeoutMs, Blocked;
    if a.Push? {
      assert DueCall(s.calls[a.j], s.clock);
    }
  }

  lemma DueCallStays(s: State, a: Step)
    requires AllDue(s) && Enabled(s, a) && Settled(s, a)
    ensures Do(s, a).clock == s.clock
    ensures forall j | 0 <= j < |Do(s, a).calls| :: DueCall(Do(s, a).calls[j], s.clock)
  {
    hide TimeoutMs, Blocked;
  }

  lemma StaysRunning(s: State, a: Step)
    requires !s.shutdown && !s.phase.Left? && Enabled(s, a) && Settled(s, a)
    ensures !Do(s, a).shutdown && !Do(s, a).phase.Left?
  {
    hide TimeoutMs, Blocked;
  }

  lemma StaysFresh(s: State, a: Step)
    requires Fresh(s) && Enabled(s, a) && Settled(s, a)
    ensures Fresh(Do(s, a))
  {
    hide TimeoutMs;
  }

  lemma StaysBusy(s: State, a: Step)
    requires Busy(s) && Enabled(s, a) && Settled(s, a)
    ensures Busy(Do(s, a))
  {
    hide Do, Enabled, Settled, Inv;
    InvStep(s, a);
    DueTaskStays(s, a);
    DueCallStays(s, a);
    StaysRunning(s, a);
  }

  lemma DueDoesNotSpin(s: State)
    requires AllDue(s)
    ensures !Spinning(s)
  {
    forall j | 0 <= j < |s.calls| ensures !Imminent(s.calls[j], s.clock) {
      assert DueCall(s.calls[j], s.clock);
    }
  }

  lemma SettledIsNext(s: State, a: Step)
    requires Enabled(s, a) && Settled(s, a)
    ensures Next(s, Do(s, a)) && SettledNext(s, Do(s, a))
  {
  }

  lemma PrependPath(s: State, rest: seq<State>)
    requires IsPath(rest) && Next(s, rest[0])
    ensures IsPath([s] + rest)
  {
    var ss := [s] + rest;
    forall n | 0 <= n < |ss| - 1 ensures Next(ss[n], ss[n + 1]) {
      assert n > 0 ==> Next(rest[n - 1], rest[n - 1 + 1]);
    }
  }

  /** With everything due, the loop comes to rest. */
  lemma {:induction false} RunsToRest(s: State) returns (ss: seq<State>)
    requires Busy(s)
    ensures IsPath(ss) && ss[0] == s && Busy(ss[|ss| - 1]) && AtRest(ss[|ss| - 1])
    ensures Fresh(s) ==> Fresh(ss[|ss| - 1])
    decreases RestWork(s)
  {
    hide Inv, AllDue, Do, Enabled, Settled, RestWork, Next, Fresh, Spinning;
    if AtRest(s) {
      OneStatePath(s);
      ss := [s];
    } else {
      var a :| Enabled(s, a) && Settled(s, a);
      SettledIsNext(s, a);
      DueDoesNotSpin(s);
      SettledNextUsesUp(s, Do(s, a));
      StaysBusy(s, a);
      if Fresh(s) {
        StaysFresh(s, a);
      }
      var rest := RunsToRest(Do(s, a));
      PrependPath(s, rest);
      ss := [s] + rest;
      assert ss[|ss| - 1] == rest[|rest| - 1];
    }
  }

  lemma OneStatePath(s: State)
    ensures IsPath([s])
  {
  }

  /** At rest the loop is in epoll_wait, nothing immediate is queued, and it was told of nothing. */
  lemma RestHasNoTasks(s: State)
    requires Busy(s) && AtRest(s)
    ensures s.phase.Polling? && WillBlock(s) && s.tasks == [] && !Told(s)
    ensures forall j | 0 <= j < |s.calls| :: !s.calls[j].Admitted? && !s.calls[j].Waking?
  {
    RestIsPolling(s);
    forall j | 0 <= j < |s.calls| ensures !s.calls[j].Admitted? && !s.calls[j].Waking? && !s.calls[j].Stopping? {
      if s.calls[j].Admitted? || s.calls[j].Waking? || s.calls[j].Stopping? {
        CallMovesOn(s, j);
      }
    }
    assert Enabled(s, Deliver(s.eventfd > 0));
  }

  /** A loop that blocks on a fresh timeout has nothing due. */
  lemma FreshRestIsDone(s: State)
    requires Busy(s) && AtRest(s) && Fresh(s)
    ensures s.tasks == [] && s.delayed == multiset{}
  {
    RestHasNoTasks(s);
    var d := NextExists(s.delayed);
    assert d in s.delayed ==> InTime(s.phase.timeout, s.phase.computedAt, d);
  }

  // ---- Time passes ----

  lemma {:induction false} HeapBound(heap: multiset<DelayedTask>) returns (b: nat)
    ensures forall d | d in heap :: d.deadline <= b
    decreases |heap|
  {
    b := 0;
    if |heap| > 0 {
      var x :| x in heap;
      b := HeapBound(heap - multiset{x});
      b := if b < x.deadline then x.deadline else b;
      forall d | d in heap ensures d.deadline <= b {
        assert d != x ==> d in heap - multiset{x};
      }
    }
  }

  lemma {:induction false} CallsBound(calls: seq<Call>) returns (b: nat)
    ensures forall j | 0 <= j < |calls| :: DueCall(calls[j], b)
  {
    b := 0;
    if calls != [] {
      var last := |calls| - 1;
      b := CallsBound(calls[..last]);
      if calls[last].Admitted? && calls[last].deadline.Some? && b < calls[last].deadline.value {
        b := calls[last].deadline.value;
      }
      forall j | 0 <= j < |calls| ensures DueCall(calls[j], b) {
        assert j < last ==> calls[j] == calls[..last][j];
      }
    }
  }

  lemma Later(s: State, now: nat)
    requires Inv(s) && s.clock <= now
    ensures Inv(s.(clock := now)) && Next(s, s.(clock := now))
  {
    InvStep(s, Tick(now));
    assert Enabled(s, Tick(now)) && Do(s, Tick(now)) == s.(clock := now);
  }

  lemma DueAtSomeTime(s: State) returns (now: nat)
    requires Inv(s) && !s.shutdown && !s.phase.Left?
    ensures s.clock <= now && Busy(s.(clock := now)) && Next(s, s.(clock := now))
  {
    var b := HeapBound(s.delayed);
    var c := CallsBound(s.calls);
    now := s.clock + b + c;
    Later(s, now);
    forall j | 0 <= j < |s.calls| ensures DueCall(s.calls[j], now) {
      assert DueCall(s.calls[j], c);
    }
  }

  /** When the present wait is over, everything is still due, and every timeout to come is a fresh one. */
  lemma WaitEnds(s: State) returns (now: nat)
    requires Busy(s) && AtRest(s) && s.phase.Polling? && s.phase.timeout >= 0
    ensures s.clock <= now && Busy(s.(clock := now)) && Fresh(s.(clock := now)) && Next(s, s.(clock := now))
  {
    now := s.clock + s.phase.entered + s.phase.timeout * NANOS_PER_MILLI;
    Later(s, now);
    forall j | 0 <= j < |s.calls| ensures DueCall(s.calls[j], now) {
      assert DueCall(s.calls[j], s.clock);
    }
  }

  lemma JoinPaths(ss: seq<State>, rest: seq<State>)
    requires IsPath(ss) && IsPath(rest) && Next(ss[|ss| - 1], rest[0])
    ensures IsPath(ss + rest)
  {
    var all := ss + rest;
    forall n | 0 <= n < |all| - 1 ensures Next(all[n], all[n + 1]) {
      if n < |ss| - 1 {
        assert Next(ss[n], ss[n + 1]);
      } else if n > |ss| - 1 {
        var m := n - |ss|;
        assert Next(rest[m], rest[m + 1]);
      }
    }
  }

  /** Nothing is queued, and no call is about to queue anything. */
  ghost predicate Done(s: State) {
    && s.tasks == [] && s.delayed == multiset{}
    && forall j | 0 <= j < |s.calls| :: !s.calls[j].Admitted? && !s.calls[j].Waking?
  }

  /** A loop at rest with everything due finishes when its present wait ends. */
  lemma RestGetsDone(s: State) returns (ss: seq<State>)
    requires Busy(s) && AtRest(s)
    ensures IsPath(ss) && ss[0] == s && Done(ss[|ss| - 1])
  {
    RestHasNoTasks(s);
    hide Inv, AllDue, Fresh, AtRest, WillBlock, IsPath;
    if s.phase.timeout < 0 {
      UntimedRestIsDone(s);
      OneStatePath(s);
      ss := [s];
    } else {
      var now := WaitEnds(s);
      var rest := RunsToRest(s.(clock := now));
      var last := rest[|rest| - 1];
      FreshRestIsDone(last);
      RestHasNoTasks(last);
      PrependPath(s, rest);
      ss := [s] + rest;
    }
  }

  lemma UntimedRestIsDone(s: State)
    requires Busy(s) && s.phase.Polling? && s.phase.timeout < 0 && !Told(s)
    ensures s.delayed == multiset{}
  {
    var d := NextExists(s.delayed);
    assert d in s.delayed ==> InTime(s.phase.timeout, s.phase.computedAt, d);
  }

  /**
   * From every reachable state before shutdown some run of the loop ends with every task started: what
   * was queued or about to be is neither queued nor about to be any more.
   */
  lemma EverythingCanRun(s: State) returns (ss: seq<State>)
    requires Reachable(s) && !s.shutdown && !s.phase.Left?
    ensures IsPath(ss) && ss[0] == s && Done(ss[|ss| - 1])
    ensures Started(ss, |ss| - 1) == s.tasks + Arrived(ss, |ss| - 1)
    ensures DelayedStarted(ss, |ss| - 1) == s.delayed + DelayedArrived(ss, |ss| - 1)
  {
    hide Busy, AtRest, Next;
    ReachableKeeps(s);
    var now := DueAtSomeTime(s);
    var first := RunsToRest(s.(clock := now));
    var second := RestGetsDone(first[|first| - 1]);
    ss := JoinThree(s, first, second);
    TasksStartInOrder(ss, |ss| - 1);
    DelayedTasksConserved(ss, |ss| - 1);
  }

  /** A step, a path, and a path from where that one ends. */
  lemma JoinThree(s: State, first: seq<State>, second: seq<State>) returns (ss: seq<State>)
    requires IsPath(first) && IsPath(second) && Next(s, first[0]) && second[0] == first[|first| - 1]
    ensures IsPath(ss) && ss[0] == s && ss[|ss| - 1] == second[|second| - 1]
  {
    PrependPath(s, first);
    var path := [s] + first;
    if |second| == 1 {
      ss := path;
    } else {
      var rest := second[1..];
      assert Next(second[0], second[0 + 1]);
      forall n | 0 <= n < |rest| - 1 ensures Next(rest[n], rest[n + 1]) {
        assert Next(second[n + 1], second[n + 1 + 1]);
      }
      JoinPaths(path, rest);
      ss := path + rest;
    }
  }
}
