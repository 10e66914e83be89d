/**
 * The event loop runs what is posted to it: nothing is lost or doubled, immediate tasks start in the
 * order in which they were queued, delayed tasks by deadline and not too early. What starts and what
 * arrives is read off the states: a task starts when the loop enters it, and arrives when its call
 * goes on to write the eventfd.
 */
module IoTasks {
  import opened Basics
  import opened IoLoop

  // ---- What one step starts and what it queues ----

  function StartedBy(s: State, r: State): seq<nat> {
    if r.phase.InTask? && !s.phase.InTask? then [r.phase.callback] else []
  }

  function DelayedStartedBy(s: State, r: State): multiset<DelayedTask> {
    if r.phase.InDelayed? && !s.phase.InDelayed? then multiset{r.phase.task} else multiset{}
  }

  /** Call number `j` has pushed its task. */
  predicate HasPushed(s: State, r: State, j: nat) {
    j < |s.calls| && j < |r.calls| && s.calls[j].Admitted? && r.calls[j].Waking?
  }

  /** What the first `n` calls have pushed into the task queue. */
  function ArrivedBy(s: State, r: State, n: nat): seq<nat> {
    if n == 0 then []
    else
      var rest := ArrivedBy(s, r, n - 1);
      if HasPushed(s, r, n - 1) && s.calls[n - 1].deadline.None? then rest + [s.calls[n - 1].callback] else rest
  }

  function DelayedArrivedBy(s: State, r: State, n: nat): multiset<DelayedTask> {
    if n == 0 then multiset{}
    else
      var rest := DelayedArrivedBy(s, r, n - 1);
      if HasPushed(s, r, n - 1) && s.calls[n - 1].deadline.Some?
      then rest + multiset{DelayedTask(s.calls[n - 1].deadline.value, s.calls[n - 1].callback)}
      else rest
  }

  lemma {:induction false} NothingPushed(s: State, r: State, n: nat)
    requires forall k | 0 <= k < n :: !HasPushed(s, r, k)
    ensures ArrivedBy(s, r, n) == [] && DelayedArrivedBy(s, r, n) == multiset{}
  {
    if n > 0 {
      NothingPushed(s, r, n - 1);
    }
  }

  lemma {:induction false} OnePushed(s: State, r: State, n: nat, j: nat)
    requires j < n && HasPushed(s, r, j) && forall k | 0 <= k < n && k != j :: !HasPushed(s, r, k)
    ensures s.calls[j].deadline.None? ==>
              ArrivedBy(s, r, n) == [s.calls[j].callback] && DelayedArrivedBy(s, r, n) == multiset{}
    ensures s.calls[j].deadline.Some? ==>
              && ArrivedBy(s, r, n) == []
              && DelayedArrivedBy(s, r, n) == multiset{DelayedTask(s.calls[j].deadline.value, s.calls[j].callback)}
  {
    if j == n - 1 {
      NothingPushed(s, r, n - 1);
    } else {
      OnePushed(s, r, n - 1, j);
    }
  }

  /** Started tasks leave the front of the queue, arrivals join its back, and nothing else changes it. */
  ghost predicate Conserves(s: State, r: State) {
    && StartedBy(s, r) + r.tasks == s.tasks + ArrivedBy(s, r, |s.calls|)
    && DelayedStartedBy(s, r) + r.delayed == s.delayed + DelayedArrivedBy(s, r, |s.calls|)
  }

  lemma StepConserves(s: State, a: Step)
    requires Enabled(s, a)
    ensures Conserves(s, Do(s, a))
  {
    if a.Push? {
      PushConserves(s, a.j);
    } else {
      OthersConserve(s, a);
    }
  }

  lemma PushConserves(s: State, j: nat)
    requires Enabled(s, Push(j))
    ensures Conserves(s, Do(s, Push(j)))
  {
    OnePushed(s, Do(s, Push(j)), |s.calls|, j);
  }

  lemma OthersConserve(s: State, a: Step)
    requires Enabled(s, a) && !a.Push?
    ensures Conserves(s, Do(s, a))
  {
    hide Do, ArrivedBy, DelayedArrivedBy, StartedBy, DelayedStartedBy;
    var r := Do(s, a);
    NobodyPushes(s, a);
    NothingPushed(s, r, |s.calls|);
    TasksKept(s, a);
    DelayedKept(s, a);
    assert s.tasks + [] == s.tasks && s.delayed + multiset{} == s.delayed;
  }

  lemma TasksKept(s: State, a: Step)
    requires Enabled(s, a) && !a.Push?
    ensures StartedBy(s, Do(s, a)) + Do(s, a).tasks == s.tasks
  {
    hide TimeoutMs;
    if a.Drain? && s.tasks != [] {
      assert s.tasks == [s.tasks[0]] + s.tasks[1..];
    } else {
      assert [] + s.tasks == s.tasks;
    }
  }

  lemma DelayedKept(s: State, a: Step)
    requires Enabled(s, a) && !a.Push?
    ensures DelayedStartedBy(s, Do(s, a)) + Do(s, a).delayed == s.delayed
  {
    hide TimeoutMs;
    if a.Expire? {
      ExpireConserves(s, a.d);
    } else {
      assert multiset{} + s.delayed == s.delayed;
    }
  }

  lemma NobodyPushes(s: State, a: Step)
    requires Enabled(s, a) && !a.Push?
    ensures forall k | 0 <= k < |s.calls| :: !HasPushed(s, Do(s, a), k)
  {
  }

  lemma ExpireConserves(s: State, d: DelayedTask)
    requires Enabled(s, Expire(d))
    ensures DelayedStartedBy(s, Do(s, Expire(d))) + Do(s, Expire(d)).delayed == s.delayed
  {
    if |s.delayed| > 0 && d.deadline <= s.phase.now {
      assert multiset{d} + (s.delayed - multiset{d}) == s.delayed;
    } else {
      assert multiset{} + s.delayed == s.delayed;
    }
  }

  // ---- Along a path ----

  ghost predicate IsPath(ss: seq<State>) {
    ss != [] && forall n | 0 <= n < |ss| - 1 :: Next(ss[n], ss[n + 1])
  }

  /** The callbacks that start within the first `n` steps, in order. */
  function Started(ss: seq<State>, n: nat): seq<nat>
    requires n < |ss|
  {
    if n == 0 then [] else Started(ss, n - 1) + StartedBy(ss[n - 1], ss[n])
  }

  /** The callbacks that are queued within the first `n` steps, in order. */
  function Arrived(ss: seq<State>, n: nat): seq<nat>
    requires n < |ss|
  {
    if n == 0 then [] else Arrived(ss, n - 1) + ArrivedBy(ss[n - 1], ss[n], |ss[n - 1].calls|)
  }

  function DelayedStarted(ss: seq<State>, n: nat): multiset<DelayedTask>
    requires n < |ss|
  {
    if n == 0 then multiset{} else DelayedStarted(ss, n - 1) + DelayedStartedBy(ss[n - 1], ss[n])
  }

  function DelayedArrived(ss: seq<State>, n: nat): multiset<DelayedTask>
    requires n < |ss|
  {
    if n == 0 then multiset{}
    else DelayedArrived(ss, n - 1) + DelayedArrivedBy(ss[n - 1], ss[n], |ss[n - 1].calls|)
  }

  lemma NextConserves(s: State, r: State)
    requires Next(s, r)
    ensures Conserves(s, r)
  {
    hide Do, Enabled, Conserves;
    var a :| Enabled(s, a) && r == Do(s, a);
    StepConserves(s, a);
  }

  lemma Chain(
    before: seq<nat>, x: seq<nat>, tasks: seq<nat>, was: seq<nat>, start: seq<nat>, more: seq<nat>, y: seq<nat>)
    requires before + was == start + more && x + tasks == was + y
    ensures (before + x) + tasks == start + (more + y)
  {
    assert (before + x) + tasks == before + (x + tasks);
    assert before + (was + y) == (before + was) + y;
    assert (start + more) + y == start + (more + y);
  }

  /**
   * Over every path the callbacks started, followed by those still queued, are those queued at first,
   * followed by the arrivals: each runs once, first in first out.
   */
  lemma {:induction false} TasksStartInOrder(ss: seq<State>, n: nat)
    requires IsPath(ss) && n < |ss|
    ensures Started(ss, n) + ss[n].tasks == ss[0].tasks + Arrived(ss, n)
  {
    hide Next;
    if n > 0 {
      TasksStartInOrder(ss, n - 1);
      assert Next(ss[n - 1], ss[n - 1 + 1]);
      NextConserves(ss[n - 1], ss[n]);
      Chain(Started(ss, n - 1), StartedBy(ss[n - 1], ss[n]), ss[n].tasks, ss[n - 1].tasks, ss[0].tasks,
            Arrived(ss, n - 1), ArrivedBy(ss[n - 1], ss[n], |ss[n - 1].calls|));
    }
  }

  lemma ChainDelayed(
    before: multiset<DelayedTask>, x: multiset<DelayedTask>, heap: multiset<DelayedTask>, was: multiset<DelayedTask>,
    start: multiset<DelayedTask>, more: multiset<DelayedTask>, y: multiset<DelayedTask>)
    requires before + was == start + more && x + heap == was + y
    ensures (before + x) + heap == start + (more + y)
  {
    assert (before + x) + heap == before + (x + heap);
    assert before + (was + y) == (before + was) + y;
  }

  /** Over every path the delayed tasks started, with those still waiting, are those of the start and the arrivals. */
  lemma {:induction false} DelayedTasksConserved(ss: seq<State>, n: nat)
    requires IsPath(ss) && n < |ss|
    ensures DelayedStarted(ss, n) + ss[n].delayed == ss[0].delayed + DelayedArrived(ss, n)
  {
    hide Next;
    if n > 0 {
      DelayedTasksConserved(ss, n - 1);
      assert Next(ss[n - 1], ss[n - 1 + 1]);
      NextConserves(ss[n - 1], ss[n]);
      ChainDelayed(DelayedStarted(ss, n - 1), DelayedStartedBy(ss[n - 1], ss[n]), ss[n].delayed, ss[n - 1].delayed,
                   ss[0].delayed, DelayedArrived(ss, n - 1), DelayedArrivedBy(ss[n - 1], ss[n], |ss[n - 1].calls|));
    }
  }

  // ---- Accepted posts ----

  /** A call that has been admitted keeps its task until it pushes it. */
  lemma AdmittedKeepsTask(s: State, r: State, j: nat)
    requires Next(s, r) && j < |s.calls| && s.calls[j].Admitted?
    ensures j < |r.calls| && (r.calls[j] == s.calls[j] || HasPushed(s, r, j))
  {
  }

  lemma {:induction false} PushedHasArrived(s: State, r: State, n: nat, j: nat)
    requires j < n && HasPushed(s, r, j)
    ensures s.calls[j].deadline.None? ==> s.calls[j].callback in ArrivedBy(s, r, n)
    ensures s.calls[j].deadline.Some? ==>
              DelayedTask(s.calls[j].deadline.value, s.calls[j].callback) in DelayedArrivedBy(s, r, n)
  {
    if j < n - 1 {
      PushedHasArrived(s, r, n - 1, j);
    }
  }

  /** The post has reached the loop: its callback, with its deadline, if any, is among the arrivals. */
  predicate HasArrived(ss: seq<State>, n: nat, callback: nat, deadline: Option<nat>)
    requires n < |ss|
  {
    match deadline
    case None => callback in Arrived(ss, n)
    case Some(time) => DelayedTask(time, callback) in DelayedArrived(ss, n)
  }

  /**
   * A post that is accepted is still about to push what it was given, or that is among the arrivals,
   * and so among the tasks that have started or are queued.
   */
  lemma {:induction false} AcceptedArrives(s: State, callback: nat, deadline: Option<nat>, ss: seq<State>, n: nat)
    requires Enabled(s, Admit(callback, deadline)) && IsPath(ss) && n < |ss|
    requires ss[0] == Do(s, Admit(callback, deadline))
    ensures || (|s.calls| < |ss[n].calls| && ss[n].calls[|s.calls|] == Admitted(callback, deadline))
            || HasArrived(ss, n, callback, deadline)
  {
    hide Next;
    if n > 0 {
      AcceptedArrives(s, callback, deadline, ss, n - 1);
      assert Next(ss[n - 1], ss[n - 1 + 1]);
      if !HasArrived(ss, n - 1, callback, deadline) {
        AdmittedKeepsTask(ss[n - 1], ss[n], |s.calls|);
        if HasPushed(ss[n - 1], ss[n], |s.calls|) {
          PushedHasArrived(ss[n - 1], ss[n], |ss[n - 1].calls|, |s.calls|);
        }
      }
    }
  }

  // ---- Order and time of the loop ----

  /** A delayed task starts only when it is due, and before every delayed task with a later deadline. */
  lemma StartsEarliestDue(s: State, r: State)
    requires Reachable(s) && Next(s, r) && r.phase.InDelayed? && !s.phase.InDelayed?
    ensures r.phase.task in s.delayed && r.phase.task.deadline <= s.clock
    ensures forall d | d in s.delayed :: r.phase.task.deadline <= d.deadline
  {
    ReachableKeeps(s);
  }

  /**
   * The order of a round. The loop turns to the delayed tasks only with no immediate task queued, to
   * the flag only with nothing due at its last reading of the clock, and to its timeout and then to
   * epoll_wait only after it has found the flag down.
   */
  lemma RoundInOrder(s: State, r: State)
    requires Next(s, r)
    ensures r.phase.Expiring? && !s.phase.Expiring? ==> s.phase.InDelayed? || (s.phase.Draining? && s.tasks == [])
    ensures r.phase.CheckingStop? && !s.phase.CheckingStop? ==>
              s.phase.Peeking? && forall d | d in s.delayed :: d.deadline > s.phase.now
    ensures r.phase.Computing? && !s.phase.Computing? ==> s.phase.CheckingStop? && !s.shutdown
    ensures r.phase.Entering? && !s.phase.Entering? ==>
              && s.phase.Computing? && r.phase.computedAt == s.clock
              && (r.phase.timeout < 0 <==> |s.delayed| == 0)
              && (0 <= r.phase.timeout < I32_MAX ==>
                    exists d :: d in s.delayed && d.deadline < s.clock + (r.phase.timeout + 1) * NANOS_PER_MILLI)
    ensures r.phase.Polling? && !s.phase.Polling? ==> s.phase == Entering(r.phase.timeout, r.phase.computedAt)
  {
    var a :| Enabled(s, a) && r == Do(s, a);
    StepInOrder(s, a);
    if a.Compute? {
      ComputesInOrder(s, a.d);
    }
  }

  lemma StepInOrder(s: State, a: Step)
    requires Enabled(s, a)
    ensures var r := Do(s, a);
            && (r.phase.Expiring? && !s.phase.Expiring? ==> s.phase.InDelayed? || (s.phase.Draining? && s.tasks == []))
            && (r.phase.CheckingStop? && !s.phase.CheckingStop? ==>
                  s.phase.Peeking? && forall d | d in s.delayed :: d.deadline > s.phase.now)
            && (r.phase.Computing? && !s.phase.Computing? ==> s.phase.CheckingStop? && !s.shutdown)
            && (r.phase.Entering? && !s.phase.Entering? ==> a.Compute?)
            && (r.phase.Polling? && !s.phase.Polling? ==> s.phase == Entering(r.phase.timeout, r.phase.computedAt))
  {
    hide TimeoutMs;
  }

  lemma ComputesInOrder(s: State, d: DelayedTask)
    requires Enabled(s, Compute(d))
    ensures var x := Do(s, Compute(d)).phase;
            && x.Entering? && x.computedAt == s.clock && (x.timeout < 0 <==> |s.delayed| == 0)
            && (0 <= x.timeout < I32_MAX ==>
                  exists d :: d in s.delayed && d.deadline < s.clock + (x.timeout + 1) * NANOS_PER_MILLI)
  {
    if |s.delayed| > 0 {
      TimeoutNotEarly(s.delayed, d, s.clock);
    }
  }

  /**
   * The loop leaves only when it finds the flag up, or when epoll_wait fails for good; a signal only
   * starts a new round.
   */
  lemma LeavesOnlyWhenTold(s: State, a: Step)
    requires Enabled(s, a) && !s.phase.Left?
    ensures Do(s, a).phase.Left? <==> (a.CheckStop? && s.shutdown) || a.Fail?
    ensures s.phase.Polling? && Do(s, a).phase != s.phase && !a.Fail? ==>
              Do(s, a).phase.Handling? || Do(s, a).phase.Draining?
  {
    hide TimeoutMs, Blocked;
  }

  /** After the start of shutdown no post is accepted any more: whoever may still push was accepted before. */
  lemma NothingAcceptedAfterShutdown(s: State, r: State, j: nat)
    requires Next(s, r) && s.shutdown && j < |r.calls| && r.calls[j].Admitted?
    ensures r.shutdown && j < |s.calls| && s.calls[j] == r.calls[j]
  {
    hide TimeoutMs, Blocked;
  }
}
