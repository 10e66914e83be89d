/**
 * The repeating timer (rust_task/timer.rs). Each `start` makes a new epoch, the shared inner state
 * of one start. Pending ticks refer to their epoch weakly; stopping drops the timer's strong
 * reference.
 *
 * The runner is sequenced: one tick runs at a time, as `TimerInPool` derives for the runners of the
 * pool. A pending tick may be run at any moment, whatever its delay.
 */
module RepeatingTimers {
  import opened Basics

  /** The tick that the runner is executing. */
  datatype Tick =
    | Idle
    | Started(epoch: nat)    // about to upgrade its weak reference
    | Upgraded(epoch: nat)   // holds a strong reference, about to post the next tick
    | Scheduled(epoch: nat)  // next tick posted, about to drop the strong reference
    | Calling(epoch: nat)    // about to invoke the callback
    | InCallback(epoch: nat)

  /**
   * `starting` and `ending` are the epochs whose call of `start` is on the stack, before and after
   * it has posted the first tick; the call holds a strong reference until it returns. `invoked`
   * is the history of callback invocations.
   */
  datatype State = State(
    epochs: nat, active: Option<nat>, starting: set<nat>, ending: set<nat>,
    pending: multiset<nat>, tick: Tick, invoked: multiset<nat>)

  const INIT: State := State(0, None, {}, {}, multiset{}, Idle, multiset{})

  /** Some strong reference to the inner state of epoch `e` exists. */
  predicate Alive(s: State, e: nat) {
    s.active == Some(e) || e in s.starting || e in s.ending || s.tick == Upgraded(e) || s.tick == Scheduled(e)
  }

  datatype Step =
    | Start
    | ScheduleFirst(e: nat)
    | ReturnFromStart(e: nat)
    | Stop
    | RunTick(e: nat)
    | Upgrade
    | ScheduleNext
    | Release
    | Call
    | Finish

  predicate Enabled(s: State, a: Step) {
    match a
    case Start => true
    case ScheduleFirst(e) => e in s.starting
    case ReturnFromStart(e) => e in s.ending
    case Stop => true
    case RunTick(e) => s.tick.Idle? && e in s.pending
    case Upgrade => s.tick.Started?
    case ScheduleNext => s.tick.Upgraded?
    case Release => s.tick.Scheduled?
    case Call => s.tick.Calling?
    case Finish => s.tick.InCallback?
  }

  /** `schedule_next` posts a tick if the weak reference that it is given can be upgraded. */
  function Post(s: State, e: nat): multiset<nat> {
    if Alive(s, e) then s.pending + multiset{e} else s.pending
  }

  function Do(s: State, a: Step): State
    requires Enabled(s, a)
  {
    match a
    case Start => s.(epochs := s.epochs + 1, active := Some(s.epochs), starting := s.starting + {s.epochs})
    case ScheduleFirst(e) => s.(starting := s.starting - {e}, ending := s.ending + {e}, pending := Post(s, e))
    case ReturnFromStart(e) => s.(ending := s.ending - {e})
    case Stop => s.(active := None)
    case RunTick(e) => s.(pending := s.pending - multiset{e}, tick := Started(e))
    case Upgrade => s.(tick := if Alive(s, s.tick.epoch) then Upgraded(s.tick.epoch) else Idle)
    case ScheduleNext => s.(pending := Post(s, s.tick.epoch), tick := Scheduled(s.tick.epoch))
    case Release => s.(tick := Calling(s.tick.epoch))
    case Call => s.(invoked := s.invoked + multiset{s.tick.epoch}, tick := InCallback(s.tick.epoch))
    case Finish => s.(tick := Idle)
  }

  ghost predicate Next(s: State, r: State) {
    exists a :: Enabled(s, a) && r == Do(s, a)
  }

  ghost predicate IsPath(ss: seq<State>) {
    ss != [] && forall n | 0 <= n < |ss| - 1 :: Next(ss[n], ss[n + 1])
  }

  ghost predicate Reachable(s: State) {
    exists ss :: IsPath(ss) && ss[0] == INIT && ss[|ss| - 1] == s
  }

  lemma ReachableNext(s: State, r: State)
    requires Reachable(s) && Next(s, r)
    ensures Reachable(r)
  {
    var ss :| IsPath(ss) && ss[0] == INIT && ss[|ss| - 1] == s;
    var rs := ss + [r];
    forall n | 0 <= n < |rs| - 1 ensures Next(rs[n], rs[n + 1]) {
      if n < |ss| - 1 {
        assert Next(ss[n], ss[n + 1]);
      } else {
        assert rs[n] == s;
      }
    }
    assert IsPath(rs);
  }

  // ---- One tick per epoch ----

  /** Ticks of epoch `e` that are posted, or owed by a call of `start` or by the running tick. */
  function Ticks(s: State, e: nat): nat {
    s.pending[e]
    + (if e in s.starting then 1 else 0)
    + (if s.tick == Started(e) || s.tick == Upgraded(e) then 1 else 0)
  }

  ghost predicate KnownEpochs(s: State) {
    && (s.active.Some? ==> s.active.value < s.epochs)
    && (forall e | e in s.starting :: e < s.epochs)
    && (forall e | e in s.ending :: e < s.epochs)
    && (forall e | e in s.pending :: e < s.epochs)
    && (forall e | e in s.invoked :: e < s.epochs)
    && (!s.tick.Idle? ==> s.tick.epoch < s.epochs)
  }

  ghost predicate Inv(s: State) {
    && KnownEpochs(s)
    && s.starting !! s.ending
    && (forall e: nat :: Ticks(s, e) <= 1)
    && (forall e: nat :: Alive(s, e) ==> Ticks(s, e) == 1)
  }

  lemma TicksStep(s: State, a: Step, e: nat)
    requires Inv(s) && Enabled(s, a)
    ensures Ticks(Do(s, a), e) <= 1
    ensures Alive(Do(s, a), e) ==> Ticks(Do(s, a), e) == 1
  {
    assert Ticks(s, e) <= 1 && (Alive(s, e) ==> Ticks(s, e) == 1);
    assert e >= s.epochs ==> Ticks(s, e) == 0;
    if a.ScheduleFirst? {
      assert Alive(s, a.e);
    } else if a.ScheduleNext? {
      assert Alive(s, s.tick.epoch);
    }
  }

  lemma InvStep(s: State, a: Step)
    requires Inv(s) && Enabled(s, a)
    ensures Inv(Do(s, a))
  {
    var r := Do(s, a);
    forall e: nat ensures Ticks(r, e) <= 1 && (Alive(r, e) ==> Ticks(r, e) == 1) {
      TicksStep(s, a, e);
    }
  }

  lemma {:induction false} PathKeeps(ss: seq<State>, n: nat)
    requires IsPath(ss) && n < |ss| && Inv(ss[0])
    ensures Inv(ss[n])
  {
    hide Inv, Do, Enabled;
    if n > 0 {
      PathKeeps(ss, n - 1);
      assert Next(ss[n - 1], ss[n - 1 + 1]);
      var a :| Enabled(ss[n - 1], a) && ss[n] == Do(ss[n - 1], a);
      InvStep(ss[n - 1], a);
    }
  }

  /**
   * Each start has at most one pending tick at any time. While it is the active one it has
   * exactly one, pending or about to be posted: a running timer never dies out.
   */
  lemma OneTickPerStart(s: State, e: nat)
    requires Reachable(s)
    ensures s.pending[e] <= Ticks(s, e) <= 1
    ensures s.active == Some(e) ==> Ticks(s, e) == 1
  {
    var ss :| IsPath(ss) && ss[0] == INIT && ss[|ss| - 1] == s;
    PathKeeps(ss, |ss| - 1);
    assert s.active == Some(e) ==> Alive(s, e);
  }

  // ---- Cancellation ----

  /** Stopped or restarted, and the call that started the epoch has returned. */
  predicate Cancelled(s: State, e: nat) {
    e < s.epochs && s.active != Some(e) && e !in s.starting && e !in s.ending
  }

  /** The tick of epoch `e` that is already past its upgrade, and has not called back yet. */
  function InFlight(s: State, e: nat): nat {
    if s.tick == Upgraded(e) || s.tick == Scheduled(e) || s.tick == Calling(e) then 1 else 0
  }

  lemma CancelledStep(s: State, a: Step, e: nat)
    requires Enabled(s, a) && Cancelled(s, e)
    ensures Cancelled(Do(s, a), e)
    ensures Do(s, a).invoked[e] + InFlight(Do(s, a), e) <= s.invoked[e] + InFlight(s, e)
  {
  }

  lemma CancelledNext(s: State, r: State, e: nat)
    requires Next(s, r) && Cancelled(s, e)
    ensures Cancelled(r, e) && r.invoked[e] + InFlight(r, e) <= s.invoked[e] + InFlight(s, e)
  {
    var a :| Enabled(s, a) && r == Do(s, a);
    CancelledStep(s, a, e);
  }

  /**
   * Once an epoch is cancelled, its callback is invoked at most by the tick that was already past
   * its upgrade; if there is none, never again.
   */
  lemma {:induction false} CancelledEpochIsSilent(ss: seq<State>, n: nat, e: nat)
    requires IsPath(ss) && n < |ss| && Cancelled(ss[0], e)
    ensures Cancelled(ss[n], e)
    ensures ss[n].invoked[e] + InFlight(ss[n], e) <= ss[0].invoked[e] + InFlight(ss[0], e)
  {
    if n > 0 {
      CancelledEpochIsSilent(ss, n - 1, e);
      assert Next(ss[n - 1], ss[n - 1 + 1]);
      CancelledNext(ss[n - 1], ss[n], e);
    }
  }

  /** The timer, or a call of `start` on the stack, holds epoch `e`. */
  predicate Held(s: State, e: nat) {
    s.active == Some(e) || e in s.starting || e in s.ending
  }

  /** The next step towards a callback of epoch `e`, which is held. */
  function Toward(s: State, e: nat): Step {
    if e in s.starting then ScheduleFirst(e)
    else match s.tick
      case Idle => RunTick(e)
      case Started(_) => Upgrade
      case Upgraded(_) => ScheduleNext
      case Scheduled(_) => Release
      case Calling(_) => Call
      case InCallback(_) => Finish
  }

  /** How many steps there are at most from `tick` to the next callback of epoch `e`. */
  function Distance(tick: Tick, e: nat): nat {
    match tick
    case Idle => 5
    case Started(x) => if x == e then 4 else 10
    case Upgraded(x) => if x == e then 3 else 9
    case Scheduled(x) => if x == e then 2 else 8
    case Calling(x) => if x == e then 1 else 7
    case InCallback(_) => 6
  }

  lemma TowardStep(s: State, e: nat)
    requires Inv(s) && Held(s, e)
    ensures Enabled(s, Toward(s, e))
    ensures var r := Do(s, Toward(s, e));
      && Inv(r) && Held(r, e) && r.active == s.active
      && if e in s.starting then e !in r.starting && r.invoked == s.invoked
         else if s.tick == Calling(e) then e !in r.starting && r.invoked[e] == s.invoked[e] + 1
         else e !in r.starting && r.invoked[e] == s.invoked[e] && Distance(r.tick, e) < Distance(s.tick, e)
  {
    assert Alive(s, e) && Ticks(s, e) == 1;
    InvStep(s, Toward(s, e));
  }

  /**
   * While the timer is active its ticks can call back any number of times. So they can while the call
   * of `start` is on the stack, and no stop keeps them from it.
   */
  lemma {:induction false} MayFire(s: State, e: nat, times: nat) returns (ss: seq<State>)
    requires Inv(s) && Held(s, e) && s.invoked[e] <= times
    ensures IsPath(ss) && ss[0] == s && ss[|ss| - 1].active == s.active
    ensures ss[|ss| - 1].invoked[e] == times
    decreases times - s.invoked[e], e in s.starting, Distance(s.tick, e)
  {
    if s.invoked[e] == times {
      ss := [s];
    } else {
      TowardStep(s, e);
      var r := Do(s, Toward(s, e));
      assert Next(s, r);
      var rest := MayFire(r, e, times);
      ss := [s] + rest;
      forall n | 0 <= n < |ss| - 1 ensures Next(ss[n], ss[n + 1]) {
        assert n > 0 ==> Next(rest[n - 1], rest[n - 1 + 1]);
      }
    }
  }

  /** From `s` on, the callback of epoch `e` is invoked only by a tick already past its upgrade. */
  ghost predicate Silent(s: State, e: nat) {
    forall ss: seq<State>, n | IsPath(ss) && ss[0] == s && 0 <= n < |ss| ::
      ss[n].invoked[e] <= s.invoked[e] + InFlight(s, e)
  }

  /** A stop or a restart silences an epoch if and only if the call that started it has returned. */
  lemma SilentIffStartHasReturned(s: State, e: nat)
    requires Reachable(s) && e < s.epochs && s.active != Some(e)
    ensures Silent(s, e) <==> e !in s.starting && e !in s.ending
  {
    if Cancelled(s, e) {
      forall ss: seq<State>, n | IsPath(ss) && ss[0] == s && 0 <= n < |ss|
        ensures ss[n].invoked[e] <= s.invoked[e] + InFlight(s, e)
      {
        CancelledEpochIsSilent(ss, n, e);
      }
    } else {
      var past :| IsPath(past) && past[0] == INIT && past[|past| - 1] == s;
      PathKeeps(past, |past| - 1);
      var ss := MayFire(s, e, s.invoked[e] + InFlight(s, e) + 1);
      assert ss[|ss| - 1].invoked[e] > s.invoked[e] + InFlight(s, e);
    }
  }

  /** So stopping, or starting anew, silences every epoch whose call of `start` has returned. */
  lemma StopAndRestartSilence(s: State, e: nat)
    requires Reachable(s) && e < s.epochs && e !in s.starting && e !in s.ending
    ensures Silent(Do(s, Step.Stop), e) && Silent(Do(s, Step.Start), e)
  {
    forall a | a == Step.Stop || a == Step.Start ensures Silent(Do(s, a), e) {
      assert Next(s, Do(s, a));
      ReachableNext(s, Do(s, a));
      KnownInReach(s);
      SilentIffStartHasReturned(Do(s, a), e);
    }
  }

  lemma KnownInReach(s: State)
    requires Reachable(s)
    ensures KnownEpochs(s)
  {
    var ss :| IsPath(ss) && ss[0] == INIT && ss[|ss| - 1] == s;
    PathKeeps(ss, |ss| - 1);
  }

  /** A start that has returned takes effect: from then on its callback can be invoked any number of times. */
  lemma StartTakesEffect(s: State, times: nat) returns (ss: seq<State>)
    requires Reachable(s)
    ensures IsPath(ss) && ss[|ss| - 1].invoked[s.epochs] == times
    ensures var e, q := s.epochs, Do(s, Step.Start);
            && Enabled(q, ScheduleFirst(e)) && Enabled(Do(q, ScheduleFirst(e)), ReturnFromStart(e))
            && ss[0] == Do(Do(q, ScheduleFirst(e)), ReturnFromStart(e))
  {
    var past :| IsPath(past) && past[0] == INIT && past[|past| - 1] == s;
    PathKeeps(past, |past| - 1);
    var e := s.epochs;
    var q := Do(s, Step.Start);
    var r := Do(q, ScheduleFirst(e));
    InvStep(s, Step.Start);
    InvStep(q, ScheduleFirst(e));
    InvStep(r, ReturnFromStart(e));
    ss := MayFire(Do(r, ReturnFromStart(e)), e, times);
  }

  /** A tick that runs alone leaves one pending tick of the active epoch, and none of its own otherwise. */
  lemma TickAlone(s: State, r: State, e: nat)
    requires Inv(s) && s.tick.Idle? && s.starting == s.ending == {} && e in s.pending
    requires r == s.(pending := r.pending, invoked := r.invoked) && r.invoked <= s.invoked + multiset{e}
    requires r.pending == if s.active == Some(e) then s.pending else s.pending - multiset{e}
    ensures Inv(r)
  {
    forall k: nat ensures Ticks(r, k) <= 1 && (Alive(r, k) ==> Ticks(r, k) == 1) {
      assert Ticks(s, k) <= 1 && (Alive(s, k) ==> Ticks(s, k) == 1);
    }
  }

  // ---- The timer itself ----

  /** What a callback does to its own timer. */
  datatype Reaction = Nothing | Stops | Restarts

  /** The timer and the ticks it has on its runner. Each method runs to its end without interference. */
  class RepeatingTimer {
    var epochs: nat
    var active: Option<nat>
    var pending: multiset<nat>
    var invoked: multiset<nat>

    /** Between the calls nothing is on the stack and no tick is running. */
    function Model(): State
      reads this
    {
      State(epochs, active, {}, {}, pending, Idle, invoked)
    }

    constructor ()
      ensures Model() == INIT
    {
      epochs, active, pending, invoked := 0, None, multiset{}, multiset{};
    }

    /** A new epoch replaces the old one, and has exactly one tick pending. */
    method Start()
      requires Inv(Model())
      modifies this`epochs, this`active, this`pending
      ensures Inv(Model())
      ensures active == Some(old(epochs)) && epochs == old(epochs) + 1
      ensures pending == old(pending) + multiset{old(epochs)} && pending[old(epochs)] == 1
    {
      assert Ticks(Model(), epochs) == 0;
      ghost var s := Do(Model(), Step.Start);
      InvStep(Model(), Step.Start);
      InvStep(s, ScheduleFirst(s.epochs - 1));
      InvStep(Do(s, ScheduleFirst(s.epochs - 1)), ReturnFromStart(s.epochs - 1));
      pending := pending + multiset{epochs};
      active := Some(epochs);
      epochs := epochs + 1;
      assert Model() == Do(Do(s, ScheduleFirst(s.epochs - 1)), ReturnFromStart(s.epochs - 1));
    }

    method Stop()
      requires Inv(Model())
      modifies this`active
      ensures Inv(Model()) && active == None
    {
      InvStep(Model(), Step.Stop);
      active := None;
    }

    method IsRunning() returns (running: bool)
      ensures running <==> active.Some?
    {
      running := active.Some?;
    }

    /**
     * One pending tick, run alone. A tick of the active epoch posts its successor and invokes the
     * callback, which may stop or restart the timer; any other tick disappears without a trace.
     */
    method RunTick(e: nat, reaction: Reaction)
      requires Inv(Model()) && e in pending
      modifies this
      ensures Inv(Model())
      ensures old(active) != Some(e) ==>
                pending == old(pending) - multiset{e} && invoked == old(invoked)
                && active == old(active) && epochs == old(epochs)
      ensures old(active) == Some(e) ==>
                && invoked == old(invoked) + multiset{e}
                && match reaction
                   case Nothing => pending == old(pending) && active == Some(e) && epochs == old(epochs)
                   case Stops => pending == old(pending) && active == None && epochs == old(epochs)
                   case Restarts =>
                     && pending == old(pending) + multiset{old(epochs)}
                     && active == Some(old(epochs)) && epochs == old(epochs) + 1
    {
      hide Inv, Ticks, Alive;
      ghost var q := Model();
      pending := pending - multiset{e};
      var alive := active == Some(e);
      if alive {
        pending := pending + multiset{e};
        invoked := invoked + multiset{e};
        assert pending == q.pending;
      }
      TickAlone(q, Model(), e);
      if alive {
        match reaction
        case Nothing =>
        case Stops => Stop();
        case Restarts => Start();
      }
    }
  }
}
