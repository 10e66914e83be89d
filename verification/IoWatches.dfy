/**
 * The file-descriptor watches of the IO task runner (rust_io/io_task_runner.rs): the table
 * `watches`, the interest set of the kernel, and the controllers that hold registrations.
 */
module IoWatches {
  import opened Basics

  datatype WatchMode = Read | Write | ReadWrite

  /** The EPOLLIN and EPOLLOUT bits of an interest or of an event. */
  datatype Mask = Mask(input: bool, output: bool)

  predicate Reads(mode: WatchMode) {
    mode.Read? || mode.ReadWrite?
  }

  predicate Writes(mode: WatchMode) {
    mode.Write? || mode.ReadWrite?
  }

  function EpollEvents(mode: WatchMode): Mask {
    match mode
    case Read => Mask(true, false)
    case Write => Mask(false, true)
    case ReadWrite => Mask(true, true)
  }

  /** `watcher` stands for the weak reference to the object that is called back. */
  datatype WatchEntry = WatchEntry(watcher: nat, persistent: bool, mode: WatchMode, generation: nat)

  /** What a controller remembers of its last registration. */
  datatype Registration = Registration(fd: int, generation: nat)

  /** The runner's side: its table, the kernel's interest set, and the generation counter. */
  datatype Table = Table(wakeFd: int, watches: map<int, WatchEntry>, interest: map<int, Mask>, generations: nat)

  /** The callbacks that one event causes. */
  datatype Dispatch = Dispatch(watch: WatchEntry, canRead: bool, canWrite: bool)

  function NewTable(wakeFd: int): Table {
    Table(wakeFd, map[], map[wakeFd := Mask(true, false)], 0)
  }

  // ---- Operations of the runner ----

  predicate IsCurrent(t: Table, r: Registration) {
    r.fd in t.watches && t.watches[r.fd].generation == r.generation
  }

  /** Forget `fd`, in the table and in the kernel. */
  function Remove(t: Table, fd: int): Table {
    t.(watches := t.watches - {fd}, interest := t.interest - {fd})
  }

  function Unregister(t: Table, r: Registration): Table {
    if IsCurrent(t, r) then Remove(t, r.fd) else t
  }

  /** The first half of a registration: the kernel gets `fd` with the mask of `mode`, new or changed. */
  function Arm(t: Table, fd: int, mode: WatchMode): Table {
    t.(interest := t.interest[fd := EpollEvents(mode)])
  }

  /** The second half, a critical section of the table. */
  function Insert(t: Table, fd: int, w: WatchEntry): Table {
    t.(watches := t.watches[fd := w])
  }

  /**
   * A registration on the IO thread. The kernel may refuse to add `fd`, or to change its mask when
   * it is there already; then only the generation is used up.
   */
  function Register(t: Table, fd: int, persistent: bool, mode: WatchMode, watcher: nat, refused: bool): Table {
    var u := t.(generations := t.generations + 1);
    if refused then u
    else Insert(Arm(u, fd, mode), fd, WatchEntry(watcher, persistent, mode, t.generations))
  }

  function CallbacksOf(t: Table, fd: int, event: Mask): Option<Dispatch> {
    if fd !in t.watches then None else
      var w := t.watches[fd];
      var m := EpollEvents(w.mode);
      Some(Dispatch(w, event.input && m.input, event.output && m.output))
  }

  /** A one-shot watch is consumed by its first event. */
  function AfterEvent(t: Table, fd: int): Table {
    if fd in t.watches && !t.watches[fd].persistent then Remove(t, fd) else t
  }

  // ---- Index agreement ----

  ghost predicate IndexAgrees(t: Table) {
    && t.wakeFd !in t.watches
    && t.interest.Keys == t.watches.Keys + {t.wakeFd}
    && t.interest[t.wakeFd] == Mask(true, false)
    && forall fd | fd in t.watches :: t.interest[fd] == EpollEvents(t.watches[fd].mode)
  }

  /** Every table entry carries a generation of its own, already handed out. */
  ghost predicate GenerationsUnique(t: Table) {
    && (forall fd | fd in t.watches :: t.watches[fd].generation < t.generations)
    && (forall a, b | a in t.watches && b in t.watches && t.watches[a].generation == t.watches[b].generation :: a == b)
  }

  ghost predicate Valid(t: Table) {
    IndexAgrees(t) && GenerationsUnique(t)
  }

  lemma RemoveValid(t: Table, fd: int)
    requires Valid(t) && fd in t.watches
    ensures Valid(Remove(t, fd))
  {
  }

  lemma RegisterValid(t: Table, fd: int, persistent: bool, mode: WatchMode, watcher: nat, refused: bool)
    requires Valid(t) && fd != t.wakeFd
    ensures Valid(Register(t, fd, persistent, mode, watcher, refused))
  {
  }

  /**
   * Registering keeps the index exactly when the descriptor is not the runner's own eventfd. For the
   * eventfd the kernel changes its mask: the loop can still be woken exactly if the mode reads.
   */
  lemma RegisterKeepsIndexIff(t: Table, fd: int, persistent: bool, mode: WatchMode, watcher: nat)
    requires Valid(t)
    ensures var r := Register(t, fd, persistent, mode, watcher, false);
            && (IndexAgrees(r) <==> fd != t.wakeFd)
            && (r.interest[t.wakeFd].input <==> fd != t.wakeFd || mode.Read? || mode.ReadWrite?)
  {
    if fd != t.wakeFd {
      RegisterValid(t, fd, persistent, mode, watcher, false);
    }
  }

  /**
   * Why watches belong to the IO thread. If another thread stops a controller between the two
   * halves of a registration, table and kernel still agree exactly when that controller does not
   * hold the same descriptor at that moment; if it does, the new watch is in the table and the
   * kernel does not know it.
   */
  lemma ForeignStopDuringRegister(t: Table, fd: int, mode: WatchMode, w: WatchEntry, r: Registration)
    requires Valid(t) && fd != t.wakeFd && w.mode == mode
    ensures IndexAgrees(Insert(Unregister(Arm(t, fd, mode), r), fd, w)) <==> !(r.fd == fd && IsCurrent(t, r))
  {
    var u := Insert(Unregister(Arm(t, fd, mode), r), fd, w);
    if r.fd == fd && IsCurrent(t, r) {
      assert fd in u.watches && fd !in u.interest;
    } else {
      assert u.interest.Keys == u.watches.Keys + {u.wakeFd};
    }
  }

  // ---- The runner together with its controllers, over runs ----

  /**
   * `controllers` are all controllers ever made; a dropped one keeps no registration. History:
   * `holder` names the controller behind each table entry, `retired` collects the generations
   * that have left the table, and `fired` lists the dispatches of events, in order.
   */
  datatype State = State(
    table: Table, controllers: seq<Option<Registration>>,
    holder: map<int, nat>, retired: set<nat>, fired: seq<Firing>)

  /** An event of a watched descriptor, and what was dispatched for it. */
  datatype Firing = Firing(fd: int, event: Mask, dispatch: Dispatch)

  datatype Step =
    | NewController
    | Stop(c: nat)    // stop_watching_file_descriptor, or the drop of the controller
    | Watch(c: nat, fd: int, persistent: bool, mode: WatchMode, watcher: nat, refused: bool)
    | Event(fd: int, event: Mask)

  /** Callers never watch the runner's own eventfd. */
  predicate Enabled(s: State, a: Step) {
    match a
    case NewController => true
    case Stop(c) => c < |s.controllers|
    case Watch(c, fd, _, _, _, _) => c < |s.controllers| && fd != s.table.wakeFd
    case Event(fd, _) => fd != s.table.wakeFd
  }

  predicate StopReturns(s: State, c: nat)
    requires c < |s.controllers|
  {
    s.controllers[c].Some? && IsCurrent(s.table, s.controllers[c].value)
  }

  function DoStop(s: State, c: nat): State
    requires c < |s.controllers|
  {
    var r := s.controllers[c];
    var u := s.(controllers := s.controllers[c := None]);
    if StopReturns(s, c) then
      u.(table := Unregister(s.table, r.value), holder := s.holder - {r.value.fd},
         retired := s.retired + {r.value.generation})
    else u
  }

  function DoWatch(s: State, c: nat, fd: int, persistent: bool, mode: WatchMode, watcher: nat, refused: bool): State
    requires c < |s.controllers|
  {
    var t := Register(s.table, fd, persistent, mode, watcher, refused);
    if refused then s.(table := t)
    else s.(table := t, controllers := s.controllers[c := Some(Registration(fd, s.table.generations))],
            holder := s.holder[fd := c],
            retired := s.retired + if fd in s.table.watches then {s.table.watches[fd].generation} else {})
  }

  function DoEvent(s: State, fd: int, event: Mask): State {
    if fd !in s.table.watches then s else
      var w := s.table.watches[fd];
      var u := s.(table := AfterEvent(s.table, fd),
                  fired := s.fired + [Firing(fd, event, CallbacksOf(s.table, fd, event).value)]);
      if w.persistent then u
      else u.(holder := s.holder - {fd}, retired := s.retired + {w.generation})
  }

  function Do(s: State, a: Step): State
    requires Enabled(s, a)
  {
    match a
    case NewController => s.(controllers := s.controllers + [None])
    case Stop(c) => DoStop(s, c)
    case Watch(c, fd, persistent, mode, watcher, refused) =>
      DoWatch(DoStop(s, c), c, fd, persistent, mode, watcher, refused)
    case Event(fd, event) => DoEvent(s, fd, event)
  }

  ghost predicate Init(s: State) {
    exists wakeFd :: s == State(NewTable(wakeFd), [], map[], {}, [])
  }

  /** A table entry and the controller that holds it name each other. */
  ghost predicate HoldersAgree(s: State) {
    && s.holder.Keys == s.table.watches.Keys
    && (forall fd | fd in s.holder ::
          && s.holder[fd] < |s.controllers|
          && s.controllers[s.holder[fd]] == Some(Registration(fd, s.table.watches[fd].generation)))
    && (forall c | 0 <= c < |s.controllers| && s.controllers[c].Some? ::
          s.controllers[c].value.generation < s.table.generations)
    && (forall c, d | 0 <= c < d < |s.controllers| && s.controllers[c].Some? && s.controllers[d].Some? ::
          s.controllers[c].value.generation != s.controllers[d].value.generation)
  }

  /** A retired generation is not in the table, and will not be handed out again. */
  ghost predicate RetiredForGood(s: State) {
    && (forall g | g in s.retired :: g < s.table.generations)
    && (forall fd | fd in s.table.watches :: s.table.watches[fd].generation !in s.retired)
  }

  /** A callback is due exactly if the event and the mode of the watch have its direction. */
  predicate RightCallbacks(f: Firing) {
    && (f.dispatch.canRead <==> f.event.input && Reads(f.dispatch.watch.mode))
    && (f.dispatch.canWrite <==> f.event.output && Writes(f.dispatch.watch.mode))
  }

  /** Every dispatch has the right callbacks; a one-shot watch is retired by its dispatch, and had no other. */
  ghost predicate DispatchesRight(s: State) {
    && (forall k | 0 <= k < |s.fired| ::
          RightCallbacks(s.fired[k])
          && (s.fired[k].dispatch.watch.persistent || s.fired[k].dispatch.watch.generation in s.retired))
    && (forall k, l | 0 <= k < l < |s.fired| ::
          s.fired[k].dispatch.watch.generation == s.fired[l].dispatch.watch.generation ==>
            s.fired[k].dispatch.watch.persistent)
  }

  ghost predicate Inv(s: State) {
    Valid(s.table) && HoldersAgree(s) && RetiredForGood(s) && DispatchesRight(s)
  }

  lemma StopKeeps(s: State, c: nat)
    requires Inv(s) && c < |s.controllers|
    ensures Inv(DoStop(s, c))
  {
    if StopReturns(s, c) {
      RemoveValid(s.table, s.controllers[c].value.fd);
    }
  }

  lemma WatchKeeps(s: State, c: nat, fd: int, persistent: bool, mode: WatchMode, watcher: nat, refused: bool)
    requires Inv(s) && c < |s.controllers| && s.controllers[c].None? && fd != s.table.wakeFd
    ensures Inv(DoWatch(s, c, fd, persistent, mode, watcher, refused))
  {
    RegisterValid(s.table, fd, persistent, mode, watcher, refused);
    WatchKeepsHolders(s, c, fd, persistent, mode, watcher, refused);
    WatchKeepsRetired(s, c, fd, persistent, mode, watcher, refused);
    hide Valid, HoldersAgree, RetiredForGood;
  }

  lemma WatchKeepsRetired(s: State, c: nat, fd: int, persistent: bool, mode: WatchMode, watcher: nat, refused: bool)
    requires Valid(s.table) && RetiredForGood(s) && DispatchesRight(s) && c < |s.controllers| && s.controllers[c].None?
    ensures RetiredForGood(DoWatch(s, c, fd, persistent, mode, watcher, refused))
    ensures DispatchesRight(DoWatch(s, c, fd, persistent, mode, watcher, refused))
  {
  }

  lemma WatchKeepsHolders(s: State, c: nat, fd: int, persistent: bool, mode: WatchMode, watcher: nat, refused: bool)
    requires HoldersAgree(s) && c < |s.controllers| && s.controllers[c].None?
    ensures HoldersAgree(DoWatch(s, c, fd, persistent, mode, watcher, refused))
  {
  }

  lemma EventKeeps(s: State, fd: int, event: Mask)
    requires Inv(s)
    ensures Inv(DoEvent(s, fd, event))
  {
    hide CallbacksOf, DispatchesRight;
    if fd in s.table.watches {
      RemoveValid(s.table, fd);
      DispatchIsRight(s, fd, event);
    }
  }

  /** A watch in the table was not retired, so no dispatch of a one-shot watch had its generation. */
  lemma DispatchIsRight(s: State, fd: int, event: Mask)
    requires RetiredForGood(s) && DispatchesRight(s) && fd in s.table.watches
    ensures DispatchesRight(DoEvent(s, fd, event))
  {
    var r := DoEvent(s, fd, event);
    assert r.fired[..|s.fired|] == s.fired;
    forall k | 0 <= k < |s.fired| ensures r.fired[k] == s.fired[k] {
    }
  }

  lemma InvStep(s: State, a: Step)
    requires Inv(s) && Enabled(s, a)
    ensures Inv(Do(s, a))
  {
    match a
    case NewController =>
    case Stop(c) => StopKeeps(s, c);
    case Watch(c, fd, persistent, mode, watcher, refused) =>
      StopKeeps(s, c);
      WatchKeeps(DoStop(s, c), c, fd, persistent, mode, watcher, refused);
    case Event(fd, event) => EventKeeps(s, fd, event);
  }

  ghost predicate Next(s: State, r: State) {
    exists a :: Enabled(s, a) && r == Do(s, a)
  }

  ghost predicate IsPath(ss: seq<State>) {
    ss != [] && forall n | 0 <= n < |ss| - 1 :: Next(ss[n], ss[n + 1])
  }

  ghost predicate Reachable(s: State) {
    exists ss :: IsPath(ss) && Init(ss[0]) && ss[|ss| - 1] == s
  }

  lemma {:induction false} PathKeeps(ss: seq<State>, n: nat)
    requires IsPath(ss) && n < |ss| && Inv(ss[0])
    ensures Inv(ss[n])
  {
    if n > 0 {
      PathKeeps(ss, n - 1);
      assert Next(ss[n - 1], ss[n - 1 + 1]);
      var a :| Enabled(ss[n - 1], a) && ss[n] == Do(ss[n - 1], a);
      InvStep(ss[n - 1], a);
    }
  }

  lemma ReachableKeeps(s: State)
    requires Reachable(s)
    ensures Inv(s)
  {
    var ss :| IsPath(ss) && Init(ss[0]) && ss[|ss| - 1] == s;
    PathKeeps(ss, |ss| - 1);
  }

  // ---- Main results ----

  /** On every run, table and interest set agree: the same descriptors, each with the mask of its mode. */
  lemma TableMatchesKernel(s: State, fd: int)
    requires Reachable(s)
    ensures fd in s.table.interest && fd != s.table.wakeFd <==> fd in s.table.watches
    ensures fd in s.table.watches ==>
              && (s.table.interest[fd].input <==> Reads(s.table.watches[fd].mode))
              && (s.table.interest[fd].output <==> Writes(s.table.watches[fd].mode))
    ensures s.table.wakeFd in s.table.interest && s.table.interest[s.table.wakeFd] == Mask(true, false)
  {
    ReachableKeeps(s);
  }

  /** Stopping a controller returns true exactly when one of the current watches is its own. */
  lemma StopReturnsTrueIff(s: State, c: nat)
    requires Reachable(s) && c < |s.controllers|
    ensures StopReturns(s, c) <==> exists fd :: fd in s.holder && s.holder[fd] == c
  {
    ReachableKeeps(s);
    if StopReturns(s, c) {
      var fd := s.controllers[c].value.fd;
      assert s.controllers[s.holder[fd]] == Some(Registration(fd, s.table.watches[fd].generation));
      assert fd in s.holder && s.holder[fd] == c;
    }
  }

  /** Stopping or dropping a controller removes its own watch, if it still has one, and no other. */
  lemma StopRemovesOnlyItsOwn(s: State, c: nat, fd: int)
    requires Reachable(s) && c < |s.controllers| && fd in s.table.watches
    ensures var t := Do(s, Stop(c)).table;
            if fd in s.holder && s.holder[fd] == c then fd !in t.watches && fd !in t.interest
            else fd in t.watches && t.watches[fd] == s.table.watches[fd]
                 && fd in t.interest && t.interest[fd] == s.table.interest[fd]
  {
    ReachableKeeps(s);
    assert s.controllers[s.holder[fd]] == Some(Registration(fd, s.table.watches[fd].generation));
  }

  /** What a registration leaves behind: the watch that was asked for, and its directions in the kernel. */
  lemma WatchInstalls(s: State, c: nat, fd: int, persistent: bool, mode: WatchMode, watcher: nat)
    requires Reachable(s) && c < |s.controllers| && fd != s.table.wakeFd
    ensures var t := Do(s, Watch(c, fd, persistent, mode, watcher, false)).table;
            && fd in t.watches && fd in t.interest
            && t.watches[fd] == WatchEntry(watcher, persistent, mode, s.table.generations)
            && (t.interest[fd].input <==> Reads(mode)) && (t.interest[fd].output <==> Writes(mode))
  {
  }

  /**
   * An event of a watched descriptor is dispatched once, to the watch in the table, and calls back for
   * the directions that the event and the mode share; any other event is dispatched to nobody.
   */
  lemma EventDispatches(s: State, fd: int, event: Mask)
    requires Reachable(s) && fd != s.table.wakeFd
    ensures var r := Do(s, Event(fd, event));
            if fd !in s.table.watches then r == s
            else
              && |r.fired| == |s.fired| + 1 && r.fired[..|s.fired|] == s.fired
              && r.fired[|s.fired|].fd == fd && r.fired[|s.fired|].event == event
              && r.fired[|s.fired|].dispatch.watch == s.table.watches[fd]
              && RightCallbacks(r.fired[|s.fired|])
              && (fd in r.table.watches <==> s.table.watches[fd].persistent)
  {
  }

  /** Over every run each dispatch has the right callbacks, and a one-shot watch is dispatched at most once. */
  lemma OneShotFiresOnce(s: State, k: nat, l: nat)
    requires Reachable(s) && k < l < |s.fired| && !s.fired[k].dispatch.watch.persistent
    ensures RightCallbacks(s.fired[k]) && RightCallbacks(s.fired[l])
    ensures s.fired[k].dispatch.watch.generation != s.fired[l].dispatch.watch.generation
  {
    ReachableKeeps(s);
  }

  /** Generations only grow, so one that was handed out is never handed out again. */
  lemma GenerationsGrow(s: State, a: Step)
    requires Enabled(s, a)
    ensures Do(s, a).table.generations >= s.table.generations + if a.Watch? then 1 else 0
    ensures s.retired <= Do(s, a).retired
  {
  }

  /** One step adds at most one generation to the history of events, and none that is retired. */
  lemma FiresOnlyLive(s: State, a: Step, g: nat)
    requires Inv(s) && Enabled(s, a) && g in s.retired
    ensures var r := Do(s, a);
            || r.fired == s.fired
            || (&& |r.fired| == |s.fired| + 1 && r.fired[..|s.fired|] == s.fired
                && r.fired[|s.fired|].dispatch.watch.generation != g)
  {
  }

  /** What an event adds to the history is a generation that has not been retired. */
  lemma {:induction false} RetiredNeverFires(ss: seq<State>, n: nat, g: nat)
    requires IsPath(ss) && Inv(ss[0]) && n < |ss| && g in ss[0].retired
    ensures g in ss[n].retired
    ensures |ss[0].fired| <= |ss[n].fired|
    ensures forall k | |ss[0].fired| <= k < |ss[n].fired| :: ss[n].fired[k].dispatch.watch.generation != g
  {
    hide Inv, Do, Enabled;
    if n > 0 {
      RetiredNeverFires(ss, n - 1, g);
      PathKeeps(ss, n - 1);
      assert Next(ss[n - 1], ss[n - 1 + 1]);
      var a :| Enabled(ss[n - 1], a) && ss[n] == Do(ss[n - 1], a);
      GenerationsGrow(ss[n - 1], a);
      FiresOnlyLive(ss[n - 1], a, g);
    }
  }

  /** A one-shot watch fires at most once, a stopped or replaced one never again. */
  lemma LeavingTheTableIsFinal(ss: seq<State>, n: nat, fd: int)
    requires IsPath(ss) && Inv(ss[0]) && 1 <= n < |ss| && fd in ss[0].table.watches
    requires fd !in ss[1].table.watches || ss[1].table.watches[fd] != ss[0].table.watches[fd]
    ensures var g := ss[0].table.watches[fd].generation;
            && |ss[1].fired| <= |ss[n].fired|
            && forall k | |ss[1].fired| <= k < |ss[n].fired| :: ss[n].fired[k].dispatch.watch.generation != g
  {
    var s, g := ss[0], ss[0].table.watches[fd].generation;
    assert Next(ss[0], ss[0 + 1]);
    var a :| Enabled(s, a) && ss[1] == Do(s, a);
    LeavingRetires(s, a, fd);
    InvStep(s, a);
    var tail := ss[1..];
    forall k | 0 <= k < |tail| - 1 ensures Next(tail[k], tail[k + 1]) {
      assert Next(ss[k + 1], ss[k + 1 + 1]);
    }
    RetiredNeverFires(tail, n - 1, g);
  }

  lemma LeavingRetires(s: State, a: Step, fd: int)
    requires Inv(s) && Enabled(s, a) && fd in s.table.watches
    requires var t := Do(s, a).table; fd !in t.watches || t.watches[fd] != s.table.watches[fd]
    ensures s.table.watches[fd].generation in Do(s, a).retired
  {
  }
}
