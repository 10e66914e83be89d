/**
 * A call of shutdown returns only after the threads have ended: whoever takes the handles joins the
 * threads. A call that finds the handles taken does not, so of overlapping calls one may return while
 * another one is still joining.
 */
module PoolJoin {
  import opened Basics
  import opened Pool
  import opened PoolShutdown
  import opened PoolTheorems
  import Q = PriorityQueues
  import D = DelayedTasks
  import T = TaskTrackers

  /** Past the point where the handles of the group are taken. */
  predicate PastGroupReap(c: Closer) {
    PastGroupStop(c) && !c.WakingGroup? && !c.ReapingGroup?
  }

  predicate PastTimerReap(c: Closer) {
    c.JoiningTimer? || c.Closed?
  }

  ghost predicate WorkersGone(ws: seq<Worker>) {
    forall i | 0 <= i < |ws| :: ws[i].Exited?
  }

  /** Handles are taken only by a call that joins, and it goes on only when the threads have ended. */
  ghost predicate GroupJoined(p: State) {
    && (!p.group.handles ==> JoiningGroup(true) in p.closers || WorkersGone(p.workers))
    && (forall c | 0 <= c < |p.closers| :: PastGroupReap(p.closers[c]) ==> !p.group.handles)
  }

  ghost predicate TimerJoined(p: State) {
    && (!p.timerHandle ==> JoiningTimer(true) in p.closers || p.timer.phase.Stopped?)
    && (forall c | 0 <= c < |p.closers| :: PastTimerReap(p.closers[c]) ==> !p.timerHandle)
  }

  /** Threads that have ended stay so, and only calls of shutdown take handles or move from join to join. */
  ghost predicate LeavesJoins(p: State, r: State) {
    && (WorkersGone(p.workers) ==> WorkersGone(r.workers))
    && (p.timer.phase.Stopped? ==> r.timer.phase.Stopped?)
    && r.group.handles == p.group.handles && r.timerHandle == p.timerHandle
    && (r.closers == p.closers || r.closers == WakeClosers(p.closers))
  }

  lemma WorkerLeavesJoins(p: State, i: nat, a: WorkStep)
    requires WorkEnabled(p, i, a)
    ensures LeavesJoins(p, DoWork(p, i, a))
  {
  }

  lemma OthersLeaveJoins(p: State, a: Step)
    requires Enabled(p, a) && !a.ByWorker? && !a.ByCloser? && !a.OpenShutdown?
    ensures LeavesJoins(p, Do(p, a))
  {
  }

  lemma LeavesJoinsKeeps(p: State, r: State)
    requires LeavesJoins(p, r) && GroupJoined(p) && TimerJoined(p)
    ensures GroupJoined(r) && TimerJoined(r)
  {
    forall x | x in p.closers && !x.Waiting? ensures x in r.closers {
      var k :| 0 <= k < |p.closers| && p.closers[k] == x;
      assert r.closers[k] == x;
    }
  }

  lemma OpeningKeepsJoins(p: State)
    requires GroupJoined(p) && TimerJoined(p)
    ensures GroupJoined(Do(p, OpenShutdown)) && TimerJoined(Do(p, OpenShutdown))
  {
    assert Do(p, OpenShutdown).closers[..|p.closers|] == p.closers;
  }

  lemma CloserKeepsJoins(p: State, c: nat, a: CloseStep)
    requires CloseEnabled(p, c, a) && GroupJoined(p) && TimerJoined(p)
    ensures GroupJoined(DoClose(p, c, a)) && TimerJoined(DoClose(p, c, a))
  {
    var r := DoClose(p, c, a);
    forall x | x in p.closers && x != p.closers[c] ensures x in r.closers {
      var k :| 0 <= k < |p.closers| && p.closers[k] == x;
      assert r.closers[k] == x;
    }
    assert r.closers[c] in r.closers;
  }

  lemma JoinStep(p: State, a: Step)
    requires Enabled(p, a) && GroupJoined(p) && TimerJoined(p)
    ensures GroupJoined(Do(p, a)) && TimerJoined(Do(p, a))
  {
    hide DoWork, DoPost, DoTimer, DoClose, GroupJoined, TimerJoined, LeavesJoins;
    match a
    case ByWorker(i, b) =>
      WorkerLeavesJoins(p, i, b);
      LeavesJoinsKeeps(p, Do(p, a));
    case OpenShutdown => OpeningKeepsJoins(p);
    case ByCloser(c, b) => CloserKeepsJoins(p, c, b);
    case _ =>
      OthersLeaveJoins(p, a);
      LeavesJoinsKeeps(p, Do(p, a));
  }

  lemma {:induction false} RunJoins(ps: seq<State>, n: nat)
    requires IsRun(ps) && n < |ps|
    ensures GroupJoined(ps[n]) && TimerJoined(ps[n])
  {
    hide Do, Enabled;
    if n > 0 {
      RunJoins(ps, n - 1);
      assert Next(ps[n - 1], ps[n - 1 + 1]);
      var a :| Enabled(ps[n - 1], a) && ps[n] == Do(ps[n - 1], a);
      JoinStep(ps[n - 1], a);
    }
  }

  // ---- Main results ----

  /** When a call has returned, the threads are gone, or another call is still joining them. */
  lemma ReturnedMeansJoined(p: State, c: nat)
    requires Reachable(p) && c < |p.closers| && p.closers[c].Closed?
    ensures WorkersGone(p.workers) || JoiningGroup(true) in p.closers
    ensures p.timer.phase.Stopped? || JoiningTimer(true) in p.closers
  {
    var ps :| IsRun(ps) && ps[|ps| - 1] == p;
    RunJoins(ps, |ps| - 1);
  }

  /** When every call of shutdown has returned, no thread of the pool is left. */
  lemma AllReturnedMeansGone(p: State)
    requires Reachable(p) && p.closers != [] && forall c | 0 <= c < |p.closers| :: p.closers[c].Closed?
    ensures WorkersGone(p.workers) && p.timer.phase.Stopped?
  {
    ReturnedMeansJoined(p, 0);
  }

  lemma FirstReaps(q: State) returns (p: State)
    requires q == PoolTheorems.Start()
    ensures Leads(q, p) && p.workers == [Awake] && p.timer == q.timer && p.timerHandle
    ensures p.closers == [JoiningGroup(true), StoppingGroup] && !p.group.handles && p.tracker.blocking == 0
  {
    LeadsHome(q);
    p := Go(q, q, OpenShutdown);
    p := Go(q, p, OpenShutdown);
    p := Go(q, p, ByCloser(0, StopGroup));
    p := Go(q, p, ByCloser(0, WakeGroup));
    p := Go(q, p, ByCloser(0, ReapGroup));
  }

  lemma SecondReaps(o: State, q: State) returns (p: State)
    requires Leads(o, q) && q.closers == [JoiningGroup(true), StoppingGroup]
    requires q.workers == [Awake] && !q.group.handles
    ensures Leads(o, p) && p.workers == [Awake] && p.timer == q.timer && p.timerHandle == q.timerHandle
    ensures p.closers == [JoiningGroup(true), JoiningGroup(false)]
  {
    p := Go(o, q, ByCloser(1, StopGroup));
    p := Go(o, p, ByCloser(1, WakeGroup));
    p := Go(o, p, ByCloser(1, ReapGroup));
  }

  lemma SecondStopsTimer(o: State, q: State) returns (p: State)
    requires Leads(o, q) && q.closers == [JoiningGroup(true), JoiningGroup(false)]
    requires q.workers == [Awake] && q.timer.phase.Scanning? && q.timerHandle
    ensures Leads(o, p) && p.workers == [Awake] && p.closers == [JoiningGroup(true), ReapingTimer]
    ensures p.timer.phase.Stopped? && p.timerHandle
  {
    p := Go(o, q, ByCloser(1, JoinGroup));
    p := Go(o, p, ByCloser(1, StopTimer));
    p := Go(o, p, ByTimer(Scan(D.DelayedEntry(0, 0, 0))));
    p := Go(o, p, ByCloser(1, WakeTimer));
  }

  /**
   * The other call in `ReturnedMeansJoined` is needed: of two overlapping calls, the one that finds
   * the handles taken returns while a worker is still there.
   */
  lemma OverlappingCallReturnsEarly() returns (p: State)
    ensures Reachable(p) && p.closers == [JoiningGroup(true), Closed] && p.workers == [Awake]
  {
    var o := PoolTheorems.Start();
    p := FirstReaps(o);
    p := SecondReaps(o, p);
    p := SecondStopsTimer(o, p);
    p := Go(o, p, ByCloser(1, ReapTimer));
    p := Go(o, p, ByCloser(1, JoinTimer));
    LeadsFromStart(o, p);
  }
}
