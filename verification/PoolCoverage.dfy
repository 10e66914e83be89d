/**
 * What every step of the pool keeps, part two: no work is stranded.
 *
 * A queue entry may be thrown away, when its worker finds the sequence owned. The work it stood
 * for is then in the hands of the owner, which looks at the sequence again after it has cleared
 * the flag.
 */
module PoolCoverage {
  import opened Basics
  import opened Pool
  import opened PoolExclusion
  import S = Sequences
  import Q = PriorityQueues
  import D = DelayedTasks

  ghost predicate Queued(heap: set<Q.Entry>, s: nat) {
    exists e :: e in heap && e.source == s
  }

  /** Some thread or some queue entry will bring a worker to look at sequence `s`. */
  ghost predicate Covered(p: State, s: nat) {
    || Queued(p.group.queue.heap, s)
    || Pushed(s) in p.posts
    || p.timer.phase == Carrying(s)
    || Attended(p.workers, s)
  }

  /** The timer heap has an entry for `s` at time `r`, or a poster is about to add one. */
  ghost predicate Timed(p: State, s: nat, r: nat) {
    (exists e :: e in p.timer.heap && e.source == s && e.readyTime == r) || Adding(s, r) in p.posts
  }

  /** A delayed task has its timer entry, or its time has come and its sequence is covered. */
  ghost predicate DelayCovered(p: State, s: nat, r: nat) {
    Timed(p, s, r) || (r <= p.clock && Covered(p, s))
  }

  ghost predicate CellCovered(p: State, s: nat)
    requires s < |p.cells|
  {
    && (p.cells[s].q.immediate != [] ==> Covered(p, s))
    && (forall t | t in p.cells[s].q.delayed :: DelayCovered(p, s, S.ReadyAt(t)))
  }

  /** No stranded work, immediate or delayed. */
  ghost predicate NothingStranded(p: State) {
    forall s | 0 <= s < |p.cells| :: CellCovered(p, s)
  }

  // ---- Workers ----

  /** The worker looks again, sees nothing ready, and lets the sequence go. */
  ghost predicate LetsGo(p: State, i: nat, a: WorkStep, s: nat)
    requires WorkEnabled(p, i, a) && s < |p.cells|
  {
    a.Recheck? && p.workers[i].source == s && !S.HasReady(p.cells[s].q, p.clock)
  }

  lemma AttendedByWorker(p: State, i: nat, a: WorkStep, s: nat)
    requires WorkEnabled(p, i, a) && s < |p.cells| && !LetsGo(p, i, a, s) && Exclusive(p.cells, p.workers)
    requires Attended(p.workers, s)
    ensures Covered(DoWork(p, i, a), s)
  {
    var k :| 0 <= k < |p.workers| && Attends(p.workers[k]) && p.workers[k].source == s;
    if k != i {
      assert DoWork(p, i, a).workers[k] == p.workers[k];
    } else if a.Claim? && p.cells[s].q.hasWorker {
      DiscardIsCovered(p, i);
    } else if a.PushBack? {
      EnqueueQueues(p, s);
    } else {
      KeepsAttending(p, i, a, s);
    }
  }

  /** The entry is thrown away; the owner of the sequence is another worker. */
  lemma DiscardIsCovered(p: State, i: nat)
    requires WorkEnabled(p, i, Claim) && Exclusive(p.cells, p.workers) && p.cells[p.workers[i].source].q.hasWorker
    ensures Attended(DoWork(p, i, Claim).workers, p.workers[i].source)
  {
    var s := p.workers[i].source;
    var o :| 0 <= o < |p.workers| && Owns(p.workers[o]) && p.workers[o].source == s;
    assert DoWork(p, i, Claim).workers[o] == p.workers[o];
  }

  lemma KeepsAttending(p: State, i: nat, a: WorkStep, s: nat)
    requires WorkEnabled(p, i, a) && s < |p.cells| && !LetsGo(p, i, a, s) && !a.PushBack?
    requires Attends(p.workers[i]) && p.workers[i].source == s && !(a.Claim? && p.cells[s].q.hasWorker)
    ensures Attended(DoWork(p, i, a).workers, s)
  {
    var w := DoWork(p, i, a).workers[i];
    assert Attends(w) && w.source == s;
  }

  lemma EnqueueQueues(p: State, s: nat)
    requires s < |p.cells|
    ensures Queued(Enqueue(p, s).group.queue.heap, s)
  {
    assert Q.Entry(p.cells[s].traits.priority, p.clock, s, |p.group.queue.pushed|) in Enqueue(p, s).group.queue.heap;
  }

  lemma CoveredByWorker(p: State, i: nat, a: WorkStep, s: nat)
    requires WorkEnabled(p, i, a) && s < |p.cells| && !LetsGo(p, i, a, s) && Exclusive(p.cells, p.workers)
    requires Covered(p, s)
    ensures Covered(DoWork(p, i, a), s)
  {
    var r := DoWork(p, i, a);
    if Attended(p.workers, s) {
      AttendedByWorker(p, i, a, s);
    } else if Queued(p.group.queue.heap, s) {
      var e :| e in p.group.queue.heap && e.source == s;
      if e !in r.group.queue.heap {
        assert Attends(r.workers[i]) && r.workers[i].source == s;
      }
    }
  }

  /** Only the sequence that a worker takes from changes its queues, and that one is attended. */
  lemma QueuesByWorker(p: State, i: nat, a: WorkStep, s: nat)
    requires WorkEnabled(p, i, a) && s < |p.cells|
    ensures var r := DoWork(p, i, a);
            && s < |r.cells|
            && r.cells[s].q.delayed <= p.cells[s].q.delayed
            && (r.cells[s].q.immediate == p.cells[s].q.immediate || Attended(r.workers, s))
            && r.posts == p.posts && r.timer == p.timer && r.clock == p.clock
  {
    var r := DoWork(p, i, a);
    if a.Take? && p.workers[i].source == s {
      assert Attends(r.workers[i]) && r.workers[i].source == s;
    }
  }

  lemma StrandedByWorker(p: State, i: nat, a: WorkStep)
    requires WorkEnabled(p, i, a) && Exclusive(p.cells, p.workers) && NothingStranded(p)
    ensures NothingStranded(DoWork(p, i, a))
  {
    var r := DoWork(p, i, a);
    forall s | 0 <= s < |r.cells| ensures CellCovered(r, s) {
      QueuesByWorker(p, i, a, s);
      assert CellCovered(p, s);
      if Covered(p, s) && !LetsGo(p, i, a, s) {
        CoveredByWorker(p, i, a, s);
      }
      forall t | t in r.cells[s].q.delayed ensures DelayCovered(r, s, S.ReadyAt(t)) {
        assert DelayCovered(p, s, S.ReadyAt(t));
      }
    }
  }

  // ---- Posts ----

  lemma WakeKeepsAttended(ws: seq<Worker>, w: nat, s: nat)
    requires Attended(ws, s)
    ensures Attended(Wake(ws, w), s)
  {
    var k :| 0 <= k < |ws| && Attends(ws[k]) && ws[k].source == s;
    assert Wake(ws, w)[k] == ws[k];
  }

  /** The step moves the post call in progress number `a.j`, whose phase was `y`. */
  ghost predicate MovesPost(p: State, a: PostStep, y: Post)
    requires PostEnabled(p, a)
  {
    (a.PushGated? || a.QueueSource? || a.NotifyGroup? || a.AddToTimer? || a.NotifyTimer?) && p.posts[a.j] == y
  }

  lemma OtherPostsStay(p: State, a: PostStep, y: Post)
    requires PostEnabled(p, a) && y in p.posts && !MovesPost(p, a, y)
    ensures y in DoPost(p, a).posts
  {
    var k :| 0 <= k < |p.posts| && p.posts[k] == y;
    assert DoPost(p, a).posts[k] == y;
  }

  lemma CoveredByPost(p: State, a: PostStep, s: nat)
    requires PostEnabled(p, a) && Covered(p, s)
    ensures Covered(DoPost(p, a), s)
  {
    if Attended(p.workers, s) {
      if a.NotifyGroup? {
        WakeKeepsAttended(p.workers, a.w, s);
      }
    } else if Pushed(s) in p.posts {
      if MovesPost(p, a, Pushed(s)) {
        EnqueueQueues(p, s);
      } else {
        OtherPostsStay(p, a, Pushed(s));
      }
    }
  }

  lemma TimedByPost(p: State, a: PostStep, s: nat, r: nat)
    requires PostEnabled(p, a) && Timed(p, s, r)
    ensures Timed(DoPost(p, a), s, r)
  {
    if Adding(s, r) in p.posts {
      if MovesPost(p, a, Adding(s, r)) {
        assert D.DelayedEntry(r, p.timer.nextId, s) in DoPost(p, a).timer.heap;
      } else {
        OtherPostsStay(p, a, Adding(s, r));
      }
    } else {
      var e :| e in p.timer.heap && e.source == s && e.readyTime == r;
      assert e in DoPost(p, a).timer.heap;
    }
  }

  /** A post that adds a task leaves a witness behind, for an immediate and for a delayed task. */
  lemma NewWorkCovered(p: State, a: PostStep, s: nat)
    requires PostEnabled(p, a) && s < |DoPost(p, a).cells|
    ensures var r := DoPost(p, a);
            var q := if s < |p.cells| then p.cells[s].q else S.EMPTY;
            && (r.cells[s].q.immediate == q.immediate || Covered(r, s))
            && forall t | t in r.cells[s].q.delayed :: t in q.delayed || Timed(r, s, S.ReadyAt(t))
  {
    var r := DoPost(p, a);
    match a
    case PostTask(_, _) => assert r.posts[|p.posts|] in r.posts;
    case PostDelayed(_, _, _) => assert r.posts[|p.posts|] in r.posts;
    case PushGated(j) => assert r.posts[j] in r.posts;
    case _ =>
  }

  lemma StrandedByPost(p: State, a: PostStep)
    requires PostEnabled(p, a) && NothingStranded(p)
    ensures NothingStranded(DoPost(p, a))
  {
    var r := DoPost(p, a);
    forall s | 0 <= s < |r.cells| ensures CellCovered(r, s) {
      NewWorkCovered(p, a, s);
      assert s < |p.cells| ==> CellCovered(p, s);
      if Covered(p, s) {
        CoveredByPost(p, a, s);
      }
      forall t | t in r.cells[s].q.delayed ensures DelayCovered(r, s, S.ReadyAt(t)) {
        if s < |p.cells| && t in p.cells[s].q.delayed && Timed(p, s, S.ReadyAt(t)) {
          TimedByPost(p, a, s, S.ReadyAt(t));
        }
      }
    }
  }

  // ---- The timer thread ----

  lemma CoveredByTimer(p: State, a: TimerStep, s: nat)
    requires TimerEnabled(p, a) && Covered(p, s)
    ensures Covered(DoTimer(p, a), s)
  {
    if Attended(p.workers, s) {
      if a.Notify? {
        WakeKeepsAttended(p.workers, a.w, s);
      }
    } else if p.timer.phase == Carrying(s) {
      EnqueueQueues(p, s);
    }
  }

  lemma TimedByTimer(p: State, a: TimerStep, s: nat, r: nat)
    requires TimerEnabled(p, a) && Timed(p, s, r)
    ensures DelayCovered(DoTimer(p, a), s, r)
  {
    if Adding(s, r) !in p.posts {
      var e :| e in p.timer.heap && e.source == s && e.readyTime == r;
      assert e in DoTimer(p, a).timer.heap || DoTimer(p, a).timer.phase == Carrying(s);
    }
  }

  lemma StrandedByTimer(p: State, a: TimerStep)
    requires TimerEnabled(p, a) && NothingStranded(p)
    ensures NothingStranded(DoTimer(p, a))
  {
    var r := DoTimer(p, a);
    forall s | 0 <= s < |r.cells| ensures CellCovered(r, s) {
      assert CellCovered(p, s);
      if Covered(p, s) {
        CoveredByTimer(p, a, s);
      }
      forall t | t in r.cells[s].q.delayed ensures DelayCovered(r, s, S.ReadyAt(t)) {
        assert DelayCovered(p, s, S.ReadyAt(t));
        if Timed(p, s, S.ReadyAt(t)) {
          TimedByTimer(p, a, s, S.ReadyAt(t));
        }
      }
    }
  }

  // ---- Shutdown and the clock ----

  lemma CoveredByCloser(p: State, c: nat, a: CloseStep, s: nat)
    requires CloseEnabled(p, c, a) && Covered(p, s)
    ensures Covered(DoClose(p, c, a), s)
  {
    if Attended(p.workers, s) {
      var k :| 0 <= k < |p.workers| && Attends(p.workers[k]) && p.workers[k].source == s;
      assert DoClose(p, c, a).workers[k] == p.workers[k];
    }
  }

  lemma StrandedByCloser(p: State, c: nat, a: CloseStep)
    requires CloseEnabled(p, c, a) && NothingStranded(p)
    ensures NothingStranded(DoClose(p, c, a))
  {
    var r := DoClose(p, c, a);
    forall s | 0 <= s < |r.cells| ensures CellCovered(r, s) {
      assert CellCovered(p, s);
      if Covered(p, s) {
        CoveredByCloser(p, c, a, s);
      }
      forall t | t in r.cells[s].q.delayed ensures DelayCovered(r, s, S.ReadyAt(t)) {
        assert DelayCovered(p, s, S.ReadyAt(t));
      }
    }
  }

  lemma StrandedByTick(p: State, now: nat)
    requires p.clock <= now && NothingStranded(p)
    ensures NothingStranded(p.(clock := now))
  {
    var r := p.(clock := now);
    forall s | 0 <= s < |r.cells| ensures CellCovered(r, s) {
      assert CellCovered(p, s);
      assert Covered(r, s) == Covered(p, s);
      forall t | t in r.cells[s].q.delayed ensures DelayCovered(r, s, S.ReadyAt(t)) {
        assert DelayCovered(p, s, S.ReadyAt(t));
      }
    }
  }

  lemma StrandedByOpening(p: State)
    requires NothingStranded(p)
    ensures NothingStranded(Do(p, OpenShutdown))
  {
    var r := Do(p, OpenShutdown);
    forall s | 0 <= s < |r.cells| ensures CellCovered(r, s) {
      assert CellCovered(p, s);
      assert Covered(r, s) == Covered(p, s);
      forall t | t in r.cells[s].q.delayed ensures DelayCovered(r, s, S.ReadyAt(t)) {
        assert DelayCovered(p, s, S.ReadyAt(t));
      }
    }
  }

  lemma StrandedStep(p: State, a: Step)
    requires Exclusive(p.cells, p.workers) && NothingStranded(p) && Enabled(p, a)
    ensures NothingStranded(Do(p, a))
  {
    match a
    case Tick(now) => StrandedByTick(p, now);
    case ByPost(b) => StrandedByPost(p, b);
    case ByWorker(i, b) => StrandedByWorker(p, i, b);
    case ByTimer(b) => StrandedByTimer(p, b);
    case OpenShutdown => StrandedByOpening(p);
    case ByCloser(c, b) => StrandedByCloser(p, c, b);
  }
}
