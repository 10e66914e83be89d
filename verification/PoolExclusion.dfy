/**
 * What every step of the pool keeps, part one: references, the histories of the sequences and of
 * the priority queue, and the exclusion of two workers from one sequence.
 */
module PoolExclusion {
  import opened Basics
  import opened Pool
  import S = Sequences
  import Q = PriorityQueues
  import D = DelayedTasks

  // ---- Vocabulary ----

  /** The worker has a source in its hands. */
  predicate Attends(w: Worker) {
    !w.Awake? && !w.Asleep? && !w.Notifying? && !w.Exited?
  }

  /** Between a successful claim and the clearing of the flag. */
  predicate Owns(w: Worker) {
    w.Claimed? || w.Holding? || w.Running? || w.Ran? || w.Releasing?
  }

  /** A task is taken and not finished yet. */
  predicate Holds(w: Worker) {
    w.Holding? || w.Running? || w.Ran?
  }

  ghost predicate Attended(ws: seq<Worker>, s: nat) {
    exists i :: 0 <= i < |ws| && Attends(ws[i]) && ws[i].source == s
  }

  ghost predicate Owned(ws: seq<Worker>, s: nat) {
    exists i :: 0 <= i < |ws| && Owns(ws[i]) && ws[i].source == s
  }

  ghost predicate Held(ws: seq<Worker>, s: nat) {
    exists i :: 0 <= i < |ws| && Holds(ws[i]) && ws[i].source == s
  }

  /** A sequence to which something was posted. Only such a sequence is known outside its poster. */
  ghost predicate Live(cells: seq<Cell>, s: nat) {
    s < |cells| && cells[s].q.posted != []
  }

  // ---- Invariants ----

  ghost predicate WorkersBound(cells: seq<Cell>, ws: seq<Worker>) {
    forall i | 0 <= i < |ws| :: Attends(ws[i]) ==> Live(cells, ws[i].source)
  }

  ghost predicate PostsBound(cells: seq<Cell>, posts: seq<Post>) {
    && (forall j | 0 <= j < |posts| :: posts[j].Pushed? || posts[j].Adding? ==> Live(cells, posts[j].source))
    && (forall j | 0 <= j < |posts| :: posts[j].Accepted? ==>
          posts[j].source < |cells| && cells[posts[j].source].gated && cells[posts[j].source].q == S.EMPTY)
    && (forall j, k | 0 <= j < k < |posts| :: posts[j].Accepted? && posts[k].Accepted? ==>
          posts[j].source != posts[k].source)
  }

  ghost predicate HeapsBound(cells: seq<Cell>, heap: set<Q.Entry>, timer: Timer) {
    && (forall e | e in heap :: Live(cells, e.source))
    && (forall e | e in timer.heap :: Live(cells, e.source))
    && (timer.phase.Carrying? ==> Live(cells, timer.phase.source))
  }

  /** Nothing refers to a sequence before its first post, and each accepted post has its own one. */
  ghost predicate Bounds(p: State) {
    WorkersBound(p.cells, p.workers) && PostsBound(p.cells, p.posts) && HeapsBound(p.cells, p.group.queue.heap, p.timer)
  }

  ghost predicate CellsValid(p: State) {
    forall s | 0 <= s < |p.cells| :: S.Valid(p.cells[s].q, p.clock)
  }

  ghost predicate HeapsValid(p: State) {
    Q.Valid(p.group.queue, p.clock) && D.HeapValid(p.timer.heap, p.timer.nextId)
  }

  /** `has_worker` is set exactly while one worker owns the sequence, and there is never a second one. */
  ghost predicate Exclusive(cells: seq<Cell>, ws: seq<Worker>) {
    && (forall i | 0 <= i < |ws| :: Owns(ws[i]) ==>
          ws[i].source < |cells| && cells[ws[i].source].q.hasWorker)
    && (forall i, j | 0 <= i < j < |ws| :: Owns(ws[i]) && Owns(ws[j]) ==> ws[i].source != ws[j].source)
    && (forall s | 0 <= s < |cells| :: cells[s].q.hasWorker ==> Owned(ws, s))
  }

  /** The tasks taken are those finished, followed by the one in the hands of the owner, if any. */
  ghost predicate InHand(cells: seq<Cell>, ws: seq<Worker>) {
    && (forall i | 0 <= i < |ws| :: Holds(ws[i]) ==>
          ws[i].source < |cells| &&
          cells[ws[i].source].q.taken == cells[ws[i].source].finished + [ws[i].task])
    && (forall s | 0 <= s < |cells| :: cells[s].q.taken == cells[s].finished || Held(ws, s))
  }

  ghost predicate Inv(p: State) {
    && Bounds(p) && CellsValid(p) && HeapsValid(p)
    && Exclusive(p.cells, p.workers) && InHand(p.cells, p.workers)
  }

  // ---- Preservation of Bounds ----

  /** Only sequences that are live are changed, and they stay live. */
  ghost predicate Touched(cells: seq<Cell>, after: seq<Cell>) {
    && |after| == |cells|
    && forall s | 0 <= s < |cells| :: after[s] == cells[s] || (Live(cells, s) && Live(after, s))
  }

  lemma TouchedBounds(cells: seq<Cell>, after: seq<Cell>, p: State)
    requires Touched(cells, after)
    requires WorkersBound(cells, p.workers) && PostsBound(cells, p.posts)
    requires HeapsBound(cells, p.group.queue.heap, p.timer)
    requires p.cells == after
    ensures Bounds(p)
  {
    forall s: nat | Live(cells, s) ensures Live(after, s) { assert after[s] == cells[s] || Live(after, s); }
  }

  lemma WorkerTouches(p: State, i: nat, a: WorkStep)
    requires WorkersBound(p.cells, p.workers) && WorkEnabled(p, i, a)
    ensures Touched(p.cells, DoWork(p, i, a).cells)
  {
  }

  lemma WorkerBounds(p: State, i: nat, a: WorkStep)
    requires WorkersBound(p.cells, p.workers) && HeapsBound(p.cells, p.group.queue.heap, p.timer)
    requires WorkEnabled(p, i, a)
    ensures WorkersBound(p.cells, DoWork(p, i, a).workers)
  {
  }

  lemma WorkerHeapBounds(p: State, i: nat, a: WorkStep)
    requires WorkersBound(p.cells, p.workers) && HeapsBound(p.cells, p.group.queue.heap, p.timer)
    requires WorkEnabled(p, i, a)
    ensures HeapsBound(p.cells, DoWork(p, i, a).group.queue.heap, p.timer)
  {
  }

  lemma BoundsByWorker(p: State, i: nat, a: WorkStep)
    requires Bounds(p) && WorkEnabled(p, i, a)
    ensures Bounds(DoWork(p, i, a))
  {
    WorkerTouches(p, i, a);
    WorkerBounds(p, i, a);
    WorkerHeapBounds(p, i, a);
    TouchedBounds(p.cells, DoWork(p, i, a).cells, DoWork(p, i, a));
  }

  /** A post appends an unposted sequence or posts to one; in both cases live sequences stay live. */
  lemma PostKeepsLive(p: State, a: PostStep)
    requires PostEnabled(p, a)
    ensures forall s: nat | Live(p.cells, s) :: Live(DoPost(p, a).cells, s)
  {
  }

  lemma PostsBoundByNewPost(p: State, a: PostStep)
    requires PostsBound(p.cells, p.posts) && PostEnabled(p, a)
    requires a.NewRunner? || a.PostTask? || a.PostDelayed? || a.Gate? || a.Reject?
    ensures PostsBound(DoPost(p, a).cells, DoPost(p, a).posts)
  {
    PostKeepsLive(p, a);
  }

  lemma PostsBoundByPush(p: State, j: nat)
    requires PostsBound(p.cells, p.posts) && PostEnabled(p, PushGated(j))
    ensures PostsBound(DoPost(p, PushGated(j)).cells, DoPost(p, PushGated(j)).posts)
  {
    PostKeepsLive(p, PushGated(j));
  }

  lemma PostsBoundByPost(p: State, a: PostStep)
    requires PostsBound(p.cells, p.posts) && PostEnabled(p, a)
    ensures PostsBound(DoPost(p, a).cells, DoPost(p, a).posts)
  {
    if a.PushGated? {
      PostsBoundByPush(p, a.j);
    } else if a.QueueSource? || a.NotifyGroup? || a.AddToTimer? || a.NotifyTimer? {
      assert DoPost(p, a).cells == p.cells;
    } else {
      PostsBoundByNewPost(p, a);
    }
  }

  lemma HeapsBoundByPost(p: State, a: PostStep)
    requires PostsBound(p.cells, p.posts) && HeapsBound(p.cells, p.group.queue.heap, p.timer) && PostEnabled(p, a)
    ensures HeapsBound(DoPost(p, a).cells, DoPost(p, a).group.queue.heap, DoPost(p, a).timer)
  {
    PostKeepsLive(p, a);
  }

  lemma BoundsByPost(p: State, a: PostStep)
    requires Bounds(p) && PostEnabled(p, a)
    ensures Bounds(DoPost(p, a))
  {
    PostKeepsLive(p, a);
    PostsBoundByPost(p, a);
    HeapsBoundByPost(p, a);
  }

  lemma BoundsByTimer(p: State, a: TimerStep)
    requires Bounds(p) && TimerEnabled(p, a)
    ensures Bounds(DoTimer(p, a))
  {
  }

  lemma BoundsByCloser(p: State, c: nat, a: CloseStep)
    requires Bounds(p) && CloseEnabled(p, c, a)
    ensures Bounds(DoClose(p, c, a))
  {
  }

  // ---- Preservation of the histories ----

  lemma CellsValidByPost(p: State, a: PostStep)
    requires CellsValid(p) && PostEnabled(p, a)
    ensures CellsValid(DoPost(p, a))
  {
    S.EmptyValid(p.clock);
    match a
    case PostTask(s, callback) => S.PushTaskValid(p.cells[s].q, callback, p.clock);
    case PostDelayed(s, callback, readyTime) => S.PushDelayedValid(p.cells[s].q, callback, readyTime, p.clock);
    case PushGated(j) =>
      var Accepted(s, ready, callback) := p.posts[j];
      if ready.None? {
        S.PushTaskValid(p.cells[s].q, callback, p.clock);
      } else {
        S.PushDelayedValid(p.cells[s].q, callback, ready.value, p.clock);
      }
    case _ =>
  }

  lemma CellsValidByWorker(p: State, i: nat, a: WorkStep)
    requires CellsValid(p) && WorkEnabled(p, i, a)
    ensures CellsValid(DoWork(p, i, a))
  {
    match a
    case Claim => S.FlagValid(p.cells[p.workers[i].source].q, true, p.clock);
    case Release => S.FlagValid(p.cells[p.workers[i].source].q, false, p.clock);
    case Take => S.TakeTaskValid(p.cells[p.workers[i].source].q, p.clock);
    case _ =>
  }

  lemma HeapsValidByPost(p: State, a: PostStep)
    requires HeapsValid(p) && PostEnabled(p, a)
    ensures HeapsValid(DoPost(p, a))
  {
    match a
    case QueueSource(j) =>
      Q.PushValid(p.group.queue, p.cells[p.posts[j].source].traits.priority, p.clock, p.posts[j].source);
    case _ =>
  }

  lemma HeapsValidByWorker(p: State, i: nat, a: WorkStep)
    requires HeapsValid(p) && WorkEnabled(p, i, a)
    ensures HeapsValid(DoWork(p, i, a))
  {
    match a
    case Fetch(e) =>
      if !p.group.shutdown && p.group.queue.heap != {} {
        Q.PopValid(p.group.queue, e, p.clock);
      }
    case PushBack =>
      var s := p.workers[i].source;
      Q.PushValid(p.group.queue, p.cells[s].traits.priority, p.clock, s);
    case _ =>
  }

  lemma HeapsValidByTimer(p: State, a: TimerStep)
    requires HeapsValid(p) && TimerEnabled(p, a)
    ensures HeapsValid(DoTimer(p, a))
  {
    match a
    case HandOver =>
      var s := p.timer.phase.source;
      Q.PushValid(p.group.queue, p.cells[s].traits.priority, p.clock, s);
    case _ =>
  }

  lemma HistoriesByTick(p: State, now: nat)
    requires CellsValid(p) && HeapsValid(p) && p.clock <= now
    ensures CellsValid(p.(clock := now)) && HeapsValid(p.(clock := now))
  {
    forall s | 0 <= s < |p.cells| ensures S.Valid(p.cells[s].q, now) { S.ValidLater(p.cells[s].q, p.clock, now); }
    Q.ValidLater(p.group.queue, p.clock, now);
  }

  // ---- Preservation of the exclusion ----

  /** Neither the flags nor the histories of the sequences change. */
  ghost predicate SameHands(cells: seq<Cell>, after: seq<Cell>) {
    && |after| >= |cells|
    && (forall s | 0 <= s < |cells| ::
          && after[s].q.hasWorker == cells[s].q.hasWorker
          && after[s].q.taken == cells[s].q.taken
          && after[s].finished == cells[s].finished)
    && (forall s | |cells| <= s < |after| :: !after[s].q.hasWorker && after[s].q.taken == after[s].finished == [])
  }

  /** The same workers own the same sequences and hold the same tasks. */
  ghost predicate SameGrip(ws: seq<Worker>, after: seq<Worker>) {
    && |after| == |ws|
    && forall i | 0 <= i < |ws| :: after[i] == ws[i] || (!Owns(ws[i]) && !Owns(after[i]))
  }

  lemma SameKeepsExclusion(cells: seq<Cell>, ws: seq<Worker>, cells': seq<Cell>, ws': seq<Worker>)
    requires Exclusive(cells, ws) && InHand(cells, ws)
    requires SameHands(cells, cells') && SameGrip(ws, ws')
    ensures Exclusive(cells', ws') && InHand(cells', ws')
  {
    forall s | 0 <= s < |cells'| && cells'[s].q.hasWorker ensures Owned(ws', s) {
      var i :| 0 <= i < |ws| && Owns(ws[i]) && ws[i].source == s;
      assert ws'[i] == ws[i];
    }
    forall s | 0 <= s < |cells'| ensures cells'[s].q.taken == cells'[s].finished || Held(ws', s) {
      if s < |cells| && Held(ws, s) {
        var i :| 0 <= i < |ws| && Holds(ws[i]) && ws[i].source == s;
        assert ws'[i] == ws[i];
      }
    }
  }

  /** Worker `i` moves on with a sequence that it owns, claims, or gives up. */
  ghost predicate Moves(cells: seq<Cell>, ws: seq<Worker>, i: nat, c: Cell, w: Worker)
    requires i < |ws| && Attends(ws[i]) && ws[i].source < |cells|
  {
    var was, b := ws[i], cells[ws[i].source];
    && Attends(w) && w.source == was.source
    && (Owns(was) || !b.q.hasWorker)
    && c.q.hasWorker == Owns(w)
    && if Holds(w) then c.q.taken == c.finished + [w.task] else c.q.taken == c.finished
  }

  lemma MoveKeepsExclusion(cells: seq<Cell>, ws: seq<Worker>, i: nat, c: Cell, w: Worker)
    requires Exclusive(cells, ws) && InHand(cells, ws)
    requires i < |ws| && Attends(ws[i]) && ws[i].source < |cells| && Moves(cells, ws, i, c, w)
    ensures Exclusive(cells[ws[i].source := c], ws[i := w])
    ensures InHand(cells[ws[i].source := c], ws[i := w])
  {
    var s0, cells', ws' := ws[i].source, cells[ws[i].source := c], ws[i := w];
    forall j | 0 <= j < |ws| && j != i && Owns(ws[j]) ensures ws[j].source != s0 {
    }
    forall s | 0 <= s < |cells'| && cells'[s].q.hasWorker ensures Owned(ws', s) {
      if s == s0 {
        assert Owns(ws'[i]);
      } else {
        var j :| 0 <= j < |ws| && Owns(ws[j]) && ws[j].source == s;
        assert ws'[j] == ws[j];
      }
    }
    forall s | 0 <= s < |cells'| ensures cells'[s].q.taken == cells'[s].finished || Held(ws', s) {
      if s == s0 {
        assert ws'[i] == w;
      } else if Held(ws, s) {
        var j :| 0 <= j < |ws| && Holds(ws[j]) && ws[j].source == s;
        assert ws'[j] == ws[j];
      }
    }
  }

  /** Before its owner takes a task, and while nobody owns it, a sequence has nothing in hand. */
  lemma OwnerHolds(cells: seq<Cell>, ws: seq<Worker>, i: nat)
    requires Exclusive(cells, ws) && InHand(cells, ws)
    requires i < |ws| && Attends(ws[i]) && ws[i].source < |cells|
    ensures Owns(ws[i]) ==> cells[ws[i].source].q.hasWorker
    ensures Holds(ws[i]) ==> cells[ws[i].source].q.taken == cells[ws[i].source].finished + [ws[i].task]
    ensures !Holds(ws[i]) && (Owns(ws[i]) || !cells[ws[i].source].q.hasWorker) ==>
              cells[ws[i].source].q.taken == cells[ws[i].source].finished
  {
  }

  /** The steps between a successful claim and the clearing of the flag. */
  ghost predicate OwnerStep(p: State, i: nat, a: WorkStep)
    requires WorkEnabled(p, i, a)
  {
    a.Take? || a.Start? || a.Return? || a.Settle? || a.Release? ||
    (a.Claim? && !p.cells[p.workers[i].source].q.hasWorker)
  }

  lemma TakeMoves(p: State, i: nat)
    requires Exclusive(p.cells, p.workers) && InHand(p.cells, p.workers) && WorkEnabled(p, i, Take)
    requires S.Valid(p.cells[p.workers[i].source].q, p.clock)
    ensures var r, s := DoWork(p, i, Take), p.workers[i].source;
            && |r.cells| == |p.cells| && |r.workers| == |p.workers|
            && r.cells == p.cells[s := r.cells[s]] && r.workers == p.workers[i := r.workers[i]]
            && Moves(p.cells, p.workers, i, r.cells[s], r.workers[i])
  {
    hide S.Valid;
    OwnerHolds(p.cells, p.workers, i);
    S.TakeTaskValid(p.cells[p.workers[i].source].q, p.clock);
  }

  lemma OwnerMoves(p: State, i: nat, a: WorkStep)
    requires Exclusive(p.cells, p.workers) && InHand(p.cells, p.workers)
    requires WorkEnabled(p, i, a) && OwnerStep(p, i, a)
    requires a.Take? ==> S.Valid(p.cells[p.workers[i].source].q, p.clock)
    ensures var r, s := DoWork(p, i, a), p.workers[i].source;
            && |r.cells| == |p.cells| && |r.workers| == |p.workers|
            && r.cells == p.cells[s := r.cells[s]] && r.workers == p.workers[i := r.workers[i]]
            && Moves(p.cells, p.workers, i, r.cells[s], r.workers[i])
  {
    if a.Take? {
      TakeMoves(p, i);
    } else {
      OwnerHolds(p.cells, p.workers, i);
    }
  }

  lemma ExclusionByOwner(p: State, i: nat, a: WorkStep)
    requires Exclusive(p.cells, p.workers) && InHand(p.cells, p.workers)
    requires WorkEnabled(p, i, a) && OwnerStep(p, i, a)
    requires a.Take? ==> S.Valid(p.cells[p.workers[i].source].q, p.clock)
    ensures Exclusive(DoWork(p, i, a).cells, DoWork(p, i, a).workers)
    ensures InHand(DoWork(p, i, a).cells, DoWork(p, i, a).workers)
  {
    OwnerMoves(p, i, a);
    var s := p.workers[i].source;
    MoveKeepsExclusion(p.cells, p.workers, i, DoWork(p, i, a).cells[s], DoWork(p, i, a).workers[i]);
  }

  lemma OthersKeepGrip(p: State, i: nat, a: WorkStep)
    requires WorkEnabled(p, i, a) && !OwnerStep(p, i, a)
    ensures SameHands(p.cells, DoWork(p, i, a).cells) && SameGrip(p.workers, DoWork(p, i, a).workers)
  {
  }

  lemma PostKeepsGrip(p: State, a: PostStep)
    requires PostEnabled(p, a) && PostsBound(p.cells, p.posts)
    ensures SameHands(p.cells, DoPost(p, a).cells) && SameGrip(p.workers, DoPost(p, a).workers)
  {
  }

  lemma TimerKeepsGrip(p: State, a: TimerStep)
    requires TimerEnabled(p, a)
    ensures DoTimer(p, a).cells == p.cells && SameGrip(p.workers, DoTimer(p, a).workers)
  {
  }

  lemma CloserKeepsGrip(p: State, c: nat, a: CloseStep)
    requires CloseEnabled(p, c, a)
    ensures DoClose(p, c, a).cells == p.cells && SameGrip(p.workers, DoClose(p, c, a).workers)
  {
  }

  // ---- All of it ----

  lemma InvByWorker(p: State, i: nat, a: WorkStep)
    requires Inv(p) && WorkEnabled(p, i, a)
    ensures Inv(DoWork(p, i, a))
  {
    var r := DoWork(p, i, a);
    BoundsByWorker(p, i, a);
    CellsValidByWorker(p, i, a);
    HeapsValidByWorker(p, i, a);
    if OwnerStep(p, i, a) {
      ExclusionByOwner(p, i, a);
    } else {
      OthersKeepGrip(p, i, a);
      SameKeepsExclusion(p.cells, p.workers, r.cells, r.workers);
    }
  }

  lemma InvByPost(p: State, a: PostStep)
    requires Inv(p) && PostEnabled(p, a)
    ensures Inv(DoPost(p, a))
  {
    var r := DoPost(p, a);
    BoundsByPost(p, a);
    CellsValidByPost(p, a);
    HeapsValidByPost(p, a);
    PostKeepsGrip(p, a);
    SameKeepsExclusion(p.cells, p.workers, r.cells, r.workers);
  }

  lemma InvByTimer(p: State, a: TimerStep)
    requires Inv(p) && TimerEnabled(p, a)
    ensures Inv(DoTimer(p, a))
  {
    var r := DoTimer(p, a);
    BoundsByTimer(p, a);
    HeapsValidByTimer(p, a);
    TimerKeepsGrip(p, a);
    SameKeepsExclusion(p.cells, p.workers, r.cells, r.workers);
  }

  lemma InvByCloser(p: State, c: nat, a: CloseStep)
    requires Inv(p) && CloseEnabled(p, c, a)
    ensures Inv(DoClose(p, c, a))
  {
    var r := DoClose(p, c, a);
    BoundsByCloser(p, c, a);
    CloserKeepsGrip(p, c, a);
    SameKeepsExclusion(p.cells, p.workers, r.cells, r.workers);
  }

  lemma InvStep(p: State, a: Step)
    requires Inv(p) && Enabled(p, a)
    ensures Inv(Do(p, a))
  {
    match a
    case Tick(now) => HistoriesByTick(p, now);
    case ByPost(b) => InvByPost(p, b);
    case ByWorker(i, b) => InvByWorker(p, i, b);
    case ByTimer(b) => InvByTimer(p, b);
    case OpenShutdown =>
    case ByCloser(c, b) => InvByCloser(p, c, b);
  }
}
