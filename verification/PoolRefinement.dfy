/**
 * Each sequence of the pool, with all its workers, queue entries, claims and timers, behaves like
 * one sequential executor: a FIFO, a set of tasks waiting for their time, at most one running
 * task, and a list of finished ones, every operation atomic.
 */
module PoolRefinement {
  import opened Basics
  import opened Pool
  import opened PoolExclusion
  import opened PoolTheorems
  import opened PoolQuiescence
  import S = Sequences

  datatype Executor = Executor(queue: seq<S.Task>, waiting: set<S.Task>, running: Option<S.Task>, done: seq<S.Task>)

  /** An idle executor moves what is due behind its queue, in order, and begins the first task. */
  ghost predicate Begins(x: Executor, y: Executor, now: nat) {
    var queue := x.queue + S.Ordered(S.Due(x.waiting, now));
    && x.running.None? && queue != []
    && y == Executor(queue[1..], x.waiting - S.Due(x.waiting, now), Some(queue[0]), x.done)
  }

  ghost predicate Ends(x: Executor, y: Executor) {
    x.running.Some? && y == x.(running := None, done := x.done + [x.running.value])
  }

  /** A new task goes to the back of the queue, or to those that wait for their time. */
  ghost predicate Posts(x: Executor, y: Executor) {
    exists t: S.Task :: y == if t.readyTime.None? then x.(queue := x.queue + [t]) else x.(waiting := x.waiting + {t})
  }

  ghost predicate ExecutorNext(x: Executor, y: Executor, now: nat) {
    x == y || Posts(x, y) || Begins(x, y, now) || Ends(x, y)
  }

  /** The executor that a sequence implements. */
  function View(c: Cell): Executor {
    Executor(c.q.immediate, c.q.delayed,
             if |c.q.taken| > |c.finished| then Some(c.q.taken[|c.finished|]) else None,
             c.finished)
  }

  /** What the executor is running is what a worker has in its hands. */
  lemma RunningIsHeld(p: State, s: nat, t: S.Task)
    requires Reachable(p) && s < |p.cells|
    ensures View(p.cells[s]).running == Some(t) <==>
              exists i :: 0 <= i < |p.workers| && Holds(p.workers[i])
                          && p.workers[i].source == s && p.workers[i].task == t
  {
    ReachableIsSafe(p);
    if Held(p.workers, s) {
      var i :| 0 <= i < |p.workers| && Holds(p.workers[i]) && p.workers[i].source == s;
    }
  }

  lemma PopBegins(c: Cell, d: Cell, now: nat)
    requires c.q.taken == c.finished && S.TakenTask(c.q, now).Some?
    requires d == c.(q := S.AfterTake(c.q, now))
    ensures Begins(View(c), View(d), now)
  {
  }

  lemma TakeRefines(p: State, i: nat)
    requires Exclusive(p.cells, p.workers) && InHand(p.cells, p.workers) && WorkEnabled(p, i, Take)
    ensures var s := p.workers[i].source;
            ExecutorNext(View(p.cells[s]), View(DoWork(p, i, Take).cells[s]), p.clock)
  {
    var s := p.workers[i].source;
    var c := p.cells[s];
    OwnerHolds(p.cells, p.workers, i);
    if S.TakenTask(c.q, p.clock).Some? {
      PopBegins(c, DoWork(p, i, Take).cells[s], p.clock);
    } else {
      S.FlushEmpty(c.q, p.clock);
    }
  }

  /** The end of a callback, run or dropped, is the end of the task. */
  lemma FinishRefines(p: State, i: nat, a: WorkStep)
    requires Exclusive(p.cells, p.workers) && InHand(p.cells, p.workers)
    requires WorkEnabled(p, i, a) && (a.Settle? || a.Start?)
    ensures var s := p.workers[i].source;
            ExecutorNext(View(p.cells[s]), View(DoWork(p, i, a).cells[s]), p.clock)
  {
    OwnerHolds(p.cells, p.workers, i);
  }

  lemma OthersKeepView(p: State, i: nat, a: WorkStep, s: nat)
    requires WorkEnabled(p, i, a) && s < |p.cells|
    requires p.workers[i].Holding? || p.workers[i].Ran? || p.workers[i].Claimed? ==> p.workers[i].source != s
    ensures View(DoWork(p, i, a).cells[s]) == View(p.cells[s])
  {
  }

  lemma WorkerRefines(p: State, i: nat, a: WorkStep, s: nat)
    requires Exclusive(p.cells, p.workers) && InHand(p.cells, p.workers) && WorkEnabled(p, i, a) && s < |p.cells|
    ensures ExecutorNext(View(p.cells[s]), View(DoWork(p, i, a).cells[s]), p.clock)
  {
    if a.Take? && p.workers[i].source == s {
      TakeRefines(p, i);
    } else if (a.Settle? || a.Start?) && p.workers[i].source == s {
      FinishRefines(p, i, a);
    } else {
      OthersKeepView(p, i, a, s);
    }
  }

  lemma PostRefines(p: State, a: PostStep, s: nat)
    requires PostEnabled(p, a) && s < |p.cells|
    ensures ExecutorNext(View(p.cells[s]), View(DoPost(p, a).cells[s]), p.clock)
  {
    if !a.PostTask? && !a.PostDelayed? && !a.PushGated? {
      assert DoPost(p, a).cells[s] == p.cells[s];
    } else {
      PushRefines(p, a, s);
    }
  }

  lemma PushRefines(p: State, a: PostStep, s: nat)
    requires PostEnabled(p, a) && s < |p.cells| && (a.PostTask? || a.PostDelayed? || a.PushGated?)
    ensures Posts(View(p.cells[s]), View(DoPost(p, a).cells[s])) || DoPost(p, a).cells[s] == p.cells[s]
  {
    var c, d := p.cells[s], DoPost(p, a).cells[s];
    if d.q.immediate != c.q.immediate {
      var t := d.q.immediate[|c.q.immediate|];
      assert View(d) == View(c).(queue := c.q.immediate + [t]);
    } else if d.q.delayed != c.q.delayed {
      var t := d.q.posted[|c.q.posted|];
      assert View(d) == View(c).(waiting := c.q.delayed + {t});
    }
  }

  lemma CellsStay(p: State, a: Step)
    requires Enabled(p, a)
    ensures |p.cells| <= |Do(p, a).cells|
    ensures !a.ByPost? && !a.ByWorker? ==> Do(p, a).cells == p.cells
  {
    if a.ByWorker? {
      CellCountStays(p, a.i, a.work);
    }
  }

  lemma CellCountStays(p: State, i: nat, a: WorkStep)
    requires WorkEnabled(p, i, a)
    ensures |DoWork(p, i, a).cells| == |p.cells|
  {
  }

  /** Every step of the pool is, for every sequence, a step of its executor or no step at all. */
  lemma SequenceRefinesExecutor(p: State, a: Step, s: nat)
    requires Reachable(p) && Enabled(p, a) && s < |p.cells|
    ensures s < |Do(p, a).cells|
    ensures ExecutorNext(View(p.cells[s]), View(Do(p, a).cells[s]), p.clock)
  {
    hide Begins, Ends, Posts, View;
    ReachableIsSafe(p);
    CellsStay(p, a);
    SafeRefines(p, a, s);
  }

  lemma SafeRefines(p: State, a: Step, s: nat)
    requires Exclusive(p.cells, p.workers) && InHand(p.cells, p.workers)
    requires Enabled(p, a) && s < |p.cells| <= |Do(p, a).cells|
    ensures ExecutorNext(View(p.cells[s]), View(Do(p, a).cells[s]), p.clock)
  {
    hide DoPost, DoWork, View;
    CellsStay(p, a);
    match a
    case ByPost(b) => PostRefines(p, b, s);
    case ByWorker(i, b) => WorkerRefines(p, i, b, s);
    case _ =>
  }
}
