/**
 * A sequence of tasks (rust_task/thread_pool/sequence.rs): one FIFO of immediate tasks, one heap
 * of delayed tasks, a counter that numbers every post, and the `has_worker` flag.
 *
 * `State` is the value of a sequence, with its history. The functions over it describe one
 * critical section (or one atomic operation) each; class `Sequence` performs them in place.
 */
module Sequences {
  import opened Basics
  import opened Traits

  /** `readyTime` is the deadline of a delayed post and `None` for an immediate one. */
  datatype Task = Task(callback: nat, sequenceNum: nat, readyTime: Option<nat>)

  /** An immediate task is ready from the start. */
  function ReadyAt(t: Task): nat {
    match t.readyTime
    case None => 0
    case Some(r) => r
  }

  /** The deadline, if there is one, has passed. */
  predicate IsDue(t: Task, now: nat) {
    t.readyTime.None? || t.readyTime.value <= now
  }

  /** The delayed task with the earlier deadline goes first; among equal ones, the one posted first. */
  predicate Earlier(a: Task, b: Task) {
    && a.readyTime.Some? && b.readyTime.Some?
    && (a.readyTime.value < b.readyTime.value
        || (a.readyTime.value == b.readyTime.value && a.sequenceNum < b.sequenceNum))
  }

  /** `DelayedTask::cmp`: by deadline, then by post order. */
  function Cmp(a: Task, b: Task): Ordering {
    Compare(ReadyAt(a), ReadyAt(b)).Then(Compare(a.sequenceNum, b.sequenceNum))
  }

  predicate IsLeast(h: set<Task>, t: Task) {
    t in h && forall x | x in h :: Cmp(t, x) != Greater
  }

  /** No two elements share a sequence number, so `Cmp` never ties. */
  ghost predicate Distinct(h: set<Task>) {
    forall a, b | a in h && b in h && a.sequenceNum == b.sequenceNum :: a == b
  }

  lemma {:induction false} LeastExists(h: set<Task>) returns (m: Task)
    requires h != {}
    ensures IsLeast(h, m)
    decreases |h|
  {
    var x :| x in h;
    if h == {x} {
      m := x;
    } else {
      var n := LeastExists(h - {x});
      m := if Cmp(x, n) == Greater then n else x;
      forall y | y in h ensures Cmp(m, y) != Greater {
        if y != x {
          assert y in h - {x};
        }
      }
    }
  }

  ghost function Least(h: set<Task>): (m: Task)
    requires h != {}
    ensures IsLeast(h, m)
  {
    assert exists m :: IsLeast(h, m) by { var m := LeastExists(h); }
    var m :| IsLeast(h, m);
    m
  }

  /** The elements of a heap in the order in which it pops them. */
  ghost function Ordered(h: set<Task>): (ts: seq<Task>)
    ensures multiset(ts) == multiset(h)
    decreases |h|
  {
    if h == {} then [] else
      var m := Least(h);
      assert h == {m} + (h - {m});
      [m] + Ordered(h - {m})
  }

  lemma {:induction false} OrderedSorted(h: set<Task>)
    requires Distinct(h)
    ensures forall i, j | 0 <= i < j < |Ordered(h)| :: Cmp(Ordered(h)[i], Ordered(h)[j]) == Less
    decreases |h|
  {
    if h != {} {
      var m := Least(h);
      var rest := Ordered(h - {m});
      OrderedSorted(h - {m});
      forall j | 0 <= j < |rest| ensures Cmp(m, rest[j]) == Less {
        assert rest[j] in multiset(rest);
      }
    }
  }

  function Due(h: set<Task>, now: nat): set<Task> {
    set t | t in h && ReadyAt(t) <= now
  }

  /**
   * When a task entered the immediate queue: `mark` is the number of posts made up to that
   * moment, `at` the clock.
   */
  datatype Stamp = Stamp(mark: nat, at: nat)

  /** The fields of a sequence, then its history: all posts, all arrivals in the immediate queue
      with their stamps, and all tasks taken from it. */
  datatype State = State(
    immediate: seq<Task>, delayed: set<Task>, next: nat, hasWorker: bool,
    posted: seq<Task>, arrivals: seq<Task>, stamps: seq<Stamp>, taken: seq<Task>)

  const EMPTY: State := State([], {}, 0, false, [], [], [], [])

  function Repeat(stamp: Stamp, n: nat): seq<Stamp> {
    seq(n, _ => stamp)
  }

  // ---- One function per critical section ----

  function WithTask(q: State, callback: nat, now: nat): State {
    var t := Task(callback, q.next, None);
    q.(immediate := q.immediate + [t], next := q.next + 1, posted := q.posted + [t],
       arrivals := q.arrivals + [t], stamps := q.stamps + [Stamp(q.next + 1, now)])
  }

  function WithDelayed(q: State, callback: nat, readyTime: nat): State {
    var t := Task(callback, q.next, Some(readyTime));
    q.(delayed := q.delayed + {t}, next := q.next + 1, posted := q.posted + [t])
  }

  ghost function Flushed(q: State, now: nat): State {
    var due := Ordered(Due(q.delayed, now));
    q.(immediate := q.immediate + due, delayed := q.delayed - Due(q.delayed, now),
       arrivals := q.arrivals + due, stamps := q.stamps + Repeat(Stamp(q.next, now), |due|))
  }

  function PopFront(q: State): State {
    if q.immediate == [] then q
    else q.(immediate := q.immediate[1..], taken := q.taken + [q.immediate[0]])
  }

  ghost function AfterTake(q: State, now: nat): State {
    PopFront(Flushed(q, now))
  }

  /** The task that `take_task` hands out. */
  ghost function TakenTask(q: State, now: nat): Option<Task> {
    var f := Flushed(q, now).immediate;
    if f == [] then None else Some(f[0])
  }

  predicate HasReady(q: State, now: nat) {
    q.immediate != [] || exists t :: t in q.delayed && ReadyAt(t) <= now
  }

  // ---- What every history keeps ----

  /** Arrivals are exactly the tasks taken so far followed by the tasks still queued, in order. */
  ghost predicate Fifo(q: State) {
    q.arrivals == q.taken + q.immediate
  }

  /** Every post is in exactly one place, once. */
  ghost predicate Conserved(q: State) {
    && |q.posted| == q.next
    && (forall k | 0 <= k < |q.posted| :: q.posted[k].sequenceNum == k)
    && multiset(q.posted) == multiset(q.taken) + multiset(q.immediate) + multiset(q.delayed)
  }

  ghost predicate HeapWellFormed(h: set<Task>, next: nat) {
    && (forall t | t in h :: t.readyTime.Some? && t.sequenceNum < next)
    && Distinct(h)
  }

  /** A task arrives after its post and not before its deadline. */
  predicate ArrivedInTime(t: Task, stamp: Stamp, next: nat, now: nat) {
    t.sequenceNum < stamp.mark <= next && ReadyAt(t) <= stamp.at <= now
  }

  ghost predicate Stamped(q: State, now: nat) {
    && |q.stamps| == |q.arrivals|
    && forall i | 0 <= i < |q.arrivals| :: ArrivedInTime(q.arrivals[i], q.stamps[i], q.next, now)
  }

  /**
   * What may follow the arrival of `x`: an immediate task follows an immediate one only if it was
   * posted later, and a delayed task follows a delayed one with a greater key only if it was
   * posted after `x` had left the heap.
   */
  predicate MayFollow(t: Task, x: Task, stamp: Stamp) {
    && (x.readyTime.None? && t.readyTime.None? ==> x.sequenceNum < t.sequenceNum)
    && (x.readyTime.Some? && t.readyTime.Some? && Cmp(t, x) == Less ==> t.sequenceNum >= stamp.mark)
  }

  ghost predicate InOrder(q: State)
    requires |q.stamps| == |q.arrivals|
  {
    && (forall i, j | 0 <= i < j < |q.arrivals| :: MayFollow(q.arrivals[j], q.arrivals[i], q.stamps[i]))
    && (forall i, t | 0 <= i < |q.arrivals| && t in q.delayed :: MayFollow(t, q.arrivals[i], q.stamps[i]))
  }

  ghost predicate Valid(q: State, now: nat) {
    HeapWellFormed(q.delayed, q.next) && Conserved(q) && Fifo(q) && Stamped(q, now) && InOrder(q)
  }

  // ---- Preservation ----

  lemma PushTaskValid(q: State, callback: nat, now: nat)
    requires Valid(q, now)
    ensures Valid(WithTask(q, callback, now), now)
  {
    var t := Task(callback, q.next, None);
    var r := WithTask(q, callback, now);
    assert Fifo(r);
    assert Conserved(r);
    forall i | 0 <= i < |q.arrivals| ensures MayFollow(t, q.arrivals[i], q.stamps[i]) {
      assert ArrivedInTime(q.arrivals[i], q.stamps[i], q.next, now);
    }
  }

  lemma PushDelayedValid(q: State, callback: nat, readyTime: nat, now: nat)
    requires Valid(q, now)
    ensures Valid(WithDelayed(q, callback, readyTime), now)
  {
    var t := Task(callback, q.next, Some(readyTime));
    var r := WithDelayed(q, callback, readyTime);
    assert multiset(q.delayed + {t}) == multiset(q.delayed) + multiset{t};
    assert Conserved(r);
    forall i | 0 <= i < |q.arrivals| ensures MayFollow(t, q.arrivals[i], q.stamps[i]) {
      assert ArrivedInTime(q.arrivals[i], q.stamps[i], q.next, now);
    }
  }

  lemma OrderedMembers(h: set<Task>)
    ensures forall i | 0 <= i < |Ordered(h)| :: Ordered(h)[i] in h
    ensures h != {} ==> Ordered(h) != []
  {
    forall i | 0 <= i < |Ordered(h)| ensures Ordered(h)[i] in h {
      assert Ordered(h)[i] in multiset(Ordered(h));
    }
  }

  lemma FlushConserved(q: State, now: nat)
    requires HeapWellFormed(q.delayed, q.next) && Conserved(q) && Fifo(q)
    ensures Conserved(Flushed(q, now)) && Fifo(Flushed(q, now))
  {
    var d := Due(q.delayed, now);
    var due := Ordered(d);
    assert multiset(q.delayed) == multiset(d) + multiset(q.delayed - d);
    assert multiset(q.immediate + due) == multiset(q.immediate) + multiset(d);
    assert q.arrivals + due == q.taken + (q.immediate + due);
  }

  lemma FlushValid(q: State, now: nat)
    requires Valid(q, now)
    ensures Valid(Flushed(q, now), now)
  {
    FlushConserved(q, now);
    FlushStamped(q, now);
    FlushInOrder(q, now);
  }

  lemma FlushStamped(q: State, now: nat)
    requires HeapWellFormed(q.delayed, q.next) && Stamped(q, now)
    ensures Stamped(Flushed(q, now), now)
  {
    OrderedMembers(Due(q.delayed, now));
  }

  lemma FlushInOrder(q: State, now: nat)
    requires HeapWellFormed(q.delayed, q.next) && Stamped(q, now) && InOrder(q)
    ensures InOrder(Flushed(q, now))
  {
    var d := Due(q.delayed, now);
    var due := Ordered(d);
    var f := Flushed(q, now);
    var n := |q.arrivals|;
    OrderedSorted(d);
    OrderedMembers(d);
    forall i, j | 0 <= i < j < |f.arrivals| ensures MayFollow(f.arrivals[j], f.arrivals[i], f.stamps[i]) {
      if n <= i {
        assert Cmp(due[i - n], due[j - n]) == Less;
      } else if n <= j {
        assert due[j - n] in q.delayed;
      }
    }
    forall i, t | 0 <= i < |f.arrivals| && t in f.delayed ensures MayFollow(t, f.arrivals[i], f.stamps[i]) {
      if n <= i {
        assert ReadyAt(due[i - n]) <= now < ReadyAt(t);
      }
    }
  }

  lemma PopFrontValid(q: State, now: nat)
    requires Valid(q, now)
    ensures Valid(PopFront(q), now)
  {
    if q.immediate != [] {
      assert q.immediate == [q.immediate[0]] + q.immediate[1..];
      assert Fifo(PopFront(q));
    }
  }

  /** A flush leaves the queue empty exactly when nothing is ready. */
  lemma FlushEmpty(q: State, now: nat)
    ensures Flushed(q, now).immediate == [] <==> !HasReady(q, now)
    ensures !HasReady(q, now) ==> Flushed(q, now) == q
  {
    var d := Due(q.delayed, now);
    OrderedMembers(d);
    if HasReady(q, now) {
      if q.immediate == [] {
        var t :| t in q.delayed && ReadyAt(t) <= now;
        assert t in d;
      }
    } else {
      assert d == {};
      assert q.delayed - d == q.delayed;
      assert q.immediate + [] == q.immediate && q.arrivals + [] == q.arrivals;
    }
  }

  /** Taking a task keeps the invariant; it finds one exactly when one is ready, and never too early. */
  lemma TakeTaskValid(q: State, now: nat)
    requires Valid(q, now)
    ensures Valid(AfterTake(q, now), now)
    ensures TakenTask(q, now).None? <==> !HasReady(q, now)
    ensures match TakenTask(q, now)
            case None => AfterTake(q, now) == q
            case Some(t) => AfterTake(q, now).taken == q.taken + [t] && ReadyAt(t) <= now
  {
    FlushValid(q, now);
    FlushEmpty(q, now);
    var f := Flushed(q, now);
    PopFrontValid(f, now);
    if f.immediate != [] {
      assert f.arrivals[|f.taken|] == f.immediate[0];
      assert ArrivedInTime(f.immediate[0], f.stamps[|f.taken|], f.next, now);
    }
  }

  /** Taking a task shrinks the two queues by that task and nothing else. */
  lemma TakeTaskShrinks(q: State, now: nat)
    ensures var r := AfterTake(q, now);
            var d := if TakenTask(q, now).None? then 0 else 1;
            |r.immediate| + |r.delayed| + d == |q.immediate| + |q.delayed|
    ensures TakenTask(q, now).None? <==> !HasReady(q, now)
    ensures TakenTask(q, now).None? ==> AfterTake(q, now) == q
  {
    FlushEmpty(q, now);
    var d := Due(q.delayed, now);
    assert |multiset(Ordered(d))| == |multiset(d)|;
    assert d <= q.delayed;
    assert q.delayed == d + (q.delayed - d);
  }

  lemma ValidLater(q: State, now: nat, later: nat)
    requires Valid(q, now) && now <= later
    ensures Valid(q, later)
  {
  }

  lemma FlagValid(q: State, flag: bool, now: nat)
    requires Valid(q, now)
    ensures Valid(q.(hasWorker := flag), now)
  {
  }

  lemma EmptyValid(now: nat)
    ensures Valid(EMPTY, now)
  {
  }

  /** What a flush does: the due tasks, ordered, go behind the queue; the others stay in the heap. */
  ghost predicate Flushes(queue: seq<Task>, heap: set<Task>, now: nat, queue': seq<Task>, heap': set<Task>) {
    && queue <= queue'
    && (forall t :: t in queue'[|queue|..] <==> t in heap && IsDue(t, now))
    && (forall i, j | |queue| <= i < j < |queue'| :: Earlier(queue'[i], queue'[j]))
    && (forall t :: t in heap' <==> t in heap && !IsDue(t, now))
  }

  lemma FlushedFlushes(q: State, now: nat)
    requires HeapWellFormed(q.delayed, q.next)
    ensures Flushes(q.immediate, q.delayed, now, Flushed(q, now).immediate, Flushed(q, now).delayed)
  {
    var due := Ordered(Due(q.delayed, now));
    forall t ensures t in due <==> t in q.delayed && IsDue(t, now) {
      assert t in due <==> t in multiset(due);
    }
    forall i, j | 0 <= i < j < |due| ensures Earlier(due[i], due[j]) {
      DueInOrder(q.delayed, q.next, now, i, j);
    }
    AppendFlushes(q.immediate, q.delayed, now, due, q.delayed - Due(q.delayed, now));
  }

  lemma AppendFlushes(queue: seq<Task>, heap: set<Task>, now: nat, due: seq<Task>, heap': set<Task>)
    requires forall t :: t in due <==> t in heap && IsDue(t, now)
    requires forall i, j | 0 <= i < j < |due| :: Earlier(due[i], due[j])
    requires forall t :: t in heap' <==> t in heap && !IsDue(t, now)
    ensures Flushes(queue, heap, now, queue + due, heap')
  {
    hide IsDue, Earlier;
    var n, after := |queue|, queue + due;
    assert after[n..] == due;
    forall i, j | n <= i < j < |after| ensures Earlier(after[i], after[j]) {
      assert after[i] == due[i - n] && after[j] == due[j - n];
    }
  }

  lemma DueInOrder(h: set<Task>, next: nat, now: nat, i: nat, j: nat)
    requires HeapWellFormed(h, next) && i < j < |Ordered(Due(h, now))|
    ensures Earlier(Ordered(Due(h, now))[i], Ordered(Due(h, now))[j])
  {
    OrderedSorted(Due(h, now));
    OrderedMembers(Due(h, now));
    LessIsEarlier(Ordered(Due(h, now))[i], Ordered(Due(h, now))[j]);
  }

  lemma LessIsEarlier(a: Task, b: Task)
    requires a.readyTime.Some? && b.readyTime.Some?
    ensures Cmp(a, b) == Less <==> Earlier(a, b)
  {
  }

  /** A take is a flush whose first task is handed out; there is none exactly if nothing is queued or due. */
  lemma TakeFlushes(q: State, now: nat)
    requires HeapWellFormed(q.delayed, q.next)
    ensures TakenTask(q, now).None? <==> q.immediate == [] && forall t | t in q.delayed :: !IsDue(t, now)
    ensures TakenTask(q, now).Some? ==>
              Flushes(q.immediate, q.delayed, now,
                      [TakenTask(q, now).value] + AfterTake(q, now).immediate, AfterTake(q, now).delayed)
  {
    hide Flushed, Flushes, IsDue, HeapWellFormed;
    FlushedFlushes(q, now);
    EmptyFlush(q.immediate, q.delayed, now, Flushed(q, now).immediate, Flushed(q, now).delayed);
    if TakenTask(q, now).Some? {
      assert [TakenTask(q, now).value] + AfterTake(q, now).immediate == Flushed(q, now).immediate;
    }
  }

  lemma EmptyFlush(queue: seq<Task>, heap: set<Task>, now: nat, queue': seq<Task>, heap': set<Task>)
    requires Flushes(queue, heap, now, queue', heap')
    ensures queue' == [] <==> queue == [] && forall t | t in heap :: !IsDue(t, now)
  {
    hide IsDue, Earlier;
    if queue' != [] && queue == [] {
      assert queue'[0] in queue'[|queue|..];
    }
  }

  // ---- The sequence itself ----

  datatype RunStatus = Disallowed | AllowedNotSaturated

  /** The least element of a distinct heap is the one that every description of the pop order puts first. */
  lemma LeastUnique(h: set<Task>, a: Task, b: Task)
    requires Distinct(h) && IsLeast(h, a) && IsLeast(h, b)
    ensures a == b
  {
    assert Cmp(a, b) == Equal;
  }

  /** Looking at the minimum is enough to know whether anything is due. */
  lemma LeastDecides(h: set<Task>, m: Task, now: nat)
    requires IsLeast(h, m)
    ensures ReadyAt(m) <= now <==> exists t :: t in h && ReadyAt(t) <= now
    ensures ReadyAt(m) <= now <==> Due(h, now) != {}
  {
    forall t | t in h ensures ReadyAt(m) <= ReadyAt(t) {
      assert Cmp(m, t) != Greater;
    }
    assert ReadyAt(m) <= now ==> m in Due(h, now);
  }

  /** One turn of the flush: the minimum moves to the back of the immediate queue. */
  function MoveOne(q: State, m: Task, now: nat): State {
    q.(immediate := q.immediate + [m], delayed := q.delayed - {m},
       arrivals := q.arrivals + [m], stamps := q.stamps + [Stamp(q.next, now)])
  }

  /** The due minimum of a heap is the first to be popped. */
  lemma LeastPopsFirst(h: set<Task>, m: Task, now: nat)
    requires Distinct(h) && IsLeast(h, m) && ReadyAt(m) <= now
    ensures Ordered(Due(h, now)) == [m] + Ordered(Due(h - {m}, now))
    ensures h - Due(h, now) == (h - {m}) - Due(h - {m}, now)
  {
    var d := Due(h, now);
    LeastUnique(d, m, Least(d));
    assert d - {m} == Due(h - {m}, now);
  }

  lemma Regroup<T>(a: seq<T>, x: T, b: seq<T>)
    ensures (a + [x]) + b == a + ([x] + b)
  {
  }

  lemma RepeatOnce(stamp: Stamp, n: nat)
    ensures Repeat(stamp, n + 1) == [stamp] + Repeat(stamp, n)
  {
  }

  /** Moving a due minimum leaves the flush that is still to come with the same outcome. */
  lemma MoveOneFlushes(q: State, m: Task, now: nat)
    requires Distinct(q.delayed) && IsLeast(q.delayed, m) && ReadyAt(m) <= now
    ensures Flushed(MoveOne(q, m, now), now) == Flushed(q, now)
  {
    LeastPopsFirst(q.delayed, m, now);
    hide Ordered, Due, Distinct, IsLeast, Repeat;
    var rest, stamp := Ordered(Due(q.delayed - {m}, now)), Stamp(q.next, now);
    Regroup(q.immediate, m, rest);
    Regroup(q.arrivals, m, rest);
    Regroup(q.stamps, stamp, Repeat(stamp, |rest|));
    RepeatOnce(stamp, |rest|);
  }

  lemma NothingToFlush(q: State, now: nat)
    requires Due(q.delayed, now) == {}
    ensures Flushed(q, now) == q
  {
    assert q.immediate + [] == q.immediate && q.arrivals + [] == q.arrivals;
    assert q.stamps + Repeat(Stamp(q.next, now), 0) == q.stamps;
    assert q.delayed - {} == q.delayed;
  }

  /**
   * Instant arguments named `now` stand for the reading of the clock inside the critical section.
   */
  class Sequence {
    const token: nat
    const traits: TaskTraits
    var immediateQueue: seq<Task>
    var delayedQueue: set<Task>
    var nextSequenceNum: nat
    var hasWorker: bool
    ghost var posted: seq<Task>
    ghost var arrivals: seq<Task>
    ghost var stamps: seq<Stamp>
    ghost var taken: seq<Task>

    ghost function Model(): State
      reads this
    {
      State(immediateQueue, delayedQueue, nextSequenceNum, hasWorker, posted, arrivals, stamps, taken)
    }

    constructor (token: nat, traits: TaskTraits)
      ensures Model() == EMPTY && this.token == token && this.traits == traits
    {
      this.token := token;
      this.traits := traits;
      immediateQueue, delayedQueue, nextSequenceNum, hasWorker := [], {}, 0, false;
      posted, arrivals, stamps, taken := [], [], [], [];
    }

    method PushTask(callback: nat, ghost now: nat)
      requires Valid(Model(), now)
      modifies this
      ensures immediateQueue == old(immediateQueue) + [Task(callback, old(nextSequenceNum), None)]
      ensures posted == old(posted) + [Task(callback, old(nextSequenceNum), None)]
      ensures nextSequenceNum == old(nextSequenceNum) + 1
      ensures delayedQueue == old(delayedQueue) && hasWorker == old(hasWorker)
      ensures Model() == WithTask(old(Model()), callback, now)
      ensures Valid(Model(), now)
    {
      PushTaskValid(Model(), callback, now);
      var task := Task(callback, nextSequenceNum, None);
      nextSequenceNum := nextSequenceNum + 1;
      immediateQueue := immediateQueue + [task];
      posted, arrivals := posted + [task], arrivals + [task];
      stamps := stamps + [Stamp(nextSequenceNum, now)];
    }

    method PushDelayedTask(callback: nat, readyTime: nat, ghost now: nat)
      requires Valid(Model(), now)
      modifies this
      ensures delayedQueue == old(delayedQueue) + {Task(callback, old(nextSequenceNum), Some(readyTime))}
      ensures posted == old(posted) + [Task(callback, old(nextSequenceNum), Some(readyTime))]
      ensures nextSequenceNum == old(nextSequenceNum) + 1
      ensures immediateQueue == old(immediateQueue) && hasWorker == old(hasWorker)
      ensures Model() == WithDelayed(old(Model()), callback, readyTime)
      ensures Valid(Model(), now)
    {
      PushDelayedValid(Model(), callback, readyTime, now);
      var task := Task(callback, nextSequenceNum, Some(readyTime));
      nextSequenceNum := nextSequenceNum + 1;
      delayedQueue := delayedQueue + {task};
      posted := posted + [task];
    }

    /** Peek, pop and push until the earliest deadline is still to come. */
    method FlushReadyDelayedTasks(now: nat)
      requires HeapWellFormed(delayedQueue, nextSequenceNum)
      modifies this`immediateQueue, this`delayedQueue, this`arrivals, this`stamps
      ensures Model() == Flushed(old(Model()), now)
      ensures Flushes(old(immediateQueue), old(delayedQueue), now, immediateQueue, delayedQueue)
    {
      hide Flushed, Ordered, Flushes;
      FlushedFlushes(Model(), now);
      ghost var q := Model();
      while delayedQueue != {}
        invariant Distinct(delayedQueue)
        invariant Flushed(Model(), now) == Flushed(q, now)
        decreases |delayedQueue|
      {
        ghost var m := LeastExists(delayedQueue);
        var least :| IsLeast(delayedQueue, least);
        if ReadyAt(least) <= now {
          ghost var before := Model();
          MoveOneFlushes(before, least, now);
          delayedQueue := delayedQueue - {least};
          immediateQueue := immediateQueue + [least];
          arrivals, stamps := arrivals + [least], stamps + [Stamp(nextSequenceNum, now)];
          assert Model() == MoveOne(before, least, now);
        } else {
          LeastDecides(delayedQueue, least, now);
          break;
        }
      }
      NothingToFlush(Model(), now);
    }

    method HasReadyTasks(now: nat) returns (ready: bool)
      ensures ready == HasReady(Model(), now)
      ensures ready <==> immediateQueue != [] || exists t :: t in delayedQueue && IsDue(t, now)
    {
      ready := immediateQueue != [];
      if !ready && delayedQueue != {} {
        ghost var m := LeastExists(delayedQueue);
        var least :| IsLeast(delayedQueue, least);
        ready := ReadyAt(least) <= now;
        LeastDecides(delayedQueue, least, now);
      }
    }

    method WillReEnqueue(now: nat) returns (ready: bool)
      ensures ready == HasReady(Model(), now)
    {
      ready := HasReadyTasks(now);
    }

    /** The swap of the flag: the claim succeeds exactly if nobody owns the sequence. */
    method WillRunTask() returns (status: RunStatus)
      modifies this`hasWorker
      ensures status == if old(hasWorker) then Disallowed else AllowedNotSaturated
      ensures Model() == old(Model()).(hasWorker := true)
    {
      status := if hasWorker then Disallowed else AllowedNotSaturated;
      hasWorker := true;
    }

    method TakeTask(now: nat) returns (task: Option<Task>)
      requires Valid(Model(), now)
      modifies this
      ensures Model() == AfterTake(old(Model()), now)
      ensures task == TakenTask(old(Model()), now)
      ensures task.None? <==> old(immediateQueue) == [] && forall t | t in old(delayedQueue) :: !IsDue(t, now)
      ensures task.Some? ==>
                Flushes(old(immediateQueue), old(delayedQueue), now, [task.value] + immediateQueue, delayedQueue)
      ensures Valid(Model(), now)
    {
      ghost var q := Model();
      hide Flushed, Flushes;
      assert Valid(AfterTake(q, now), now) by { TakeTaskValid(q, now); }
      TakeFlushes(q, now);
      FlushReadyDelayedTasks(now);
      if immediateQueue == [] {
        task := None;
      } else {
        task := Some(immediateQueue[0]);
        taken := taken + [immediateQueue[0]];
        immediateQueue := immediateQueue[1..];
      }
    }

    /** First the flag is cleared, then the queues are looked at. */
    method DidProcessTask(now: nat) returns (more: bool)
      modifies this`hasWorker
      ensures Model() == old(Model()).(hasWorker := false)
      ensures more == HasReady(Model(), now)
    {
      hasWorker := false;
      more := HasReadyTasks(now);
    }
  }
}
