/**
 * The priority queue of task sources (rust_task/thread_pool/priority_queue.rs).
 *
 * The binary heap is the set of its entries; equal keys may leave it in any order. A `ticket`
 * counts the pushes and tells entries apart that carry equal keys.
 */
module PriorityQueues {
  import opened Basics
  import opened Traits
  import Sequences

  datatype Entry = Entry(priority: TaskPriority, readyTime: nat, source: nat, ticket: nat)

  /** `QueueEntry::cmp`: by priority, then reversed by the time stamp. The heap pops a greatest entry. */
  function Cmp(a: Entry, b: Entry): Ordering {
    Compare(Rank(a.priority), Rank(b.priority)).Then(Compare(b.readyTime, a.readyTime))
  }

  /** The heap, and its history: every entry ever pushed and the tickets popped so far, in order. */
  datatype Queue = Queue(heap: set<Entry>, pushed: seq<Entry>, served: seq<nat>)

  const EMPTY: Queue := Queue({}, [], [])

  function WithEntry(q: Queue, priority: TaskPriority, now: nat, source: nat): Queue {
    var e := Entry(priority, now, source, |q.pushed|);
    q.(heap := q.heap + {e}, pushed := q.pushed + [e])
  }

  /** A heap pops any entry that no other one exceeds. */
  predicate IsTop(heap: set<Entry>, e: Entry) {
    e in heap && forall x | x in heap :: Cmp(x, e) != Greater
  }

  /** No waiting entry is more urgent than `e`, and none of its priority has waited longer. */
  ghost predicate Foremost(heap: set<Entry>, e: Entry) {
    && e in heap
    && forall x | x in heap ::
         !MoreUrgent(x.priority, e.priority) && (x.priority == e.priority ==> e.readyTime <= x.readyTime)
  }

  /** What a heap ordered by `Cmp` may pop is exactly what is foremost. */
  lemma TopIffForemost(heap: set<Entry>, e: Entry)
    ensures IsTop(heap, e) <==> Foremost(heap, e)
  {
    assert forall x: Entry :: Cmp(x, e) != Greater <==>
      !MoreUrgent(x.priority, e.priority) && (x.priority == e.priority ==> e.readyTime <= x.readyTime);
  }

  function AfterPop(q: Queue, e: Entry): Queue {
    q.(heap := q.heap - {e}, served := q.served + [e.ticket])
  }

  lemma {:induction false} TopExists(heap: set<Entry>) returns (e: Entry)
    requires heap != {}
    ensures IsTop(heap, e)
    decreases |heap|
  {
    var x :| x in heap;
    if heap == {x} {
      e := x;
    } else {
      var n := TopExists(heap - {x});
      e := if Cmp(n, x) == Greater then n else x;
      forall y | y in heap ensures Cmp(y, e) != Greater {
        if y != x {
          assert y in heap - {x};
        }
      }
    }
  }

  /** Each ticket is either waiting in the heap or served, once. */
  ghost predicate Accounted(q: Queue) {
    && (forall e | e in q.heap :: e.ticket < |q.pushed| && q.pushed[e.ticket] == e)
    && (forall k | 0 <= k < |q.pushed| :: q.pushed[k].ticket == k && (q.pushed[k] in q.heap <==> k !in q.served))
    && (forall i, j | 0 <= i < j < |q.served| :: q.served[i] != q.served[j])
    && (forall i | 0 <= i < |q.served| :: q.served[i] < |q.pushed|)
  }

  /** Stamps never run backwards. */
  ghost predicate StampsAscend(q: Queue, now: nat) {
    && (forall k | 0 <= k < |q.pushed| :: q.pushed[k].readyTime <= now)
    && (forall k, l | 0 <= k < l < |q.pushed| :: q.pushed[k].readyTime <= q.pushed[l].readyTime)
  }

  /** `x` has at least the priority of `y` and was queued at a strictly earlier instant. */
  predicate GoesFirst(x: Entry, y: Entry) {
    !MoreUrgent(y.priority, x.priority) && x.readyTime < y.readyTime
  }

  /** Round robin: an entry is served only after every entry that goes first. */
  ghost predicate RoundRobin(q: Queue) {
    forall i, k | 0 <= i < |q.served| && 0 <= k < |q.pushed| && q.served[i] < |q.pushed| ::
      GoesFirst(q.pushed[k], q.pushed[q.served[i]]) ==> k in q.served[..i]
  }

  ghost predicate Valid(q: Queue, now: nat) {
    Accounted(q) && StampsAscend(q, now) && RoundRobin(q)
  }

  lemma PushValid(q: Queue, priority: TaskPriority, now: nat, source: nat)
    requires Valid(q, now)
    ensures Valid(WithEntry(q, priority, now, source), now)
  {
    var r := WithEntry(q, priority, now, source);
    assert forall k | 0 <= k < |q.pushed| :: r.pushed[k] == q.pushed[k];
    assert Accounted(r);
    forall i, k | 0 <= i < |r.served| && 0 <= k < |r.pushed| && r.served[i] < |r.pushed|
      && GoesFirst(r.pushed[k], r.pushed[r.served[i]])
      ensures k in r.served[..i]
    {
      assert r.served[i] < |q.pushed|;
    }
  }

  lemma PopValid(q: Queue, e: Entry, now: nat)
    requires Valid(q, now) && IsTop(q.heap, e)
    ensures Valid(AfterPop(q, e), now)
  {
    var r := AfterPop(q, e);
    var n := |q.served|;
    forall i, k | 0 <= i < |r.served| && 0 <= k < |r.pushed| && r.served[i] < |r.pushed|
      && GoesFirst(r.pushed[k], r.pushed[r.served[i]])
      ensures k in r.served[..i]
    {
      if i < n {
        assert r.served[i] == q.served[i] && r.served[..i] == q.served[..i];
      } else {
        assert r.served[..n] == q.served;
        assert q.pushed[k] !in q.heap;
      }
    }
  }

  lemma ValidLater(q: Queue, now: nat, later: nat)
    requires Valid(q, now) && now <= later
    ensures Valid(q, later)
  {
  }

  // ---- The queue itself ----

  /** `tickets` has no counterpart in the program: it keeps entries with equal keys apart. */
  class PriorityQueue {
    var heap: set<Entry>
    var tickets: nat
    ghost var pushed: seq<Entry>
    ghost var served: seq<nat>

    ghost function Model(): Queue
      reads this
    {
      Queue(heap, pushed, served)
    }

    ghost predicate Consistent(now: nat)
      reads this
    {
      tickets == |pushed| && Valid(Model(), now)
    }

    constructor ()
      ensures Model() == EMPTY && tickets == 0
    {
      heap, tickets, pushed, served := {}, 0, [], [];
    }

    /** The key is read when the entry is pushed: the priority of the source and the current time. */
    method Push(source: Sequences.Sequence, now: nat)
      requires Consistent(now)
      modifies this
      ensures Model() == WithEntry(old(Model()), source.traits.priority, now, source.token)
      ensures heap == old(heap) + {Entry(source.traits.priority, now, source.token, old(tickets))}
      ensures Consistent(now)
    {
      PushValid(Model(), source.traits.priority, now, source.token);
      var e := Entry(source.traits.priority, now, source.token, tickets);
      heap, tickets, pushed := heap + {e}, tickets + 1, pushed + [e];
    }

    method Pop(ghost now: nat) returns (e: Option<Entry>)
      requires Consistent(now)
      modifies this
      ensures match e
              case None => old(heap) == {} && Model() == old(Model())
              case Some(x) =>
                && Foremost(old(heap), x) && heap == old(heap) - {x}
                && IsTop(old(heap), x) && Model() == AfterPop(old(Model()), x)
      ensures Consistent(now)
    {
      if heap == {} {
        e := None;
      } else {
        ghost var t := TopExists(heap);
        var top :| IsTop(heap, top);
        TopIffForemost(heap, top);
        PopValid(Model(), top, now);
        e := Some(top);
        heap, served := heap - {top}, served + [top.ticket];
      }
    }

    method IsEmpty() returns (empty: bool)
      ensures empty <==> heap == {}
    {
      empty := heap == {};
    }
  }
}
