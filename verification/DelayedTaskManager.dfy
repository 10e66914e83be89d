/** The timer heap of the delayed task manager (rust_task/thread_pool/delayed_task_manager.rs). */
module DelayedTasks {
  import opened Basics
  import Sequences

  /** A sequence that has a delayed task ready at `readyTime`. */
  datatype DelayedEntry = DelayedEntry(readyTime: nat, id: nat, source: nat)

  /** `DelayedEntry::cmp`: by deadline, then by entry id. */
  function Cmp(a: DelayedEntry, b: DelayedEntry): Ordering {
    Compare(a.readyTime, b.readyTime).Then(Compare(a.id, b.id))
  }

  predicate IsNext(heap: set<DelayedEntry>, e: DelayedEntry) {
    e in heap && forall x | x in heap :: Cmp(e, x) != Greater
  }

  /** `id` of the next entry to come is `nextId`, so ids are unique and `Cmp` never ties. */
  ghost predicate HeapValid(heap: set<DelayedEntry>, nextId: nat) {
    && (forall e | e in heap :: e.id < nextId)
    && (forall a, b | a in heap && b in heap && a.id == b.id :: a == b)
  }

  lemma {:induction false} NextExists(heap: set<DelayedEntry>) returns (e: DelayedEntry)
    requires heap != {}
    ensures IsNext(heap, e)
    decreases |heap|
  {
    var x :| x in heap;
    if heap == {x} {
      e := x;
    } else {
      var n := NextExists(heap - {x});
      e := if Cmp(x, n) == Greater then n else x;
      forall y | y in heap ensures Cmp(e, y) != Greater {
        if y != x {
          assert y in heap - {x};
        }
      }
    }
  }

  /** The earlier deadline goes first; among equal ones, the entry that was added first. */
  predicate Precedes(a: DelayedEntry, b: DelayedEntry) {
    a.readyTime < b.readyTime || (a.readyTime == b.readyTime && a.id < b.id)
  }

  /** Nothing ties with the next entry: it is exactly the one that comes strictly before every other one. */
  lemma NextIsStrict(heap: set<DelayedEntry>, nextId: nat, e: DelayedEntry)
    requires HeapValid(heap, nextId)
    ensures IsNext(heap, e) <==> e in heap && forall x | x in heap && x != e :: Precedes(e, x)
  {
    if IsNext(heap, e) {
      forall x | x in heap && x != e ensures Precedes(e, x) {
        assert Cmp(e, x) != Greater;
      }
    } else if e in heap {
      var x :| x in heap && Cmp(e, x) == Greater;
      assert !Precedes(e, x);
    }
  }

  /** What one turn of `timer_loop` comes to. */
  datatype Turn = Stop | WaitForNotice | WaitUntil(time: nat) | Fire(entry: DelayedEntry)

  function NextTurn(heap: set<DelayedEntry>, shutdown: bool, now: nat, next: DelayedEntry): Turn {
    if shutdown then Stop
    else if heap == {} then WaitForNotice
    else if next.readyTime <= now then Fire(next)
    else WaitUntil(next.readyTime)
  }

  /** `waiting` holds while the timer thread is in the condition variable. */
  class DelayedTaskManager {
    var heap: set<DelayedEntry>
    var nextId: nat
    var shutdown: bool
    var waiting: bool
    var handle: bool

    constructor ()
      ensures heap == {} && nextId == 0 && !shutdown && !waiting && handle
    {
      heap, nextId, shutdown, waiting, handle := {}, 0, false, false, true;
    }

    ghost predicate Consistent()
      reads this
    {
      HeapValid(heap, nextId)
    }

    /** Registers the deadline, then wakes the timer thread, in case this one is earlier. */
    method AddSequence(readyTime: nat, sequence: Sequences.Sequence)
      requires Consistent()
      modifies this
      ensures Consistent() && nextId == old(nextId) + 1
      ensures heap == old(heap) + {DelayedEntry(readyTime, old(nextId), sequence.token)}
      ensures old(heap) < heap
      ensures !waiting && shutdown == old(shutdown) && handle == old(handle)
    {
      var e := DelayedEntry(readyTime, nextId, sequence.token);
      assert e !in heap;
      heap, nextId := heap + {e}, nextId + 1;
      waiting := false;
    }

    /** One turn of the timer thread. It fires only the earliest entry, and only when that is due. */
    method TimerTurn(now: nat) returns (turn: Turn, ghost first: DelayedEntry)
      requires Consistent()
      modifies this`heap, this`waiting
      ensures Consistent()
      ensures (old(heap) != {} ==> IsNext(old(heap), first)) && turn == NextTurn(old(heap), shutdown, now, first)
      ensures turn.Stop? <==> shutdown
      ensures turn.WaitForNotice? <==> !shutdown && old(heap) == {}
      ensures turn.Fire? ==>
                && turn.entry in old(heap) && heap == old(heap) - {turn.entry} && turn.entry.readyTime <= now
                && forall e | e in heap :: Precedes(turn.entry, e)
      ensures !turn.Fire? ==> heap == old(heap)
      ensures turn.WaitUntil? ==> turn.time > now && forall e | e in heap :: turn.time <= e.readyTime
      ensures turn.WaitUntil? ==> exists e :: e in heap && e.readyTime == turn.time
      ensures waiting <==> turn.WaitForNotice? || turn.WaitUntil?
    {
      waiting := false;
      var next := DelayedEntry(0, 0, 0);
      if heap != {} {
        ghost var n := NextExists(heap);
        next :| IsNext(heap, next);
        NextIsEarliest(heap, next);
        NextIsStrict(heap, nextId, next);
      }
      turn := NextTurn(heap, shutdown, now, next);
      first := next;
      match turn
      case Fire(e) => heap := heap - {e};
      case WaitForNotice => waiting := true;
      case WaitUntil(_) => waiting := true;
      case Stop =>
    }

    /** Sets the flag, wakes the timer thread, and takes its handle. */
    method Shutdown() returns (joins: bool)
      modifies this`shutdown, this`waiting, this`handle
      ensures shutdown && !waiting && !handle && joins == old(handle)
    {
      shutdown, waiting := true, false;
      joins := handle;
      handle := false;
    }
  }

  lemma NextIsEarliest(heap: set<DelayedEntry>, next: DelayedEntry)
    requires IsNext(heap, next)
    ensures forall e | e in heap :: next.readyTime <= e.readyTime
  {
    forall e | e in heap ensures next.readyTime <= e.readyTime {
      assert Cmp(next, e) != Greater;
    }
  }
}
