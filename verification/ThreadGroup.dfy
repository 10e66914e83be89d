/** The group of workers around the shared queue (rust_task/thread_pool/thread_group.rs). */
module ThreadGroups {
  import opened Basics
  import Q = PriorityQueues
  import Sequences

  /** What one turn of the loop in `get_work` comes to. */
  datatype Turn = Stop | Work(entry: Q.Entry) | Wait

  function NextTurn(heap: set<Q.Entry>, shutdown: bool, top: Q.Entry): Turn {
    if shutdown then Stop else if heap == {} then Wait else Work(top)
  }

  /**
   * `sleepers` are the threads in the condition variable, `handles` the workers that nobody has
   * joined yet. Each method is one critical section with the notification that follows it.
   */
  class ThreadGroup {
    const queue: Q.PriorityQueue
    var shutdown: bool
    var sleepers: set<nat>
    var handles: set<nat>

    constructor (threads: set<nat>)
      ensures fresh(queue) && queue.Model() == Q.EMPTY && queue.tickets == 0
      ensures !shutdown && sleepers == {} && handles == threads
    {
      queue := new Q.PriorityQueue();
      shutdown, sleepers, handles := false, {}, threads;
    }

    /** Queues the source, then wakes one sleeper, if there is one. */
    method PushTaskSource(source: Sequences.Sequence, now: nat) returns (woken: Option<nat>)
      requires queue.Consistent(now)
      modifies queue, this`sleepers
      ensures queue.Consistent(now)
      ensures queue.Model() == Q.WithEntry(old(queue.Model()), source.traits.priority, now, source.token)
      ensures match woken
              case None => sleepers == old(sleepers) == {}
              case Some(w) => w in old(sleepers) && sleepers == old(sleepers) - {w}
    {
      queue.Push(source, now);
      if sleepers == {} {
        woken := None;
      } else {
        var w :| w in sleepers;
        sleepers := sleepers - {w};
        woken := Some(w);
      }
    }

    /** A thread goes to sleep only after it has seen, in the same critical section, no work and no stop. */
    method GetWorkTurn(thread: nat, ghost now: nat) returns (turn: Turn, ghost top: Q.Entry)
      requires queue.Consistent(now)
      modifies queue, this`sleepers
      ensures queue.Consistent(now)
      ensures old(queue.heap) != {} && !shutdown ==> Q.IsTop(old(queue.heap), top)
      ensures turn == NextTurn(old(queue.heap), shutdown, top)
      ensures (turn.Stop? <==> shutdown) && (turn.Wait? <==> !shutdown && old(queue.heap) == {})
      ensures turn.Work? ==> Q.Foremost(old(queue.heap), turn.entry) && queue.heap == old(queue.heap) - {turn.entry}
      ensures queue.Model() == if turn.Work? then Q.AfterPop(old(queue.Model()), turn.entry) else old(queue.Model())
      ensures sleepers == if turn.Wait? then old(sleepers) + {thread} else old(sleepers)
    {
      top := Q.Entry(Q.Traits.BestEffort, 0, 0, 0);
      if shutdown {
        turn := Stop;
        return;
      }
      var popped := queue.Pop(now);
      match popped
      case Some(e) =>
        turn := Work(e);
        top := e;
      case None =>
        turn := Wait;
        sleepers := sleepers + {thread};
    }

    /** Sets the flag, wakes everybody, and takes the handles; a second call has nothing left to join. */
    method StopAndTakeHandles() returns (joins: set<nat>)
      modifies this`shutdown, this`sleepers, this`handles
      ensures shutdown && sleepers == {} && handles == {} && joins == old(handles)
    {
      shutdown := true;
      sleepers := {};
      joins := handles;
      handles := {};
    }

    /**
     * The body of `worker_loop` for one source, run without interference; the callback itself
     * changes nothing here. An owned sequence is left alone and the entry is gone; otherwise one
     * task is taken, and the source is queued again exactly if more is ready.
     */
    method ProcessSource(source: Sequences.Sequence, now: nat) returns (task: Option<Sequences.Task>, requeued: bool)
      requires Sequences.Valid(source.Model(), now) && queue.Consistent(now)
      modifies source, queue, this`sleepers
      ensures Sequences.Valid(source.Model(), now) && queue.Consistent(now)
      ensures old(source.hasWorker) ==>
                task.None? && !requeued && source.Model() == old(source.Model()) && queue.Model() == old(queue.Model())
      ensures !old(source.hasWorker) ==>
                && task == Sequences.TakenTask(old(source.Model()).(hasWorker := true), now)
                && source.Model() ==
                     Sequences.AfterTake(old(source.Model()).(hasWorker := true), now).(hasWorker := false)
                && requeued == Sequences.HasReady(source.Model(), now)
                && queue.Model() == if requeued
                     then Q.WithEntry(old(queue.Model()), source.traits.priority, now, source.token)
                     else old(queue.Model())
    {
      hide Sequences.Valid, Sequences.AfterTake, Sequences.TakenTask;
      task, requeued := None, false;
      ghost var q := source.Model();
      var status := source.WillRunTask();
      if status == Sequences.AllowedNotSaturated {
        assert Sequences.Valid(source.Model(), now) by { Sequences.FlagValid(q, true, now); }
        task := source.TakeTask(now);
        ghost var t := source.Model();
        requeued := source.DidProcessTask(now);
        assert Sequences.Valid(source.Model(), now) by { Sequences.FlagValid(t, false, now); }
        if requeued {
          var _ := PushTaskSource(source, now);
        }
      }
    }
  }
}
