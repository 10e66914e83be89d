/** The shutdown bookkeeping of the pool (rust_task/thread_pool/task_tracker.rs). */
module TaskTrackers {
  import opened Traits

  /** The counter is an `int` here, so that a decrement below zero would show. */
  datatype Tracker = Tracker(shutdownStarted: bool, blocking: int)

  predicate Admits(t: Tracker, behavior: ShutdownBehavior) {
    !t.shutdownStarted || behavior == ContinueOnShutdown
  }

  /** `will_post_task`, for a post it admits. */
  function Admitted(t: Tracker, behavior: ShutdownBehavior): Tracker {
    if !t.shutdownStarted && behavior == BlockShutdown then t.(blocking := t.blocking + 1) else t
  }

  /** `after_run_task`. */
  function AfterRun(t: Tracker, behavior: ShutdownBehavior): Tracker {
    if behavior == BlockShutdown then t.(blocking := t.blocking - 1) else t
  }

  /** `after_run_task` wakes the threads that wait for shutdown exactly when this holds. */
  predicate NotifiesShutdown(t: Tracker, behavior: ShutdownBehavior) {
    behavior == BlockShutdown && t.blocking == 1
  }

  /** `waiters` are the threads in the condition variable of `shutdown`. */
  class TaskTracker {
    var shutdownStarted: bool
    var numTasksBlockingShutdown: nat
    var waiters: set<nat>

    function Model(): Tracker
      reads this
    {
      Tracker(shutdownStarted, numTasksBlockingShutdown)
    }

    /** Whoever waits for shutdown waits for a task. */
    ghost predicate Consistent()
      reads this
    {
      waiters != {} ==> shutdownStarted && numTasksBlockingShutdown > 0
    }

    constructor ()
      ensures Model() == Tracker(false, 0) && waiters == {} && Consistent()
    {
      shutdownStarted, numTasksBlockingShutdown, waiters := false, 0, {};
    }

    method WillPostTask(behavior: ShutdownBehavior) returns (admitted: bool)
      requires Consistent()
      modifies this`numTasksBlockingShutdown
      ensures Consistent() && admitted == Admits(old(Model()), behavior)
      ensures admitted <==> !shutdownStarted || behavior == ContinueOnShutdown
      ensures numTasksBlockingShutdown ==
                old(numTasksBlockingShutdown) + if !shutdownStarted && behavior == BlockShutdown then 1 else 0
      ensures Model() == if admitted then Admitted(old(Model()), behavior) else old(Model())
    {
      if shutdownStarted {
        return behavior == ContinueOnShutdown;
      }
      if behavior == BlockShutdown {
        numTasksBlockingShutdown := numTasksBlockingShutdown + 1;
      }
      admitted := true;
    }

    /** Each task that was admitted and blocks shutdown calls this once, so the counter is positive. */
    method AfterRunTask(behavior: ShutdownBehavior)
      requires Consistent() && (behavior == BlockShutdown ==> numTasksBlockingShutdown > 0)
      modifies this`numTasksBlockingShutdown, this`waiters
      ensures Consistent() && Model() == AfterRun(old(Model()), behavior)
      ensures waiters == if NotifiesShutdown(old(Model()), behavior) then {} else old(waiters)
      ensures numTasksBlockingShutdown ==
                old(numTasksBlockingShutdown) - if behavior == BlockShutdown then 1 else 0
      ensures waiters ==
                if behavior == BlockShutdown && numTasksBlockingShutdown == 0 then {} else old(waiters)
    {
      if behavior == BlockShutdown {
        numTasksBlockingShutdown := numTasksBlockingShutdown - 1;
        if numTasksBlockingShutdown == 0 {
          waiters := {};
        }
      }
    }

    method IsShutdownStarted() returns (started: bool)
      ensures started == shutdownStarted
    {
      started := shutdownStarted;
    }

    /** The first critical section of `shutdown`; `done` when it need not wait. */
    method BeginShutdown() returns (done: bool)
      requires Consistent()
      modifies this`shutdownStarted
      ensures Consistent() && shutdownStarted && (done <==> numTasksBlockingShutdown == 0)
    {
      shutdownStarted := true;
      done := numTasksBlockingShutdown == 0;
    }

    /** One turn of the loop in `shutdown`: leave, or wait in the same critical section. */
    method AwaitTurn(thread: nat) returns (done: bool)
      requires Consistent() && shutdownStarted
      modifies this`waiters
      ensures Consistent() && (done <==> numTasksBlockingShutdown == 0)
      ensures waiters == if done then old(waiters) else old(waiters) + {thread}
    {
      done := numTasksBlockingShutdown == 0;
      if !done {
        waiters := waiters + {thread};
      }
    }
  }
}
