/**
 * The public ends of the pool: posting through a sequenced runner
 * (rust_task/thread_pool/pooled_sequenced_task_runner.rs) and through the pool itself
 * (rust_task/thread_pool/thread_pool.rs), each call run without interference.
 */
module ThreadPools {
  import opened Basics
  import opened Traits
  import opened Sequences
  import Q = PriorityQueues
  import D = DelayedTasks
  import T = TaskTrackers
  import G = ThreadGroups

  class PooledSequencedTaskRunner {
    const sequence: Sequence
    const threadGroup: G.ThreadGroup
    const delayedTaskManager: D.DelayedTaskManager

    constructor (traits: TaskTraits, token: nat, threadGroup: G.ThreadGroup, delayedTaskManager: D.DelayedTaskManager)
      ensures fresh(sequence) && sequence.Model() == EMPTY && sequence.traits == traits && sequence.token == token
      ensures this.threadGroup == threadGroup && this.delayedTaskManager == delayedTaskManager
    {
      sequence := new Sequence(token, traits);
      this.threadGroup, this.delayedTaskManager := threadGroup, delayedTaskManager;
    }

    /** First the task is in the sequence, then the sequence is in the queue. */
    method PostTask(callback: nat, now: nat) returns (accepted: bool)
      requires Valid(sequence.Model(), now) && threadGroup.queue.Consistent(now)
      modifies sequence, threadGroup.queue, threadGroup`sleepers
      ensures accepted && Valid(sequence.Model(), now) && threadGroup.queue.Consistent(now)
      ensures sequence.Model() == WithTask(old(sequence.Model()), callback, now)
      ensures threadGroup.queue.Model() ==
                Q.WithEntry(old(threadGroup.queue.Model()), sequence.traits.priority, now, sequence.token)
    {
      sequence.PushTask(callback, now);
      var _ := threadGroup.PushTaskSource(sequence, now);
      accepted := true;
    }

    method PostDelayedTask(callback: nat, delay: nat, now: nat) returns (accepted: bool)
      requires Valid(sequence.Model(), now) && delayedTaskManager.Consistent()
      modifies sequence, delayedTaskManager
      ensures accepted && Valid(sequence.Model(), now) && delayedTaskManager.Consistent()
      ensures sequence.Model() == WithDelayed(old(sequence.Model()), callback, now + delay)
      ensures delayedTaskManager.heap ==
                old(delayedTaskManager.heap)
                + {D.DelayedEntry(now + delay, old(delayedTaskManager.nextId), sequence.token)}
      ensures !delayedTaskManager.waiting
    {
      var readyTime := now + delay;
      sequence.PushDelayedTask(callback, readyTime, now);
      delayedTaskManager.AddSequence(readyTime, sequence);
      accepted := true;
    }
  }

  class ThreadPool {
    const taskTracker: T.TaskTracker
    const delayedTaskManager: D.DelayedTaskManager
    const threadGroup: G.ThreadGroup

    constructor (threads: set<nat>)
      ensures fresh(taskTracker) && fresh(delayedTaskManager) && fresh(threadGroup) && fresh(threadGroup.queue)
      ensures taskTracker.Consistent() && taskTracker.Model() == T.Tracker(false, 0)
      ensures threadGroup.queue.Model() == Q.EMPTY && threadGroup.handles == threads && !threadGroup.shutdown
    {
      taskTracker := new T.TaskTracker();
      delayedTaskManager := new D.DelayedTaskManager();
      threadGroup := new G.ThreadGroup(threads);
    }

    /**
     * A rejected post leaves no trace. An accepted one gets a sequence of its own and, if it blocks
     * shutdown, is counted.
     */
    method PostTask(traits: TaskTraits, callback: nat, token: nat, now: nat) returns (sequence: Sequence?)
      requires taskTracker.Consistent() && threadGroup.queue.Consistent(now)
      modifies taskTracker`numTasksBlockingShutdown, threadGroup.queue, threadGroup`sleepers
      ensures taskTracker.Consistent() && threadGroup.queue.Consistent(now)
      ensures sequence != null <==> T.Admits(old(taskTracker.Model()), traits.shutdownBehavior)
      ensures sequence == null ==>
                && taskTracker.Model() == old(taskTracker.Model())
                && threadGroup.queue.Model() == old(threadGroup.queue.Model())
      ensures sequence != null ==>
                && fresh(sequence) && sequence.Model() == WithTask(EMPTY, callback, now)
                && taskTracker.Model() == T.Admitted(old(taskTracker.Model()), traits.shutdownBehavior)
                && threadGroup.queue.Model() == Q.WithEntry(old(threadGroup.queue.Model()), traits.priority, now, token)
    {
      var admitted := taskTracker.WillPostTask(traits.shutdownBehavior);
      if !admitted {
        return null;
      }
      EmptyValid(now);
      sequence := new Sequence(token, traits);
      sequence.PushTask(callback, now);
      var _ := threadGroup.PushTaskSource(sequence, now);
    }

    method PostDelayedTask(traits: TaskTraits, callback: nat, delay: nat, token: nat, now: nat)
      returns (sequence: Sequence?)
      requires taskTracker.Consistent() && delayedTaskManager.Consistent()
      modifies taskTracker`numTasksBlockingShutdown, delayedTaskManager
      ensures taskTracker.Consistent() && delayedTaskManager.Consistent()
      ensures sequence != null <==> T.Admits(old(taskTracker.Model()), traits.shutdownBehavior)
      ensures sequence == null ==>
                && taskTracker.Model() == old(taskTracker.Model())
                && delayedTaskManager.heap == old(delayedTaskManager.heap)
      ensures sequence != null ==>
                && fresh(sequence) && sequence.Model() == WithDelayed(EMPTY, callback, now + delay)
                && taskTracker.Model() == T.Admitted(old(taskTracker.Model()), traits.shutdownBehavior)
                && delayedTaskManager.heap ==
                     old(delayedTaskManager.heap) + {D.DelayedEntry(now + delay, old(delayedTaskManager.nextId), token)}
    {
      var admitted := taskTracker.WillPostTask(traits.shutdownBehavior);
      if !admitted {
        return null;
      }
      EmptyValid(now);
      var readyTime := now + delay;
      sequence := new Sequence(token, traits);
      sequence.PushDelayedTask(callback, readyTime, now);
      delayedTaskManager.AddSequence(readyTime, sequence);
    }

    /** The wrapper around each callback: drop it, or run it and settle with the tracker. */
    method RunWrapped(behavior: ShutdownBehavior) returns (ran: bool)
      requires taskTracker.Consistent() && (behavior == BlockShutdown ==> taskTracker.numTasksBlockingShutdown > 0)
      modifies taskTracker`numTasksBlockingShutdown, taskTracker`waiters
      ensures taskTracker.Consistent()
      ensures ran <==> !(taskTracker.shutdownStarted && behavior == SkipOnShutdown)
      ensures taskTracker.Model() ==
                if ran then T.AfterRun(old(taskTracker.Model()), behavior) else old(taskTracker.Model())
    {
      var started := taskTracker.IsShutdownStarted();
      if started && behavior == SkipOnShutdown {
        return false;
      }
      taskTracker.AfterRunTask(behavior);
      ran := true;
    }
  }
}
