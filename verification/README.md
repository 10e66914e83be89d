# Verified model of a task runner library

A Dafny model of the Rust workspace `rust_base`: the sequenced thread pool of `rust_task`, the
event loop of the IO task runner of `rust_io`, and the repeating timer. The model is written at
two levels.

* **Objects.** Classes with the fields of the program, whose methods perform one critical section
  (or several in a row) in place: `Sequences.Sequence`, `PriorityQueues.PriorityQueue`,
  `ThreadGroups.ThreadGroup`, `DelayedTasks.DelayedTaskManager`, `TaskTrackers.TaskTracker`,
  `ThreadPools.PooledSequencedTaskRunner`, `ThreadPools.ThreadPool`,
  `IoTaskRunners.IoTaskRunner`, `IoTaskRunners.FdWatchController`,
  `RepeatingTimers.RepeatingTimer`. Their contracts tie the new state to functions of the old one.
* **Step machines.** `Pool`, `IoLoop`, `IoWatches`, `RepeatingTimers` and `TimerInPool` put the same
  functions into transition systems. A step is one critical section, one atomic operation or one
  notification of one thread, so a run is any interleaving. There are any number of sequences,
  tasks, workers, posting calls and shutdown calls; condition variables are sets of waiting
  threads that may also wake up for no reason; the clock never falls. The main results are about
  every reachable state and every run.

| file | content |
|---|---|
| Basics, Traits | options, comparisons, sums; task traits |
| Sequence | one sequence: its queues, flag and history; what every history keeps |
| PriorityQueue, DelayedTaskManager, TaskTracker, ThreadGroup, ThreadPool | the other parts of the pool |
| Pool | the thread pool as a step machine |
| PoolExclusion, PoolCoverage, PoolWakeups, PoolShutdown | the four parts of its invariant, step by step |
| PoolQuiescence | the measure of the work left: quiet runs are finite |
| PoolTheorems | what holds in every reachable state and along every run |
| PoolRest | where quiet runs end, and that shutdown cannot deadlock |
| PoolJoin | shutdown returns after the threads have ended |
| PoolPosts | callbacks, deadlines and priorities reach the workers unchanged |
| PoolRefinement | each sequence behaves like one atomic sequential executor |
| IoWatches, IoLoop, IoTaskRunner | watches and controllers; the wake-up protocol of the event loop; the objects |
| IoTasks | the event loop runs what is posted to it, once and in order |
| IoRest | when the event loop comes to rest, and when it spins |
| IoProgress | every task can be run |
| RepeatingTimer | epochs, ticks and cancellation |
| TimerInPool | the timer on a runner of the pool: the composition refines the timer |

The central argument of the pool: a worker that finds a sequence owned throws its queue entry
away. Nothing is stranded by that, because the owner clears the flag before it looks at the
sequence again. `PoolCoverage` therefore treats the clearing of the flag and the second look as two
steps, between which any other thread may run.

## Assumptions

* A pool has at least one worker; callbacks return and do not panic. Posts that callbacks make are
  posting calls like any other.
* Mutexes are critical sections, atomics are sequentially consistent, and `notify_one` wakes a
  waiting thread if there is one.
* `ready_time` of a delayed post is arbitrary, since the clock is read before the task is queued.
* `ThreadPool::shutdown` is not called from a thread of the pool, nor `IoTaskRunner::shutdown` from
  its IO thread: such a call would join its own thread (`rust_task/thread_pool/thread_group.rs:76-84`,
  `rust_io/io_task_runner.rs:283-285`). In the step machines these calls come from outside threads.
* The thread group outlives the timer thread's weak reference to it, as it does while the pool or
  one of its runners exists.
* File descriptors are watched and stopped on the IO thread, as `rust_io/README.md` asks; nobody
  watches the runner's own eventfd, and no watched descriptor is closed behind the runner's back.
  `IoWatches.ForeignStopDuringRegister` and `IoWatches.RegisterKeepsIndexIff` say exactly what is
  lost otherwise.

## Where the code and its documentation differ

`rust_task/README.md` says of BlockShutdown that `shutdown()` blocks until all such tasks finish.
The code counts only tasks posted through `ThreadPool::post_task` and `post_delayed_task`. For
these the promise is proved (`PoolTheorems.BlockingTasksAreFinished`); for tasks posted through a
runner, `PoolTheorems.RunnerTasksDoNotBlockShutdown` gives a run in which such a task is posted, then
shutdown is called and returns, and the task is never taken.
`PoolTheorems.ShutdownAwaitsIffPostedToPool` joins the two into an equivalence.

`ThreadPool::shutdown` is described as stopping all workers and the timer thread. When every call of it
has returned they are gone (`PoolJoin.AllReturnedMeansGone`); one of several overlapping calls may
return before that (`PoolJoin.OverlappingCallReturnsEarly`).

`rust_task/timer.rs` says that `stop` turns pending tasks into no-ops. It does so if and only if the
call of `start` has returned (`RepeatingTimers.SilentIffStartHasReturned`).

## Model

| member | source | states |
|---|---|---|
| Sequences.Sequence.PushTask | rust_task/thread_pool/sequence.rs:86-91 | the callback posted, with the next number and no deadline, goes to the back of the immediate queue; the history stays valid |
| Sequences.Sequence.PushDelayedTask | rust_task/thread_pool/sequence.rs:93-102 | the callback posted, with the next number and its deadline, enters the heap; the history stays valid |
| Sequences.Sequence.FlushReadyDelayedTasks | rust_task/thread_pool/sequence.rs:104-115 | the loop of peeks and pops moves exactly the due tasks, in the order of deadline and post, behind the immediate queue |
| Sequences.Sequence.HasReadyTasks | rust_task/thread_pool/sequence.rs:130-134 | looking at the queue and at the earliest deadline decides whether any task is ready |
| Sequences.Sequence.WillRunTask | rust_task/thread_pool/sequence.rs:136-144 | the claim succeeds exactly if nobody owned the sequence, which is owned afterwards |
| Sequences.Sequence.TakeTask | rust_task/thread_pool/sequence.rs:146-150 | the due tasks go behind the queue by deadline and post, and the front is handed out; there is none exactly if nothing is queued or due |
| Sequences.Sequence.DidProcessTask | rust_task/thread_pool/sequence.rs:152-158 | the flag is cleared, and the answer says whether any task is ready |
| Sequences.OrderedSorted | rust_task/thread_pool/sequence.rs:38-44 | the pop order of the heap is strictly increasing by deadline, then by post order |
| Sequences.FlushInOrder | rust_task/thread_pool/sequence.rs:104-115 | a flush keeps the order of arrivals: delayed tasks that met in the heap arrive by deadline and post order |
| Sequences.FlushedFlushes | rust_task/thread_pool/sequence.rs:104-115 | a flush puts exactly the due tasks behind the queue, the earlier deadline first and among equal ones the earlier post, and leaves the others in the heap |
| Sequences.FlushConserved | rust_task/thread_pool/sequence.rs:104-115 | a flush neither loses nor doubles a task |
| Sequences.TakeTaskValid | rust_task/thread_pool/sequence.rs:146-150 | taking keeps FIFO, conservation and order; it finds a task exactly when one is ready, never before its deadline |
| PriorityQueues.TopIffForemost | rust_task/thread_pool/priority_queue.rs:28-38 | the comparison of entries puts first exactly those that no other one exceeds in priority, UserBlocking before UserVisible before BestEffort, and within one priority those that have waited longest |
| PriorityQueues.TopExists | rust_task/thread_pool/priority_queue.rs:28-38 | the comparison of entries has a maximum in every nonempty heap |
| PriorityQueues.PriorityQueue.Push | rust_task/thread_pool/priority_queue.rs:55-58 | the entry is stamped with the priority of its source and the current time |
| PriorityQueues.PriorityQueue.Pop | rust_task/thread_pool/priority_queue.rs:60-62 | no waiting entry is more urgent than the one popped, and none of its priority has waited longer; nothing comes from an empty heap |
| PriorityQueues.PopValid | rust_task/thread_pool/priority_queue.rs:28-62 | a pop keeps round robin: an entry is served only after all of at least its priority queued strictly earlier |
| DelayedTasks.NextIsStrict | rust_task/thread_pool/delayed_task_manager.rs:37-43 | the next entry is exactly the one with the earliest deadline, and among equal ones the smallest id |
| DelayedTasks.DelayedTaskManager.AddSequence | rust_task/thread_pool/delayed_task_manager.rs:78-86 | a new entry with a fresh id, and the timer thread is woken |
| DelayedTasks.DelayedTaskManager.TimerTurn | rust_task/thread_pool/delayed_task_manager.rs:102-122 | one turn up to the release of the lock: stops exactly if told to; fires only the earliest entry and only when due; waits without limit only on an empty heap, else exactly until the earliest deadline |
| DelayedTasks.DelayedTaskManager.Shutdown | rust_task/thread_pool/delayed_task_manager.rs:88-99 | sets the flag, wakes the timer thread, and takes the handle once |
| TaskTrackers.TaskTracker.WillPostTask | rust_task/thread_pool/task_tracker.rs:38-47 | after the start of shutdown only ContinueOnShutdown is admitted; an admitted BlockShutdown task is counted |
| TaskTrackers.TaskTracker.AfterRunTask | rust_task/thread_pool/task_tracker.rs:51-59 | counts down for BlockShutdown and releases all waiters exactly at zero |
| TaskTrackers.TaskTracker.BeginShutdown | rust_task/thread_pool/task_tracker.rs:68-75 | marks the start; need not wait exactly if nothing is counted |
| TaskTrackers.TaskTracker.AwaitTurn | rust_task/thread_pool/task_tracker.rs:76-80 | waits exactly while something is counted |
| ThreadGroups.ThreadGroup.PushTaskSource | rust_task/thread_pool/thread_group.rs:46-52 | queues the source and wakes one sleeper, if there is one |
| ThreadGroups.ThreadGroup.GetWorkTurn | rust_task/thread_pool/thread_group.rs:54-66 | stop, a greatest entry, or sleep, decided in one critical section |
| ThreadGroups.ThreadGroup.StopAndTakeHandles | rust_task/thread_pool/thread_group.rs:68-85 | flag set, everybody woken, handles handed out once |
| ThreadGroups.ThreadGroup.ProcessSource | rust_task/thread_pool/thread_group.rs:179-213 | an owned sequence is left alone; otherwise one task is taken and the source is queued again exactly if more is ready |
| ThreadPools.PooledSequencedTaskRunner.PostTask | rust_task/thread_pool/pooled_sequenced_task_runner.rs:44-52 | the task is in the sequence and the sequence in the queue |
| ThreadPools.PooledSequencedTaskRunner.PostDelayedTask | rust_task/thread_pool/pooled_sequenced_task_runner.rs:54-67 | the task is in the heap of the sequence, and the timer heap has its deadline |
| ThreadPools.ThreadPool.PostTask | rust_task/thread_pool/thread_pool.rs:50-62 | a rejected post leaves no trace; an accepted one is counted and gets a sequence of its own |
| ThreadPools.ThreadPool.PostDelayedTask | rust_task/thread_pool/thread_pool.rs:65-79 | the same for a delayed post |
| ThreadPools.ThreadPool.RunWrapped | rust_task/thread_pool/thread_pool.rs:111-137 | drops exactly SkipOnShutdown callbacks after the start of shutdown; otherwise settles with the tracker |
| PoolExclusion.ExclusionByOwner | rust_task/thread_pool/sequence.rs:136-158 | claim, take, run and release keep the exclusion and the account of the task in hand |
| PoolExclusion.MoveKeepsExclusion | rust_task/thread_pool/sequence.rs:136-154 | whatever an owner does with its own sequence keeps the exclusion of all others |
| PoolCoverage.AttendedByWorker | rust_task/thread_pool/thread_group.rs:193-211 | an entry thrown away is covered by the owner, a worker that looks again lets go only if nothing is ready |
| PoolCoverage.StrandedByWorker | rust_task/thread_pool/thread_group.rs:182-212 | every step of a worker leaves nothing stranded |
| PoolCoverage.StrandedByPost | rust_task/thread_pool/pooled_sequenced_task_runner.rs:43-67 | every step of a post leaves nothing stranded |
| PoolCoverage.StrandedByTimer | rust_task/thread_pool/delayed_task_manager.rs:102-133 | every turn of the timer thread leaves nothing stranded |
| PoolWakeups.ConservingStep | rust_task/thread_pool/thread_group.rs:46-66 | work conservation: while a worker sleeps, queued entries are at most pending notifications plus awake workers on their way |
| PoolWakeups.OnTimeStep | rust_task/thread_pool/delayed_task_manager.rs:78-133 | no step lets the timer thread oversleep |
| PoolShutdown.CounterBySettle | rust_task/thread_pool/task_tracker.rs:51-59 | the counter stays the number of accepted unfinished BlockShutdown tasks and does not underflow |
| PoolShutdown.ShutdownStep | rust_task/thread_pool/thread_pool.rs:103-109 | group and timer stop in order, only at a zero counter, and nobody sleeps through the stop |
| PoolQuiescence.QuietDecreases | rust_task/thread_pool/thread_group.rs:179-213 | every quiet step uses up work or puts a thread to sleep, whatever is delayed |
| PoolQuiescence.NoInfiniteQuietRun | rust_task/thread_pool/thread_group.rs:179-213 | quiescence: without new calls, clock and spurious wake-ups, runs from every safe state are finite, whatever is delayed |
| PoolTheorems.OneOwner | rust_task/thread_pool/sequence.rs:136-154 | the flag is set exactly while one worker is between its claim and its release, never two |
| PoolTheorems.CallbacksNeverOverlap | rust_task/thread_pool/thread_group.rs:122-127 | two callbacks of one sequence never run at the same time |
| PoolTheorems.QueueIsFifo | rust_task/thread_pool/sequence.rs:86-150 | linearised FIFO: what was taken, followed by the queue, is the history of arrivals |
| PoolTheorems.TakenInTime | rust_task/thread_pool/sequence.rs:104-150 | every task taken, the last or only one too, arrived after its post and not before its deadline |
| PoolTheorems.NeverRunsEarly | rust_task/thread_pool/thread_group.rs:193-207 | no worker has a task in its hands before the deadline of that task |
| PoolTheorems.TakenInOrder | rust_task/thread_pool/sequence.rs:86-150 | immediate tasks are taken in the order of their posts, delayed tasks that were in the heap together by deadline and post |
| PoolTheorems.ExactlyOnce | rust_task/thread_pool/sequence.rs:146-158 | posted tasks are finished, in hand, queued or waiting, each once, however many duplicate entries there are |
| PoolTheorems.NoStrandedWork | rust_task/thread_pool/thread_group.rs:182-212 | queued tasks always have an entry, a poster, the timer thread or a worker that will see them |
| PoolTheorems.NoStrandedDelay | rust_task/thread_pool/delayed_task_manager.rs:78-133 | a delayed task has a timer entry at its time, a poster about to add it, or is due in a covered sequence |
| PoolTheorems.NoLostWakeUp | rust_task/thread_pool/thread_group.rs:46-66 | queued work beside a sleeping worker means that help is on its way |
| PoolTheorems.TimerNeverOversleeps | rust_task/thread_pool/delayed_task_manager.rs:102-132 | without a pending notification the timer thread sleeps past no deadline |
| PoolTheorems.TimerFiresDueMinimum | rust_task/thread_pool/delayed_task_manager.rs:116-125 | it fires the strict minimum of its heap, and only when due |
| PoolTheorems.RoundRobinService | rust_task/thread_pool/priority_queue.rs:28-62 | over any run, an entry is served after every entry of at least its priority queued strictly earlier |
| PoolTheorems.CounterOnlyFalls | rust_task/thread_pool/task_tracker.rs:38-80 | the counter is exact, never negative, and only falls once shutdown has started |
| PoolTheorems.BlockingTasksAreFinished | rust_task/thread_pool/task_tracker.rs:68-80 | when the tracker's wait is over, every BlockShutdown task accepted by the pool is finished and was not dropped |
| PoolTheorems.RunnerTasksDoNotBlockShutdown | rust_task/README.md:34-34 | for tasks posted through a runner that does not hold: a run in which such a task is never taken |
| PoolTheorems.ShutdownAwaitsIffPostedToPool | rust_task/thread_pool/thread_pool.rs:50-137 | on every run, BlockShutdown tasks posted before the shutdown are finished when its wait is over, if and only if they were posted through the pool itself |
| PoolTheorems.GroupIsStopped | rust_task/thread_pool/thread_group.rs:68-75 | in every later state after one call has set the flag and notified everybody, whatever other calls of shutdown are doing, no worker sleeps in the stopped group |
| PoolTheorems.GroupStopIsFinal | rust_task/thread_pool/thread_group.rs:54-85 | from then on no entry is popped and each worker leaves at its next check |
| PoolRest.PoolComesToRest | rust_task/thread_pool/thread_group.rs:179-213 | quiescence from every reachable state, whatever is delayed |
| PoolRest.RestIsReached | rust_task/thread_pool/thread_group.rs:179-213 | from every reachable state some quiet run ends where no thread can move |
| PoolRest.ShutdownCannotDeadlock | rust_task/thread_pool/thread_pool.rs:105-109 | while a call of shutdown has not returned, some thread can move, or the call waits for an accepted BlockShutdown task whose time is still to come and the timer thread will wake up by then |
| PoolRest.ShutdownReturns | rust_task/thread_pool/thread_pool.rs:103-109 | when the BlockShutdown tasks of the pool are due, whatever else is delayed, every quiet run ends with all calls of shutdown returned and all threads gone |
| PoolRest.QuietRunDrains | rust_task/thread_pool/thread_group.rs:179-213 | when all delayed tasks are due, every quiet run without a call of shutdown ends with every post finished and all queues and heaps empty |
| PoolRest.ShutdownCanReturn | rust_task/thread_pool/thread_pool.rs:103-109 | from every reachable state some run, in which the clock passes the deadlines of the BlockShutdown tasks, ends with all calls of shutdown returned |
| PoolJoin.ReturnedMeansJoined | rust_task/thread_pool/thread_group.rs:76-84 | when a call of shutdown has returned, every worker has ended or another call is still joining them; the same for the timer thread |
| PoolJoin.AllReturnedMeansGone | rust_task/thread_pool/thread_pool.rs:105-109 | when every call of shutdown has returned, no worker and no timer thread is left |
| PoolJoin.OverlappingCallReturnsEarly | rust_task/thread_pool/thread_group.rs:77-81 | of two overlapping calls, the one that finds the handles taken returns while a worker is still there |
| PoolPosts.RunnerPostCarriesCallback | rust_task/thread_pool/pooled_sequenced_task_runner.rs:43-67 | a post through a runner queues the callback and the deadline it was given, with the next number |
| PoolPosts.AcceptedIff | rust_task/thread_pool/task_tracker.rs:38-47 | after the start of shutdown exactly the ContinueOnShutdown tasks are accepted, before it all |
| PoolPosts.AcceptedPostIsDelivered | rust_task/thread_pool/thread_pool.rs:50-79 | over every run the worker of an accepted post has the callback that was posted, not before its deadline, under the traits that were posted |
| PoolPosts.EntriesAreStamped | rust_task/thread_pool/priority_queue.rs:55-58 | each entry is queued by a thread that brings it, with the priority of its sequence and the time of the push |
| PoolPosts.ServesMostUrgent | rust_task/thread_pool/priority_queue.rs:28-62 | over every run, when a worker gets a sequence no more urgent one is waiting, and none of its priority has waited longer |
| PoolPosts.DroppedIff | rust_task/thread_pool/thread_pool.rs:125-136 | the wrapper drops a callback exactly if it is a SkipOnShutdown callback of the pool and shutdown has started |
| PoolPosts.SkippedNeverBegins | rust_task/thread_pool/thread_pool.rs:125-136 | after the start of shutdown no SkipOnShutdown callback of the pool begins to run |
| PoolRefinement.RunningIsHeld | rust_task/thread_pool/thread_group.rs:193-207 | what the executor runs is what a worker has in its hands |
| PoolRefinement.SequenceRefinesExecutor | rust_task/README.md:20-20 | every step of the pool is, for every sequence, a step of one atomic FIFO executor or nothing |
| IoWatches.RegisterKeepsIndexIff | rust_io/io_task_runner.rs:240-277 | registering keeps table and interest set in agreement exactly if the descriptor is not the eventfd; the eventfd can still wake the loop exactly if it is not the descriptor or the mode reads |
| IoWatches.ForeignStopDuringRegister | rust_io/io_task_runner.rs:254-308 | a stop from another thread in the middle of a registration breaks the agreement exactly if it concerns the current watch of that descriptor |
| IoWatches.InvStep | rust_io/io_task_runner.rs:240-308 | register, stop, drop and events keep table, interest set, holders and generations in agreement |
| IoWatches.TableMatchesKernel | rust_io/io_task_runner.rs:240-308 | on every run the watched descriptors are the interest set without the eventfd, each with the mask of its mode |
| IoWatches.WatchInstalls | rust_io/io_task_runner.rs:254-272 | a registration leaves the watch that was asked for, and its directions in the kernel |
| IoWatches.EventDispatches | rust_io/io_task_runner.rs:477-514 | an event is dispatched once, to the watch in the table, for exactly the directions that the event and the mode share; a one-shot watch is consumed |
| IoWatches.OneShotFiresOnce | rust_io/io_task_runner.rs:484-490 | over every run each dispatch has the right callbacks, and a one-shot watch is dispatched at most once |
| IoWatches.StopReturnsTrueIff | rust_io/io_task_runner.rs:61-65 | stopping returns true exactly if one of the current watches is the controller's own |
| IoWatches.StopRemovesOnlyItsOwn | rust_io/io_task_runner.rs:297-308 | a superseded controller's stop or drop removes no newer watch |
| IoWatches.RetiredNeverFires | rust_io/io_task_runner.rs:480-496 | a generation that has left the table is used by no later event |
| IoWatches.LeavingTheTableIsFinal | rust_io/io_task_runner.rs:230-234 | a watch that is consumed, stopped or replaced is used by no later event |
| IoLoop.TimeoutInTime | rust_io/io_task_runner.rs:438-453 | the timeout, rounded down and capped, ends no later than any deadline |
| IoLoop.TimeoutNotEarly | rust_io/io_task_runner.rs:438-453 | short of the cap, the timeout ends less than a millisecond before the earliest deadline |
| IoLoop.InvStep | rust_io/io_task_runner.rs:321-519 | no step of the loop or of a call loses a wake-up |
| IoLoop.NeverSleepsOnWork | rust_io/io_task_runner.rs:321-456 | while the loop is blocked and no call is about to write the eventfd, nothing is queued, shutdown has not begun, and no deadline is slept past |
| IoLoop.JoinedMeansLeft | rust_io/io_task_runner.rs:280-286 | a call of shutdown has returned only if the loop has left |
| IoLoop.ShutdownComesToRest | rust_io/io_task_runner.rs:280-286 | after the start of shutdown, quiet runs are finite |
| IoLoop.ShutdownEndsJoined | rust_io/io_task_runner.rs:280-286 | and they end with the loop left and every call of shutdown returned |
| IoTasks.TasksStartInOrder | rust_io/io_task_runner.rs:404-415 | over every run the callbacks started, followed by those queued, are the arrivals: each runs once, first in first out |
| IoTasks.DelayedTasksConserved | rust_io/io_task_runner.rs:417-432 | over every run no delayed task is lost or doubled |
| IoTasks.AcceptedArrives | rust_io/io_task_runner.rs:321-350 | an accepted post is still about to push its callback and deadline, or they are among the arrivals |
| IoTasks.StartsEarliestDue | rust_io/io_task_runner.rs:417-432 | a delayed task starts only when it is due, and before every one with a later deadline |
| IoTasks.RoundInOrder | rust_io/io_task_runner.rs:402-456 | the loop turns to delayed tasks only with no immediate one queued, to its flag only with nothing due, and to epoll_wait only with the flag down |
| IoTasks.LeavesOnlyWhenTold | rust_io/io_task_runner.rs:434-463 | the loop leaves exactly when it finds the flag up or epoll_wait fails for good; a signal only starts a new round |
| IoTasks.NothingAcceptedAfterShutdown | rust_io/io_task_runner.rs:321-341 | after the start of shutdown no post is accepted any more |
| IoProgress.EverythingCanRun | rust_io/io_task_runner.rs:402-475 | from every reachable state before shutdown some run, in which time passes, starts every task that is queued or about to be |
| IoRest.EndlessIffSpinning | rust_io/io_task_runner.rs:438-456 | while the clock stands still and nobody calls, the loop goes on for ever if and only if it polls with a timeout of zero in the last millisecond before a deadline, the timeout being rounded down |
| IoRest.RestIsAsleep | rust_io/io_task_runner.rs:402-456 | where it comes to rest before shutdown it is blocked with no task queued, no call under way, and no deadline slept past |
| IoTaskRunners.IoTaskRunner.PostTask | rust_io/io_task_runner.rs:321-332 | accepted exactly before shutdown; queued last, and the eventfd is readable |
| IoTaskRunners.IoTaskRunner.PostDelayedTask | rust_io/io_task_runner.rs:334-350 | the same for a delayed task |
| IoTaskRunners.IoTaskRunner.DrainTasks | rust_io/io_task_runner.rs:404-415 | runs all immediate tasks, oldest first, and those that are posted meanwhile |
| IoTaskRunners.IoTaskRunner.RunExpired | rust_io/io_task_runner.rs:417-432 | runs tasks by deadline, each due at its own reading of the clock, until none is due |
| IoTaskRunners.IoTaskRunner.NextTimeout | rust_io/io_task_runner.rs:438-453 | negative exactly without delayed tasks, at most the i32 maximum, in time for every deadline, and short of the cap less than a millisecond early |
| IoTaskRunners.IoTaskRunner.UnregisterFd | rust_io/io_task_runner.rs:297-308 | removes the watch exactly if its generation is current, from the table and from the kernel |
| IoTaskRunners.IoTaskRunner.WatchFileDescriptor | rust_io/io_task_runner.rs:240-277 | the controller's old watch goes first, on this runner or another; then the watch asked for is current with a fresh generation, or the kernel refused and nothing is watched |
| IoTaskRunners.IoTaskRunner.DispatchEvent | rust_io/io_task_runner.rs:477-496 | the read callback is due exactly if the event has input and the watch reads, the write callback exactly if it has output and the watch writes; a one-shot watch is consumed |
| IoTaskRunners.FdWatchController.StopWatchingFileDescriptor | rust_io/io_task_runner.rs:61-65 | true exactly if the own registration was current; only then it is removed |
| RepeatingTimers.OneTickPerStart | rust_task/timer.rs:49-92 | each start has at most one pending tick; the active one always has exactly one |
| RepeatingTimers.CancelledEpochIsSilent | rust_task/timer.rs:59-92 | after stop or restart only the tick already past its upgrade may still invoke the old callback |
| RepeatingTimers.MayFire | rust_task/timer.rs:49-92 | while the timer is active its ticks can call back any number of times; so they can, despite a stop, while the call of start is on the stack |
| RepeatingTimers.StartTakesEffect | rust_task/timer.rs:49-57 | from every reachable state, a start that has returned can have its callback invoked any number of times |
| RepeatingTimers.StopAndRestartSilence | rust_task/timer.rs:54-62 | stopping or starting anew silences every epoch whose call of start has returned |
| RepeatingTimers.SilentIffStartHasReturned | rust_task/timer.rs:49-92 | a stop or restart silences an epoch, on every later run, if and only if its call of start has returned |
| RepeatingTimers.RepeatingTimer.Start | rust_task/timer.rs:49-57 | a new epoch replaces the old one with exactly one tick pending |
| RepeatingTimers.RepeatingTimer.RunTick | rust_task/timer.rs:71-92 | a tick of the active epoch posts its successor and calls back, also when the callback stops or restarts the timer; any other disappears |
| TimerInPool.NobodyElseTicks | rust_task/timer.rs:26-28 | ticks never overlap, because the pool lets one worker at a time run tasks of the runner |
| TimerInPool.StepRefinesTimer | rust_task/timer.rs:49-92 | every step of the pool and of a timer on one of its runners is a step of the timer alone, or nothing to it |
| TimerInPool.RunRefinesTimer | rust_task/timer.rs:49-92 | every run of the pool with such a timer is a run of the timer |
| TimerInPool.OneTickInPool | rust_task/timer.rs:69-92 | over all such runs each start has at most one pending tick, and the active one exactly one, pending or about to be posted |
| TimerInPool.PendingIsInPool | rust_task/timer.rs:81-92 | a pending tick is in the queue or the heap of the runner's sequence, or in the hands of the worker about to call it |
| TimerInPool.CancelledEpochIsSilentInPool | rust_task/timer.rs:59-92 | over all such runs a cancelled epoch calls back at most through the tick already past its upgrade |

## Left out

- `rust_net`: sockets and TLS are system calls and a foreign protocol library.
- `FileProxy`, raw epoll, eventfd and read calls: the kernel is an interest map, a counter and a choice of events.
- `TaskMonitor`: timestamps and metrics without an invariant.
- `PooledParallelTaskRunner` is not a member of the model: each of its posts is a sequence with one task, already covered.
- `post_task_and_reply`: a callback that posts.
- Panicking callbacks, thread creation, weak memory orderings, and the wrap-around of 64-bit ids.
- Binary heaps: a heap is the set (or multiset) of its elements, and a pop takes any greatest element; the array layout is the standard library's.
- `worker_loop`, `timer_loop`, `run_loop` and `TaskTracker::shutdown` as whole loops: they wait for other threads, so the step machines model them turn by turn; the classes have one turn each as a method.
- Watches in `ReadWrite` mode: the callbacks of one event are decided when the watch is extracted, so silence after a stop is claimed for later events only.
- ThreadPools.PooledSequencedTaskRunner.PostTask: one call without interference between its two pushes; the interleavings are steps of `Pool`.
- ThreadPools.PooledSequencedTaskRunner.PostDelayedTask: the same.
- ThreadPools.ThreadPool.PostTask: the same; the wrapper around the callback is `RunWrapped`.
- ThreadPools.ThreadPool.PostDelayedTask: the same.
- ThreadPools.ThreadPool.RunWrapped: the test of the flag and the settling without another thread in between; `Pool` has them as separate steps.
- ThreadGroups.ThreadGroup.ProcessSource: one uninterrupted pass; claim, take, release and second look are separate steps of `Pool`.
- DelayedTasks.DelayedTaskManager.TimerTurn: the push of the fired sequence, made after the lock is released, is the step `HandOver` of `Pool`.
- IoRest.EndlessIffSpinning: a return of epoll_wait reports the eventfd if it is readable; more than 64 ready descriptors at once could crowd it out.
- Fairness: the liveness results say that runs without new calls end, not that a busy pool serves every priority.
