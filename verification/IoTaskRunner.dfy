/** The IO task runner and its controllers as objects (rust_io/io_task_runner.rs). */
module IoTaskRunners {
  import opened Basics
  import W = IoWatches
  import L = IoLoop

  /** What the first `n` callbacks post, in order. */
  function Arrivals(posts: seq<seq<nat>>, n: nat): seq<nat> {
    if n == 0 then [] else Arrivals(posts, n - 1) + if n <= |posts| then posts[n - 1] else []
  }

  /** Taking one task and queueing others behind leaves what has run and what is queued in step. */
  lemma TakeAndPost(ran: seq<nat>, tasks: seq<nat>, posted: seq<nat>, first: seq<nat>, arrived: seq<nat>)
    requires tasks != [] && ran + tasks == first + arrived
    ensures (ran + [tasks[0]]) + (tasks[1..] + posted) == first + (arrived + posted)
  {
    assert tasks == [tasks[0]] + tasks[1..];
    assert (first + arrived) + posted == first + (arrived + posted);
    assert (ran + [tasks[0]]) + (tasks[1..] + posted) == (ran + tasks) + posted;
  }

  /**
   * The queues, the table of watches with the kernel's interest set, and the counter of the
   * eventfd. Each method is one critical section, or several in a row on one thread.
   */
  class IoTaskRunner {
    const wakeFd: int
    var tasks: seq<nat>
    var delayedTasks: multiset<L.DelayedTask>
    var watches: map<int, W.WatchEntry>
    var interest: map<int, W.Mask>
    var generationCounter: nat
    var shutdown: bool
    var eventfd: nat

    function Table(): W.Table
      reads this
    {
      W.Table(wakeFd, watches, interest, generationCounter)
    }

    constructor (wakeFd: int)
      ensures this.wakeFd == wakeFd && Table() == W.NewTable(wakeFd) && W.Valid(Table())
      ensures tasks == [] && delayedTasks == multiset{} && !shutdown && eventfd == 0
    {
      this.wakeFd := wakeFd;
      tasks, delayedTasks, shutdown, eventfd := [], multiset{}, false, 0;
      watches, interest, generationCounter := map[], map[wakeFd := W.Mask(true, false)], 0;
    }

    /** Writes the eventfd; the counter of the kernel saturates. */
    method Wake()
      modifies this`eventfd
      ensures eventfd > 0 && eventfd >= old(eventfd)
    {
      if eventfd < L.EVENTFD_MAX {
        eventfd := eventfd + 1;
      }
    }

    /** An accepted task is queued behind all others, and the loop is told; after shutdown nothing is accepted. */
    method PostTask(callback: nat) returns (accepted: bool)
      modifies this`tasks, this`eventfd
      ensures accepted <==> !shutdown
      ensures tasks == if accepted then old(tasks) + [callback] else old(tasks)
      ensures if accepted then eventfd > 0 else eventfd == old(eventfd)
    {
      if shutdown {
        return false;
      }
      tasks := tasks + [callback];
      Wake();
      accepted := true;
    }

    method PostDelayedTask(callback: nat, deadline: nat) returns (accepted: bool)
      modifies this`delayedTasks, this`eventfd
      ensures accepted <==> !shutdown
      ensures delayedTasks ==
                old(delayedTasks) + if accepted then multiset{L.DelayedTask(deadline, callback)} else multiset{}
      ensures if accepted then eventfd > 0 else eventfd == old(eventfd)
    {
      if shutdown {
        return false;
      }
      delayedTasks := delayedTasks + multiset{L.DelayedTask(deadline, callback)};
      Wake();
      accepted := true;
    }

    method BeginShutdown()
      modifies this`shutdown, this`eventfd
      ensures shutdown && eventfd > 0
    {
      shutdown := true;
      Wake();
    }

    /**
     * The first inner loop of `run_loop`: runs all immediate tasks, oldest first. `posts[k]` is what
     * is posted while callback `k` runs; later callbacks post nothing.
     */
    method DrainTasks(posts: seq<seq<nat>>) returns (ran: seq<nat>)
      modifies this`tasks
      ensures ran == old(tasks) + Arrivals(posts, |ran|) && tasks == []
    {
      ran := [];
      while tasks != []
        invariant ran + tasks == old(tasks) + Arrivals(posts, |ran|)
        decreases if |ran| < |posts| then |posts| - |ran| else 0, |tasks|
      {
        var task := tasks[0];
        var posted := if |ran| < |posts| then posts[|ran|] else [];
        TakeAndPost(ran, tasks, posted, old(tasks), Arrivals(posts, |ran|));
        tasks := tasks[1..] + posted;
        ran := ran + [task];
      }
    }

    /**
     * The second inner loop: runs delayed tasks, earliest deadline first, until none is due. Turn `k`
     * reads the clock as `clock(k)`, before it locks the heap.
     */
    method RunExpired(clock: nat -> nat) returns (ran: seq<L.DelayedTask>)
      modifies this`delayedTasks
      ensures multiset(ran) + delayedTasks == old(delayedTasks)
      ensures L.RanInOrder(ran, delayedTasks, clock)
      ensures forall d | d in delayedTasks :: d.deadline > clock(|ran|)
    {
      ran := [];
      while |delayedTasks| > 0
        invariant multiset(ran) + delayedTasks == old(delayedTasks)
        invariant L.RanInOrder(ran, delayedTasks, clock)
        decreases |delayedTasks|
      {
        var now := clock(|ran|);
        ghost var n := L.NextExists(delayedTasks);
        var next :| L.IsNext(delayedTasks, next);
        L.RunNext(ran, delayedTasks, next, clock);
        if next.deadline > now {
          break;
        }
        delayedTasks := delayedTasks - multiset{next};
        ran := ran + [next];
      }
    }

    /** The timeout of the next epoll_wait; with one, the wait ends no later than any deadline. */
    method NextTimeout(now: nat) returns (ms: int)
      ensures ms < 0 <==> |delayedTasks| == 0
      ensures ms <= L.I32_MAX
      ensures 0 <= ms < L.I32_MAX ==>
                exists d :: d in delayedTasks && d.deadline < now + (ms + 1) * L.NANOS_PER_MILLI
      ensures forall d | d in delayedTasks :: L.InTime(ms, now, d)
    {
      var next := L.DelayedTask(0, 0);
      if |delayedTasks| > 0 {
        ghost var n := L.NextExists(delayedTasks);
        next :| L.IsNext(delayedTasks, next);
        forall d | d in delayedTasks ensures L.InTime(L.TimeoutMs(delayedTasks, next, now), now, d) {
          L.TimeoutInTime(delayedTasks, next, now, d);
        }
        L.TimeoutNotEarly(delayedTasks, next, now);
      }
      ms := L.TimeoutMs(delayedTasks, next, now);
    }

    /** Removes the watch on `fd` if it is still the one of that generation. */
    method UnregisterFd(fd: int, generation: nat) returns (removed: bool)
      requires W.Valid(Table())
      modifies this`watches, this`interest
      ensures W.Valid(Table())
      ensures removed <==> fd in old(watches) && old(watches)[fd].generation == generation
      ensures if removed then watches == old(watches) - {fd} && interest == old(interest) - {fd}
              else watches == old(watches) && interest == old(interest)
      ensures removed == W.IsCurrent(old(Table()), W.Registration(fd, generation))
      ensures Table() == W.Unregister(old(Table()), W.Registration(fd, generation))
    {
      if fd in watches && watches[fd].generation == generation {
        W.RemoveValid(Table(), fd);
        watches := watches - {fd};
        interest := interest - {fd};
        removed := true;
      } else {
        removed := false;
      }
    }

    /**
     * `refused` is the kernel's answer to adding `fd`, or to changing it when it is there already. The
     * controller may hold a watch of this runner or of another one; that watch goes first.
     */
    method WatchFileDescriptor(fd: int, persistent: bool, mode: W.WatchMode, controller: FdWatchController,
                               watcher: nat, refused: bool) returns (registered: bool)
      requires W.Valid(Table()) && fd != wakeFd
      requires controller.runner != null ==> W.Valid(controller.runner.Table())
      modifies this`watches, this`interest, this`generationCounter, controller
      modifies if controller.runner == null then {} else {controller.runner}`watches
      modifies if controller.runner == null then {} else {controller.runner}`interest
      ensures W.Valid(Table()) && registered == !refused
      ensures var stopped := if old(controller.runner) == this then W.Unregister(old(Table()), old(controller.Held()))
                             else old(Table());
              Table() == W.Register(stopped, fd, persistent, mode, watcher, refused)
      ensures var other := old(controller.runner);
              other != null && other != this ==>
                && W.Valid(other.Table())
                && other.Table() == W.Unregister(old(controller.runner.Table()), old(controller.Held()))
      ensures registered ==>
                && watches[fd] == W.WatchEntry(watcher, persistent, mode, old(generationCounter))
                && interest[fd].input == W.Reads(mode) && interest[fd].output == W.Writes(mode)
      ensures forall x | x != fd && x in watches :: x in old(watches) && watches[x] == old(watches)[x]
      ensures registered ==> controller.runner == this
      ensures registered ==> controller.Held() == W.Registration(fd, old(generationCounter))
      ensures registered ==> W.IsCurrent(Table(), controller.Held())
      ensures !registered ==> controller.runner == null
    {
      var _ := controller.StopWatchingFileDescriptor();
      W.RegisterValid(Table(), fd, persistent, mode, watcher, refused);
      var generation := generationCounter;
      generationCounter := generationCounter + 1;
      if refused {
        return false;
      }
      interest := interest[fd := W.EpollEvents(mode)];
      watches := watches[fd := W.WatchEntry(watcher, persistent, mode, generation)];
      controller.Hold(this, fd, generation);
      registered := true;
    }

    /** One event of epoll_wait: which callbacks are due, after the table has been updated. */
    method DispatchEvent(fd: int, event: W.Mask) returns (dispatch: Option<W.Dispatch>)
      requires W.Valid(Table()) && fd != wakeFd
      modifies this`watches, this`interest
      ensures W.Valid(Table())
      ensures dispatch.Some? <==> fd in old(watches)
      ensures dispatch.Some? ==>
                && dispatch.value.watch == old(watches)[fd]
                && (dispatch.value.canRead <==> event.input && W.Reads(old(watches)[fd].mode))
                && (dispatch.value.canWrite <==> event.output && W.Writes(old(watches)[fd].mode))
      ensures if fd in old(watches) && !old(watches)[fd].persistent
              then watches == old(watches) - {fd} && interest == old(interest) - {fd}
              else watches == old(watches) && interest == old(interest)
      ensures dispatch == W.CallbacksOf(old(Table()), fd, event)
      ensures Table() == W.AfterEvent(old(Table()), fd)
    {
      if fd !in watches {
        return None;
      }
      var entry := watches[fd];
      var canRead := event.input && (entry.mode.Read? || entry.mode.ReadWrite?);
      var canWrite := event.output && (entry.mode.Write? || entry.mode.ReadWrite?);
      if !entry.persistent {
        W.RemoveValid(Table(), fd);
        watches := watches - {fd};
        interest := interest - {fd};
      }
      dispatch := Some(W.Dispatch(entry, canRead, canWrite));
    }
  }

  /** A handle for one registration. Dropping it is the same as stopping it. */
  class FdWatchController {
    var runner: IoTaskRunner?
    var fd: int
    var generation: nat

    constructor ()
      ensures runner == null
    {
      runner, fd, generation := null, -1, 0;
    }

    function Held(): W.Registration
      reads this
    {
      W.Registration(fd, generation)
    }

    method Hold(runner: IoTaskRunner, fd: int, generation: nat)
      modifies this
      ensures this.runner == runner && Held() == W.Registration(fd, generation)
    {
      this.runner, this.fd, this.generation := runner, fd, generation;
    }

    /** True exactly if the registration of this controller was still current; then, and only then, it is removed. */
    method StopWatchingFileDescriptor() returns (stopped: bool)
      requires runner != null ==> W.Valid(runner.Table())
      modifies this`runner
      modifies if runner == null then {} else {runner}`watches
      modifies if runner == null then {} else {runner}`interest
      ensures runner == null && Held() == old(Held())
      ensures stopped <==> old(runner) != null && W.IsCurrent(old(runner.Table()), old(Held()))
      ensures old(runner) != null ==>
                W.Valid(old(runner).Table()) && old(runner).Table() == W.Unregister(old(runner.Table()), old(Held()))
    {
      if runner == null {
        return false;
      }
      var weak := runner;
      runner := null;
      stopped := weak.UnregisterFd(fd, generation);
    }

    method IsWatching() returns (watching: bool)
      ensures watching <==> runner != null
    {
      watching := runner != null;
    }
  }
}
