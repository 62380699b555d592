/** The kernel's file-level state as mutable fields, changed step by step.  Every method is proved to
    take the abstract state to what the corresponding function says. */
module Kernels {
  import opened Ticks
  import opened Rosters
  import opened Scheduler
  import opened SchedulerTime
  import opened SchedulerSuspension
  import opened SchedulerTasks
  import opened SchedulerSafety
  import opened SchedulerTimeouts
  import opened InitialLists
  import opened Preemption
  import opened SchedulerStart
  import opened KernelSteps

  class Kernel {
    var state: Roster<StateList>
    var event: Roster<EventList>
    var tcbs: map<Task, Tcb>
    var current: Task
    var tick: Tick
    var overflows: nat
    var nextUnblock: Tick
    var firstIsCurrent: bool
    var topReady: nat
    var numberOfTasks: nat
    var deletedTasks: nat
    var suspended: nat
    var pended: Tick
    var yieldPending: bool
    /** xSchedulerRunning */
    var running: bool

    function View(): (s: Sched)
      reads this
      ensures s == Sched(state, event, tcbs, current, tick, overflows, nextUnblock, firstIsCurrent, topReady,
                         numberOfTasks, deletedTasks, suspended, pended, yieldPending)
    {
      Sched(state, event, tcbs, current, tick, overflows, nextUnblock, firstIsCurrent, topReady, numberOfTasks,
            deletedTasks, suspended, pended, yieldPending)
    }

    /** prvAddNewTaskToReadyList of the first task, with prvInitialiseTaskLists; the event lists of the
        queues and event groups that will be used exist already. */
    constructor (ids: set<nat>, x: Task, priority: nat)
      ensures View() == FirstTask(ids, Creation(x, priority)) && !running
    {
      hide *;
      EveryListMade();
      NobodyListed(StateLists());
      var p := if priority >= MAX_PRIORITIES then MAX_PRIORITIES - 1 else priority;
      FirstTaskSpelled(ids, x, priority, p);
      state, event := Roster(StateLists(), map[]).PutEnd(Ready(p), x), Roster(EventLists(ids), map[]);
      tcbs := map[x := Tcb(p, p, 0, 0, MAX_PRIORITIES - p, false)];
      current, topReady, numberOfTasks := x, p, 1;
      tick, overflows, nextUnblock, pended := 0, 0, 0, 0;
      firstIsCurrent, yieldPending, running := true, false, false;
      deletedTasks, suspended := 0, 0;
    }

    /** The end of vTaskStartScheduler. */
    method StartScheduler()
      modifies `nextUnblock, `running, `tick
      ensures View() == Start(old(View())) && running
    {
      nextUnblock := MAX_DELAY;
      running := true;
      tick := 0;
    }

    /** prvAddTaskToReadyList */
    method AddTaskToReadyList(x: Task)
      requires x in tcbs && state.Consistent() && Ready(tcbs[x].priority) in state.lists && x !in state.place
      modifies `topReady, `state
      ensures state == old(state).PutEnd(Ready(tcbs[x].priority), x)
      ensures topReady == Max(old(topReady), tcbs[x].priority)
    {
      if tcbs[x].priority > topReady {
        topReady := tcbs[x].priority;
      }
      state := state.PutEnd(Ready(tcbs[x].priority), x);
    }

    /** Both list items of a task are taken off their lists. */
    method Detach(x: Task)
      requires View().Shape() && x in tcbs
      modifies `state, `event
      ensures state == old(state).Take(x) && event == old(event).TakeIfPlaced(x)
    {
      hide *;
      TakeIfPlacedIs(View(), x);
      state := state.Take(x);
      if x in event.place {
        event := event.Take(x);
      }
    }

    /** The three list operations that unblock a task. */
    method Unblock(x: Task)
      requires View().Shape() && x in tcbs
      modifies `state, `event, `topReady
      ensures View() == old(View()).Unblock(x)
    {
      hide *;
      UnblockIs(View(), x);
      Detach(x);
      AddTaskToReadyList(x);
    }

    /** prvResetNextTaskUnblockTime */
    method ResetNextTaskUnblockTime()
      requires View().Shape()
      modifies `nextUnblock
      ensures View() == old(View()).ResetUnblockTime()
    {
      hide *;
      ResetIs(View());
      var waiting := state.lists[if firstIsCurrent then Delayed1 else Delayed2].items;
      if waiting == [] {
        nextUnblock := MAX_DELAY;
      } else {
        nextUnblock := tcbs[waiting[0]].wake;
      }
    }

    /** The loop of xTaskIncrementTick over the current delayed list. */
    method ReadyElapsedTasks() returns (switchRequired: bool)
      requires View().Shape()
      modifies `state, `event, `topReady, `nextUnblock
      ensures View() == old(View()).Expire(false).s && switchRequired == old(View()).Expire(false).switchRequired
    {
      hide *;
      switchRequired := false;
      View().ExpireRound(switchRequired);
      while true
        invariant View().Shape() && View().Cur() in state.lists && current in tcbs
        invariant View().Expire(switchRequired) == old(View()).Expire(false)
        decreases |state.lists[View().Cur()].items|
      {
        View().ExpireRound(switchRequired);
        var waiting := state.lists[if firstIsCurrent then Delayed1 else Delayed2].items;
        if waiting == [] {
          nextUnblock := MAX_DELAY;
          break;
        }
        var x := waiting[0];
        if tick < tcbs[x].wake {
          nextUnblock := tcbs[x].wake;
          break;
        }
        Unblock(x);
        ListsKnown(View());
        if tcbs[x].priority >= tcbs[current].priority {
          switchRequired := true;
        }
        View().ExpireRound(switchRequired);
      }
    }

    /** The increment of xTickCount, with taskSWITCH_DELAYED_LISTS. */
    method AdvanceTickCount()
      requires View().Shape()
      modifies `tick, `firstIsCurrent, `overflows, `nextUnblock
      ensures View() == AdvanceCount(old(View()))
    {
      hide *;
      AdvanceIs(View());
      tick := Plus(tick, 1);
      if tick == 0 {
        firstIsCurrent := !firstIsCurrent;
        overflows := overflows + 1;
        ResetNextTaskUnblockTime();
      }
    }

    /** xTaskIncrementTick */
    method IncrementTick() returns (switchRequired: bool)
      requires View().Shape()
      modifies this
      ensures View() == TickStep(old(View())).s && switchRequired == TickStep(old(View())).switchRequired
    {
      hide *;
      TickIs(View());
      switchRequired := false;
      if suspended == 0 {
        AdvanceTickCount();
        if tick >= nextUnblock {
          switchRequired := ReadyElapsedTasks();
        }
        if |state.lists[Ready(tcbs[current].priority)].items| > 1 {
          switchRequired := true;
        }
        if yieldPending {
          switchRequired := true;
        }
      } else {
        pended := Plus(pended, 1);
      }
    }

    /** vTaskSuspendAll */
    method SuspendAll()
      modifies `suspended
      ensures View() == SchedulerSuspension.SuspendAll(old(View()))
    {
      suspended := suspended + 1;
    }

    /** xTaskResumeAll; the result says whether it asked for a context switch already. */
    method ResumeAll() returns (alreadyYielded: bool)
      requires View().Shape() && suspended > 0
      modifies this
      ensures View() == SchedulerSuspension.ResumeAll(old(View()))
      ensures alreadyYielded <==> old(suspended) == 1 && old(numberOfTasks) > 0 && yieldPending
    {
      hide *;
      SameListsShape(View(), View().(suspended := suspended - 1));
      ResumeIs(View(), View().(suspended := suspended - 1));
      alreadyYielded := false;
      suspended := suspended - 1;
      if suspended == 0 && numberOfTasks > 0 {
        DeliverPendingReady();
        UnwindPendedTicks();
        alreadyYielded := yieldPending;
      }
    }

    method DeliverFirstPending()
      requires View().Shape() && event.lists[PendingReady].items != []
      modifies this
      ensures View() == DrainStep(old(View()))
    {
      hide *;
      ListsKnown(View());
      DrainStepIs(View());
      var x := event.lists[PendingReady].items[0];
      Unblock(x);
      if tcbs[x].priority >= tcbs[current].priority {
        yieldPending := true;
      }
    }

    /** The loop of xTaskResumeAll over the pending ready list. */
    method DeliverPendingReady()
      requires View().Shape()
      modifies this
      ensures View() == DeliverPending(old(View()))
    {
      hide *;
      var any := false;
      DrainIs(View());
      while event.lists[PendingReady].items != []
        invariant View().Shape() && PendingReady in event.lists
        invariant DrainPending(View()) == DrainPending(old(View()))
        invariant if any then old(View()).event.lists[PendingReady].items != [] else View() == old(View())
        decreases |event.lists[PendingReady].items|
      {
        DrainIs(View());
        DeliverFirstPending();
        any := true;
      }
      DrainIs(View());
      if any {
        ResetNextTaskUnblockTime();
      }
    }

    /** The loop of xTaskResumeAll over the pended ticks. */
    method UnwindPendedTicks()
      requires View().Shape() && suspended == 0
      modifies this
      ensures View() == UnwindTicks(old(View()), old(pended)).(pended := 0)
    {
      hide *;
      var count: nat := pended;
      while count > 0
        invariant View().Shape()
        invariant UnwindTicks(View(), count) == UnwindTicks(old(View()), old(pended))
      {
        UnwindIs(View(), count);
        var switchRequired := IncrementTick();
        if switchRequired {
          yieldPending := true;
        }
        count := count - 1;
      }
      UnwindIs(View(), 0);
      pended := 0;
    }

    /** The search of taskSELECT_HIGHEST_PRIORITY_TASK. */
    method HighestReadyPriority() returns (p: nat)
      requires View().Core()
      ensures p == FindTop(View(), topReady) && Ready(p) in state.lists && state.lists[Ready(p)].items != []
    {
      hide *;
      FindEnds(View());
      p := topReady;
      FindIs(View(), p);
      while state.lists[Ready(p)].items == []
        invariant p < MAX_PRIORITIES && Ready(p) in state.lists && FindTop(View(), p) == FindTop(View(), topReady)
        decreases p
      {
        FindIs(View(), p);
        p := p - 1;
        FindIs(View(), p);
      }
      FindIs(View(), p);
    }

    /** vTaskSwitchContext */
    method SwitchContext()
      requires View().Core()
      modifies this
      ensures View() == SchedulerTasks.SwitchContext(old(View()))
    {
      hide *;
      FindEnds(View());
      SwitchIs(View(), FindTop(View(), topReady));
      if suspended != 0 {
        yieldPending := true;
      } else {
        var p := HighestReadyPriority();
        yieldPending := false;
        var l := state.lists[Ready(p)];
        state := Roster(state.lists[Ready(p) := l.Advance()], state.place);
        current := l.NextItem();
        topReady := p;
      }
    }

    /** The running task goes where no tick looks for it. */
    method PutOnSuspendedList()
      requires View().Shape()
      modifies `state, `tcbs
      ensures View() == BlockForever(old(View()))
    {
      hide *;
      BlockForeverIs(View());
      tcbs := tcbs[current := tcbs[current].(delayAborted := false)];
      state := state.Take(current);
      state := state.PutEnd(SuspendedTasks, current);
    }

    /** vListInsert of the running task on a delayed list. */
    method InsertCurrent(l: StateList, wake: Tick)
      requires View().Shape() && l in {Delayed1, Delayed2}
      modifies `state, `tcbs
      ensures state == Delaying(old(View()), l, wake)
      ensures tcbs == old(tcbs)[current := old(tcbs[current]).(delayAborted := false, wake := wake)]
    {
      hide *;
      DelayingIs(View(), l, wake);
      var others := tcbs;
      state := state.Take(current);
      tcbs := tcbs[current := tcbs[current].(delayAborted := false, wake := wake)];
      state := state.PutSorted(l, current, wake, Wakes(others, state.lists[l].items));
    }

    /** The running task goes on one of the two delayed lists. */
    method PutOnDelayedList(wake: Tick)
      requires View().Shape()
      modifies `state, `tcbs, `nextUnblock
      ensures View() == BlockUntil(old(View()), wake)
    {
      hide *;
      BlockUntilIs(View(), wake);
      ResetIs(View());
      if wake < tick {
        InsertCurrent(if firstIsCurrent then Delayed2 else Delayed1, wake);
      } else {
        InsertCurrent(if firstIsCurrent then Delayed1 else Delayed2, wake);
        if wake < nextUnblock {
          nextUnblock := wake;
        }
      }
    }

    /** prvAddCurrentTaskToDelayedList */
    method AddCurrentTaskToDelayedList(ticksToWait: Tick, canBlockIndefinitely: bool)
      requires View().Shape()
      modifies `state, `tcbs, `nextUnblock
      ensures View() == BlockCurrent(old(View()), ticksToWait, canBlockIndefinitely)
    {
      hide *;
      BlockIs(View(), ticksToWait, canBlockIndefinitely);
      if ticksToWait == MAX_DELAY && canBlockIndefinitely {
        PutOnSuspendedList();
      } else {
        PutOnDelayedList(Plus(tick, ticksToWait));
      }
    }

    /** xTaskRemoveFromEventList */
    method RemoveFromEventList(e: EventList) returns (higherPriority: bool)
      requires View().Shape() && e in event.lists && event.lists[e].items != []
      modifies this
      ensures View() == SchedulerTasks.RemoveFromEventList(old(View()), e)
      ensures var items := old(event.lists[e].items);
        && items[0] in old(tcbs)
        && (higherPriority <==> old(tcbs)[items[0]].priority > old(tcbs[current]).priority)
    {
      hide *;
      RemoveIs(View(), e);
      var x := event.lists[e].items[0];
      if suspended == 0 {
        Unblock(x);
      } else {
        event := event.Take(x);
        event := event.PutEnd(PendingReady, x);
      }
      higherPriority := tcbs[x].priority > tcbs[current].priority;
      if higherPriority {
        yieldPending := true;
      }
    }

    /** vTaskSuspend, with the unblock time recomputed. */
    method Suspend(x: Task)
      requires View().Shape() && x in tcbs
      modifies this
      ensures View() == SchedulerTasks.Suspend(old(View()), x).ResetUnblockTime()
    {
      hide *;
      SuspendIs(View(), x);
      Detach(x);
      state := state.PutEnd(SuspendedTasks, x);
      ResetNextTaskUnblockTime();
    }

    /** A task is taken from its state list to the ready list of its priority. */
    method MoveToReadyList(x: Task)
      requires View().Shape() && x in tcbs
      modifies `state, `topReady
      ensures View() == MoveTask(old(View()), x, Ready(tcbs[x].priority), tcbs[x])
    {
      hide *;
      TaskIsListed(View(), x);
      MoveIs(View(), x, Ready(tcbs[x].priority), tcbs[x]);
      TcbUnchanged(tcbs, x);
      state := state.Take(x);
      AddTaskToReadyList(x);
    }

    /** vTaskResume; the result asks for a context switch. */
    method Resume(x: Task) returns (yieldRequired: bool)
      requires View().Shape() && x in tcbs
      modifies `state, `topReady
      ensures View() == SchedulerTasks.Resume(old(View()), x)
      ensures yieldRequired <==>
                x != current && IsSuspended(old(View()), x) && tcbs[x].priority >= tcbs[current].priority
    {
      hide *;
      ResumeTaskIs(View(), x);
      yieldRequired := false;
      if x != current && state.place[x] == SuspendedTasks && x !in event.place {
        MoveToReadyList(x);
        yieldRequired := tcbs[x].priority >= tcbs[current].priority;
      }
    }

    /** xTaskResumeFromISR */
    method ResumeFromISR(x: Task) returns (yieldRequired: bool)
      requires View().Shape() && x in tcbs
      modifies `state, `topReady, `event
      ensures View() == SchedulerTasks.ResumeFromISR(old(View()), x)
      ensures yieldRequired <==>
                IsSuspended(old(View()), x) && suspended == 0 && tcbs[x].priority >= tcbs[current].priority
    {
      hide *;
      ResumeTaskIs(View(), x);
      yieldRequired := false;
      if state.place[x] == SuspendedTasks && x !in event.place {
        if suspended == 0 {
          yieldRequired := tcbs[x].priority >= tcbs[current].priority;
          MoveToReadyList(x);
        } else {
          event := event.PutEnd(PendingReady, x);
        }
      }
    }

    /** xTaskAbortDelay, with the scheduler suspended; the result says that there was a delay to abort. */
    method AbortDelay(x: Task) returns (aborted: bool)
      requires View().Shape() && x in tcbs
      modifies this
      ensures View() == SchedulerTasks.AbortDelay(old(View()), x) && aborted == IsWaiting(old(View()), x)
    {
      hide *;
      AbortIs(View(), x);
      TcbUnchanged(tcbs, x);
      aborted := IsWaiting(View(), x);
      if aborted {
        if x in event.place {
          tcbs := tcbs[x := tcbs[x].(delayAborted := true)];
        }
        Unblock(x);
        if tcbs[x].priority > tcbs[current].priority {
          yieldPending := true;
        }
      }
    }

    /** vTaskDelayUntil, between suspending and resuming the scheduler; the result is the new
        *pxPreviousWakeTime. */
    method DelayUntil(previous: Tick, increment: Tick) returns (timeToWake: Tick)
      requires View().Shape()
      modifies `state, `tcbs, `nextUnblock
      ensures View() == SchedulerTimeouts.DelayUntil(old(View()), previous, increment)
      ensures timeToWake == Plus(previous, increment)
    {
      hide *;
      DelayUntilIs(View(), previous, increment);
      timeToWake := Plus(previous, increment);
      var shouldDelay := false;
      if tick < previous {
        if timeToWake < previous && timeToWake > tick {
          shouldDelay := true;
        }
      } else {
        if timeToWake < previous || timeToWake > tick {
          shouldDelay := true;
        }
      }
      if shouldDelay {
        AddCurrentTaskToDelayedList(Minus(timeToWake, tick), false);
      }
    }

    /** xTaskCheckForTimeOut; the timeout and the ticks to wait are handed back changed. */
    method CheckForTimeOut(timeOut0: TimeOut, ticks0: Tick)
      returns (timedOut: bool, timeOut: TimeOut, ticksToWait: Tick)
      requires View().Shape()
      modifies `tcbs
      ensures Check(timedOut, timeOut, ticksToWait) == SchedulerTimeouts.CheckForTimeOut(old(View()), timeOut0, ticks0)
      ensures View() == AfterCheck(old(View()))
    {
      hide *;
      CheckIs(View(), timeOut0, ticks0);
      timeOut, ticksToWait := timeOut0, ticks0;
      var elapsed := Minus(tick, timeOut.timeOnEntering);
      if tcbs[current].delayAborted {
        tcbs := tcbs[current := tcbs[current].(delayAborted := false)];
        timedOut := true;
      } else if ticksToWait == MAX_DELAY {
        timedOut := false;
      } else if overflows != timeOut.overflowCount && tick >= timeOut.timeOnEntering {
        timedOut := true;
      } else if elapsed < ticksToWait {
        ticksToWait := ticksToWait - elapsed;
        timeOut := TimeOut(overflows, tick);
        timedOut := false;
      } else {
        ticksToWait := 0;
        timedOut := true;
      }
    }

    /** vTaskPlaceOnEventList */
    method PlaceOnEventList(e: EventList, ticksToWait: Tick)
      requires View().Shape() && e in event.lists && current !in event.place
      modifies `event, `state, `tcbs, `nextUnblock
      ensures View() == SchedulerSafety.PlaceOnEventList(old(View()), e, ticksToWait)
    {
      hide *;
      PlaceIs(View(), e, ticksToWait);
      event := event.PutSorted(e, current, tcbs[current].eventValue, EventValues(tcbs, event.lists[e].items));
      AddCurrentTaskToDelayedList(ticksToWait, true);
    }

    /** The half of vTaskDelete that ends another task. */
    method DeleteOther(x: Task)
      requires View().Shape() && x in tcbs && x != current && numberOfTasks > 0
      modifies `state, `event, `numberOfTasks, `tcbs
      ensures View() == Forget(old(View()), x)
    {
      hide *;
      ForgetIs(View(), x);
      Detach(x);
      numberOfTasks := numberOfTasks - 1;
      tcbs := tcbs - {x};
    }

    /** vTaskDelete */
    method Delete(x: Task)
      requires View().Shape() && x in tcbs && numberOfTasks > 0
      modifies this
      ensures View() == SchedulerTasks.Delete(old(View()), x)
    {
      hide *;
      ListsKnown(View());
      if x == current {
        Terminate();
      } else {
        DeleteIs(View(), x);
        DeleteOther(x);
        ResetNextTaskUnblockTime();
      }
    }

    /** The half of vTaskDelete that ends the running task. */
    method Terminate()
      requires View().Shape() && numberOfTasks > 0
      modifies `state, `event, `deletedTasks
      ensures View() == SchedulerTasks.Delete(old(View()), old(current))
    {
      hide *;
      TerminateIs(View());
      var x := current;
      Detach(x);
      state := state.PutEnd(WaitingTermination, x);
      deletedTasks := deletedTasks + 1;
    }

    /** The priority of a task changes; from the ready list of its old priority it moves to its new one. */
    method ChangePriority(x: Task, tcb: Tcb)
      requires View().Shape() && x in tcbs && tcb.priority < MAX_PRIORITIES && tcb.basePriority < MAX_PRIORITIES
      modifies `state, `tcbs, `topReady
      ensures View() == Requeue(old(View()), x, tcb)
    {
      hide *;
      RequeueIs(View(), x, tcb);
      MoveIs(View(), x, Ready(tcb.priority), tcb);
      var before := tcbs[x].priority;
      tcbs := tcbs[x := tcb];
      if state.place[x] == Ready(before) {
        state := state.Take(x);
        AddTaskToReadyList(x);
      }
    }

    /** vTaskPrioritySet; the result asks for a context switch. */
    method PrioritySet(x: Task, newPriority: nat) returns (yieldRequired: bool)
      requires View().Shape() && x in tcbs
      modifies `state, `tcbs, `topReady
      ensures View() == SchedulerTasks.PrioritySet(old(View()), x, newPriority)
      ensures yieldRequired <==> PriorityYields(old(View()), x, newPriority)
    {
      hide *;
      ListsKnown(View());
      PrioritySetIs(View(), x, newPriority);
      YieldsIs(View(), x, newPriority);
      yieldRequired := false;
      var p := newPriority;
      if p >= MAX_PRIORITIES {
        p := MAX_PRIORITIES - 1;
      }
      var tcb := tcbs[x];
      if tcb.basePriority != p {
        if p > tcb.basePriority {
          if x != current && p >= tcbs[current].priority {
            yieldRequired := true;
          }
        } else if x == current {
          yieldRequired := true;
        }
        if tcb.basePriority == tcb.priority {
          tcb := tcb.(priority := p);
        }
        tcb := tcb.(basePriority := p);
        if tcb.eventValue < VALUE_IN_USE {
          tcb := tcb.(eventValue := MAX_PRIORITIES - p);
        }
        ChangePriority(x, tcb);
      }
    }

    /** xTaskPriorityInherit */
    method PriorityInherit(holder: Task) returns (inherited: bool)
      requires View().Shape() && holder in tcbs
      modifies `state, `tcbs, `topReady
      ensures View() == Inherit(old(View()), holder) && inherited == Inherits(old(View()), holder)
    {
      hide *;
      InheritIs(View(), holder);
      var tcb, p := tcbs[holder], tcbs[current].priority;
      RankedIs(tcb, p);
      if tcb.priority < p {
        if tcb.eventValue < VALUE_IN_USE {
          tcb := tcb.(eventValue := MAX_PRIORITIES - p);
        }
        ChangePriority(holder, tcb.(priority := p));
        inherited := true;
      } else {
        inherited := tcb.basePriority < p;
      }
    }

    /** A ready task is moved to the ready list of its base priority. */
    method RestoreBasePriority(x: Task)
      requires View().Shape() && x in tcbs
      modifies `state, `tcbs, `topReady
      ensures View() == Restored(old(View()), x)
      ensures x in tcbs && tcbs[x].priority == old(tcbs[x].basePriority)
    {
      hide *;
      RestoredIs(View(), x);
      var tcb := tcbs[x];
      state := state.Take(x);
      tcbs := tcbs[x := tcb.(priority := tcb.basePriority, eventValue := MAX_PRIORITIES - tcb.basePriority)];
      AddTaskToReadyList(x);
    }

    /** xTaskPriorityDisinherit of the running task; the result asks for a context switch. */
    method PriorityDisinherit() returns (restored: bool)
      requires View().Shape() && tcbs[current].mutexesHeld > 0
      modifies `state, `tcbs, `topReady
      ensures View() == Disinherit(old(View()))
      ensures restored <==> old(tcbs[current].priority) != tcbs[current].priority
    {
      hide *;
      TaskFacts(View());
      tcbs := tcbs[current := Released(tcbs[current])];
      BlockChanged(old(View()), current, tcbs[current]);
      DisinheritIs(old(View()), current, View());
      restored := tcbs[current].priority != tcbs[current].basePriority && tcbs[current].mutexesHeld == 0;
      if restored {
        RestoreBasePriority(current);
      }
    }

    /** vTaskPriorityDisinheritAfterTimeout */
    method PriorityDisinheritAfterTimeout(holder: Task, highestWaiting: nat)
      requires View().Shape() && holder in tcbs && highestWaiting < MAX_PRIORITIES
      modifies `state, `tcbs, `topReady
      ensures View() == DisinheritAfterTimeout(old(View()), holder, highestWaiting)
    {
      hide *;
      var tcb := tcbs[holder];
      var p := if tcb.basePriority < highestWaiting then highestWaiting else tcb.basePriority;
      TimeoutIs(View(), holder, highestWaiting);
      RankedIs(tcb, p);
      if tcb.priority != p && tcb.mutexesHeld == 1 {
        tcb := tcb.(priority := p);
        if tcb.eventValue < VALUE_IN_USE {
          tcb := tcb.(eventValue := MAX_PRIORITIES - p);
        }
        ChangePriority(holder, tcb);
      }
    }

    /** pvTaskIncrementMutexHeldCount */
    method IncrementMutexHeldCount()
      requires View().Shape()
      modifies `tcbs
      ensures View() == IncrementHeld(old(View()))
    {
      hide *;
      OwnBlockIs(View());
      tcbs := tcbs[current := tcbs[current].(mutexesHeld := tcbs[current].mutexesHeld + 1)];
    }

    /** uxTaskResetEventItemValue hands back the value as it was. */
    method ResetEventItemValue() returns (value: Tick)
      requires View().Shape()
      modifies `tcbs
      ensures View() == ResetEventItem(old(View())) && value == old(tcbs[current].eventValue)
    {
      hide *;
      OwnBlockIs(View());
      value := tcbs[current].eventValue;
      tcbs := tcbs[current := tcbs[current].(eventValue := MAX_PRIORITIES - tcbs[current].priority)];
    }

    /** A new task is counted and put on its ready list. */
    method PutNewTask(x: Task, priority: nat)
      requires View().Shape() && x !in tcbs
      modifies `state, `tcbs, `topReady, `numberOfTasks
      ensures View() == Create(old(View()), x, priority)
      ensures x in tcbs && tcbs[x].priority == Clamp(priority) && current in tcbs
    {
      hide *;
      CreateIs(View(), x, priority);
      var p := priority;
      if p >= MAX_PRIORITIES {
        p := MAX_PRIORITIES - 1;
      }
      numberOfTasks := numberOfTasks + 1;
      tcbs := tcbs[x := Tcb(p, p, 0, 0, MAX_PRIORITIES - p, false)];
      AddTaskToReadyList(x);
    }

    /** prvAddNewTaskToReadyList of a task that is not the first; the result asks for a context switch. */
    method AddNewTaskToReadyList(x: Task, priority: nat) returns (yieldRequired: bool)
      requires View().Shape() && x !in tcbs
      modifies `state, `tcbs, `topReady, `numberOfTasks, `current
      ensures View() == if running then Create(old(View()), x, priority)
                        else CreateBeforeStart(old(View()), Creation(x, priority))
      ensures x in tcbs && current in tcbs
      ensures yieldRequired <==> running && tcbs[current].priority < tcbs[x].priority
    {
      hide *;
      CreateFirstIs(View(), Creation(x, priority));
      PutNewTask(x, priority);
      if !running && tcbs[current].priority <= tcbs[x].priority {
        current := x;
      }
      yieldRequired := running && tcbs[current].priority < tcbs[x].priority;
    }

    method CleanUpFirst()
      requires View().Core() && current == IDLE && deletedTasks > 0
      modifies this
      ensures View() == CleanUpOne(old(View()))
    {
      hide *;
      CleanUpIs(View());
      var x := state.lists[WaitingTermination].items[0];
      state := state.Take(x);
      tcbs := tcbs - {x};
      numberOfTasks := numberOfTasks - 1;
      deletedTasks := deletedTasks - 1;
    }

    /** The loop of prvCheckTasksWaitingTermination, run by the idle task. */
    method CheckTasksWaitingTermination()
      requires View().Inv() && current == IDLE
      modifies this
      ensures View().Inv() && deletedTasks == 0 && state.lists[WaitingTermination].items == []
      ensures numberOfTasks == old(numberOfTasks) - old(deletedTasks)
    {
      hide *;
      InvCore(View());
      while deletedTasks > 0
        invariant View().Inv() && View().Core() && current == IDLE
        invariant numberOfTasks - deletedTasks == old(numberOfTasks) - old(deletedTasks)
        decreases deletedTasks
      {
        CleanUpSafe(View());
        CleanUpCounts(View());
        CleanUpFirst();
        InvCore(View());
      }
      InvCore(View());
    }
  }
}
