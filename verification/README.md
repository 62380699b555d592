# A verified model of the FreeRTOS kernel and its companions

This project models, in Dafny, the FreeRTOS V10.3.1 kernel kept in `c_test/FreeRTOS/Source` and three
smaller programs beside it: CoreMark's list benchmark, the xprintf number printer and parser, and the
machine-timer driver.  `dafny verify dfyconfig.toml` checks all of it.

## How it is built

* **Two layers.**  Each component is first written as functions on values, about which the theorems are
  proved; beside it stands a class with mutable fields, or linked nodes and arrays, whose methods follow
  the C code statement by statement and are proved to compute exactly those functions.
* **Time.**  Ticks are 32 bits wide (`configUSE_16_BIT_TICKS` is 0) and wrap explicitly.  A true,
  unbounded tick number is kept alongside, as overflows and count or as a label, so that theorems can
  speak of "d ticks later" across any number of wraps.
* **Concurrency.**  A critical section is one step, an interrupt is a step, and a run is any sequence of
  legal steps.  The message buffer, which takes no lock, is cut finer: one step per byte copied and per
  published index.
* **Invariants.**  A run demands legality of a step only where the invariant holds; that it holds
  everywhere, from the start of the scheduler on, is proved (`SchedulerStart.StartIsGood`,
  `SchedulerRuns.InvariantHolds`, `SchedulerStart.StartAccounted`, `MutexRuns.MutexesAccounted`).

| files | component |
|---|---|
| `Ticks`, `ListValues`, `KernelLists`, `Rosters` | wrapped ticks; list.c as values and as pointers; lists with container pointers |
| `Scheduler`, `SchedulerTime`, `SchedulerSuspension`, `SchedulerTasks`, `SchedulerSafety`, `SchedulerRuns`, `SchedulerTimeouts` | tasks.c as functions, steps and runs |
| `InitialLists`, `SchedulerStart`, `Preemption`, `PendingYields` | starting the scheduler; which steps ask for a context switch, and how it is remembered |
| `ReadyTurns`, `EventOrder`, `Handovers` | whose turn it is; who is first to be woken; what a waker leaves for the task it wakes |
| `Kernels`, `KernelSteps` | tasks.c on mutable fields; what its steps do field by field |
| `Mutexes`, `MutexRuns`, `MutexPriorities`, `MutexPreemption`, `MutexWakeups`, `MutexQueues`, `QueueStorage`, `QueueLocks` | queue.c |
| `MutexScenes` | three runs in which the code does not do what one would expect |
| `Rings`, `StreamBuffers`, `MessageRace`, `MessageDelivery`, `StreamWakeups` | stream_buffer.c |
| `Timers`, `TimerRuns`, `OneShotRuns`, `TimerDaemons` | timers.c |
| `EventGroups` | event_groups.c |
| `MergeSorts`, `ListSorts`, `ListEdits` | core_list_join.c |
| `Xprintf`, `XprintfFormats`, `XprintfParses`, `XprintfLoops` | xprintf.c |
| `Mtimers` | mtimer.c |

## Where the code does not do what one would expect

Each of these is kept as the code has it, with the exact condition proved for all inputs, and a failing
input where that says more.

* A queue's lock counts are 8 bits wide: more than 127 interrupt posts during one lock lose wakeups
  (`QueueLocks.UnlockAnnouncesPosts`, `OnePostTooMany`), and from the 256th on the lists are touched while locked
  (`QueueLocks.LockWearsOut`).
* `xTaskCheckForTimeOut` and `vTaskDelayUntil` are wrong for callers more than a wrap late under the
  conditions in `SchedulerTimeouts.TimeOutDecision` and `DelayDecision` (`TimeOutForgotten`,
  `WholeWrapLate`); the timer daemon likewise in `Timers.PlacementWhenLate` (`ForgottenForAWrap`).
* `vTaskPrioritySet` of a task on an inherited priority can make its event item stand for a priority it does
  not have (`MutexPriorities.PrioritySetExact`), after which a timeout can put the holder of a mutex below a
  task that waits for it (`MutexScenes.ItemMisleads`).  It can also leave a task running below its base priority
  (`MutexPriorities.BaseMayOvertake`).
* `vTaskPriorityDisinheritAfterTimeout` asks for no context switch when it leaves a ready task above the
  running one (`Preemption.TimeOutIsExact`, `MutexPreemption.GiveUpIsExact`, `MutexScenes.TimeoutIsOverlooked`).
* `xQueueGenericSend` drops the request for a context switch of `xTaskPriorityDisinherit` whenever somebody waits
  for the mutex.  When mutexes are given back in another order than taken, which is the case the request is
  for, the giver can then go on at its base priority with a task of higher priority ready
  (`MutexPreemption.GiveIsExact`, `MutexScenes.GiveIsOverlooked`).
* `xStreamBufferSetTriggerLevel` does not wake a reader for whom the new level is reached
  (`StreamWakeups.StepKeepsInv`, `LoweredTriggerForgets`), and a trigger level can keep both parties asleep
  (`BothAsleep`, `BothCanSleep`).
* The comment at `c_test/mtimer/mtimer.c:33` says that writing the compare register in three steps
  prevents a false interrupt; `Mtimers.WriteMayInterrupt` says exactly when it does not
  (`RescheduleInterrupts`, `PendingBetweenWrites`).
* `xatoi` accepts the characters from `:` to `?` as hexadecimal digits, because the test meant to refuse
  them is applied after a subtraction that makes it always fail (`Xprintf.PunctuationCountsAsHex`, `ColonReadsAsTen`).
* `xatoi` reads a decimal that `xprintf` padded with zeros as octal (`Xprintf.ZeroPaddedDecimals`).
* An item added by `vListInsertEnd` is not the very last to be read: the item under the cursor comes
  after it (`ListValues.InsertEndFuture`).

## Model

| member | source | states |
|---|---|---|
| `SchedulerRuns.WakesOnTime` | c_test/FreeRTOS/Source/tasks.c:2707-2861 | In every run, over any number of tick wraps, a task that waits for true tick T + d, and whose wait no other step ends, waits in every state before that tick and is ready right after the step that reaches it, whatever happens to its priority meanwhile |
| `SchedulerRuns.DelayIsExact` | c_test/FreeRTOS/Source/tasks.c:5177-5248 | A task that blocks for 1 <= d < 2^32 ticks in any step of any run at true tick T, and is not woken, suspended or deleted by somebody, wakes in the step that reaches T + d and in none before; it may inherit priorities or be given new ones while it sleeps |
| `SchedulerTime.TickEffect` | c_test/FreeRTOS/Source/tasks.c:2707-2861 | A tick readies, and takes off their event lists, exactly the tasks due at it, and leaves everybody else waiting for the same true tick and event |
| `SchedulerTime.TickRequestsSwitch` | c_test/FreeRTOS/Source/tasks.c:2707-2861 | xTaskIncrementTick returns true if and only if it woke a task of at least the running priority, somebody shares that priority, or a yield was pending |
| `SchedulerTime.ListSwitchIsSafe` | c_test/FreeRTOS/Source/tasks.c:198-210 | The list switched away when the tick count wraps is empty: the assertion at line 203 never fails |
| `SchedulerTime.BlockUntilEffect` | c_test/FreeRTOS/Source/tasks.c:5201-5248 | A delay of d from true tick N is due at N + d whichever delayed list it lands on; nobody else moves |
| `SchedulerTime.TicksThenTicks` | c_test/FreeRTOS/Source/tasks.c:2707-2861 | The effect of m ticks followed by that of n is the effect of m + n |
| `Scheduler.Sched.ExpireEffect` | c_test/FreeRTOS/Source/tasks.c:2747-2816 | The loop over the current delayed list readies exactly the elapsed tasks, in spite of looking at the head only, and reports a preemption if and only if one of them is of at least the running priority |
| `Scheduler.Sched.NoEarlierThanHead` | c_test/FreeRTOS/Source/tasks.c:3943-3963 | The recomputed next unblock time is no later than any wake time on the current list |
| `SchedulerTimeouts.DelayDecision` | c_test/FreeRTOS/Source/tasks.c:1272-1306 | vTaskDelayUntil delays a caller of any lateness exactly when the next wake time is still to come, except if and only if the caller is a wrap or more late and the wrapped lateness falls short of the increment |
| `SchedulerTimeouts.WholeWrapLate` | c_test/FreeRTOS/Source/tasks.c:1272-1306 | The failing input: a caller with a period of 10 ticks that comes 2^32 + 1 ticks after its last wake time is put to sleep once more |
| `SchedulerTimeouts.DelayUntilIsPeriodic` | c_test/FreeRTOS/Source/tasks.c:1257-1334 | A caller less than a wrap late blocks if and only if its true next wake time lies after the true now, and then wakes at exactly that time |
| `SchedulerTimeouts.TimeOutDecision` | c_test/FreeRTOS/Source/tasks.c:3274-3330 | xTaskCheckForTimeOut answers rightly unless two or more overflows have passed and the wrapped elapsed time falls short of the wait, and an aborted delay always counts as timed out |
| `SchedulerTimeouts.TimeOutForgotten` | c_test/FreeRTOS/Source/tasks.c:3274-3330 | The failing input: 2^32 + 16 ticks into a wait of 100, at the second overflow, the check answers that 84 ticks are left |
| `SchedulerTimeouts.TimeoutBudget` | c_test/FreeRTOS/Source/tasks.c:3266-3330 | Over any number of checks of a waiting loop, ticks left plus true ticks elapsed equals the original request, and the loop is told to stop at the first check at which the request is used up |
| `SchedulerTimeouts.ForEverIsForEver` | c_test/FreeRTOS/Source/tasks.c:3298-3305 | A wait for portMAX_DELAY never times out, however often and however late it is checked, unless it is aborted; it stays the same wait |
| `SchedulerTimeouts.AbortedEnds` | c_test/FreeRTOS/Source/tasks.c:3288-3294 | An aborted delay ends the wait at the next check, which uses the note up, and leaves the time of entry and the ticks asked for as they were |
| `SchedulerTimeouts.TimedOutLeaves` | c_test/FreeRTOS/Source/tasks.c:3309-3329 | A check that finds the time used up leaves the time of entry as it was, and within 2^32 ticks of it leaves no time over |
| `SchedulerSuspension.SuspensionIsInvisible` | c_test/FreeRTOS/Source/tasks.c:2110-2297 | Suspending to any depth, taking n ticks and resuming gives exactly the state of n direct ticks: counts, lists with their order and cursors; only the request to switch is remembered |
| `SchedulerSuspension.ResumeEffect` | c_test/FreeRTOS/Source/tasks.c:2194-2297 | The last xTaskResumeAll readies exactly the tasks held back and those whose time came meanwhile, and leaves nothing held back |
| `SchedulerSuspension.DrainEffect` | c_test/FreeRTOS/Source/tasks.c:2216-2236 | The loop over the pending ready list readies exactly the tasks on it, and ends |
| `SchedulerSuspension.UnwindEffect` | c_test/FreeRTOS/Source/tasks.c:2253-2276 | The loop over the pended ticks has the effect of that many ticks |
| `PendingYields.RequestIsKept` | c_test/FreeRTOS/Source/tasks.c:3138-3203 | In every run: once a step has found a context switch due that it may not make itself, xYieldPending stays set until a switch is made with the scheduler running, and until then every tick and every xTaskResumeAll asks for one |
| `PendingYields.NoRequestUnasked` | c_test/FreeRTOS/Source/tasks.c:2989-2999 | In every run xYieldPending is set by nothing but those steps |
| `PendingYields.StepKeepsRequests` | c_test/FreeRTOS/Source/tasks.c:3138-3251 | They are: waking a task above the running one, be it held back, ending its delay, a switch asked for while the scheduler is suspended, and a resumption that finds a reason; and only a switch clears the request |
| `PendingYields.DrainNotes` | c_test/FreeRTOS/Source/tasks.c:2216-2236 | The loop over the pending ready list asks for a switch if and only if one was asked for or a task on the list is of at least the running priority |
| `PendingYields.ResumeExact` | c_test/FreeRTOS/Source/tasks.c:2238-2247 | After xTaskResumeAll has readied a task that was held back, xNextTaskUnblockTime is the wake time of the first task still delayed, whatever ticks were unwound, so that it leaves no early deadline behind |
| `PendingYields.BlockExact` | c_test/FreeRTOS/Source/tasks.c:5229-5245 | Blocking with a timeout keeps it exact, on either delayed list |
| `PendingYields.DeleteExact` | c_test/FreeRTOS/Source/tasks.c:1225-1232 | Deleting another task leaves it exact, whether that was delayed or not |
| `SchedulerRuns.TicksConserved` | c_test/FreeRTOS/Source/tasks.c:2862-2864 | In every run, ticks processed plus ticks pended equals ticks delivered, less 2^32 for each time xPendedTicks itself wrapped |
| `SchedulerRuns.InvariantHolds` | c_test/FreeRTOS/Source/tasks.c:1077-1137 | In every run of legal steps, interrupts falling anywhere, every task stays on exactly the list its item names, ready lists match priorities with none above uxTopReadyPriority, both delayed lists are in wake order, and nobody is overdue |
| `SchedulerStart.StartIsGood` | c_test/FreeRTOS/Source/tasks.c:2059-2061 | Whatever tasks have been created before it, vTaskStartScheduler leaves a state that satisfies that invariant, at true tick 0, with the highest-priority task about to run |
| `SchedulerStart.FirstToRun` | c_test/FreeRTOS/Source/tasks.c:1104-1112 | The first task to run is, of those of the highest priority, the one created last |
| `SchedulerRuns.EveryStepGood` | c_test/FreeRTOS/Source/tasks.c:1162-1250 | Each of the 25 kernel steps keeps the invariant, never turns the clock back, and leaves every task it is not about where it was, or ready if its time came |
| `SchedulerRuns.ListsHoldEveryTask` | c_test/FreeRTOS/Source/tasks.c:218-222 | The lengths of the ready, delayed, overflow, suspended and termination lists add up to uxCurrentNumberOfTasks |
| `SchedulerRuns.SwitchPicksHighest` | c_test/FreeRTOS/Source/tasks.c:2989-3060 | With the scheduler running, vTaskSwitchContext picks a ready task that no ready task outranks, and the one whose turn it is |
| `SchedulerTasks.SomethingReady` | c_test/FreeRTOS/Source/tasks.c:133-148 | The downward search for a non-empty ready list always finds one |
| `MutexPreemption.PreemptionIsAsked` | c_test/FreeRTOS/Source/queue.c:833-858 | In every run of kernel and mutex steps that starts with the highest-priority task running: while no context switch is owed to a request since the last one, and none has been overlooked by a timeout or a give, the running task is ready and no ready task has a higher priority |
| `MutexPreemption.SysStepStaysOnTop` | c_test/FreeRTOS/Source/queue.c:833-858 | A step that asks for no switch leaves a ready task above a running one that was on top if and only if it is a timeout or a give under the two conditions below |
| `MutexPreemption.GiveIsExact` | c_test/FreeRTOS/Source/queue.c:833-858 | A give asks for no switch and leaves a ready task above the running one if and only if it is that of the last mutex by a task of inherited priority, somebody waits for the mutex, the first waiter is not above the base priority, and some other ready task is: the request of xTaskPriorityDisinherit is dropped whenever somebody waits |
| `MutexScenes.GiveIsOverlooked` | c_test/FreeRTOS/Source/queue.c:833-858 | The failing input: a task of base priority 1 gives the mutex a task of priority 5 waits for, and then another that a task of priority 0 waits for; it goes on at priority 1 with the task of priority 5 ready and nothing pending |
| `MutexPreemption.GiveUpIsExact` | c_test/FreeRTOS/Source/queue.c:1598-1621 | The end of a wait that timed out leaves a ready task above the running one if and only if it puts a ready holder of just that mutex above it |
| `MutexScenes.TimeoutIsOverlooked` | c_test/FreeRTOS/Source/queue.c:1598-1621 | The failing input: a task of priority 2 gives up on a mutex for which a task raised to 5 still waits; the holder gets 5 and is ready, and the task of priority 2 goes on |
| `Preemption.StepStaysOnTop` | c_test/FreeRTOS/Source/tasks.c:1573-1609 | Of the kernel steps that ask for no switch only two can leave a ready task above the running one: vTaskPriorityDisinheritAfterTimeout and xTaskPriorityDisinherit, under their exact conditions |
| `Preemption.TimeOutIsExact` | c_test/FreeRTOS/Source/tasks.c:4184-4282 | vTaskPriorityDisinheritAfterTimeout, which asks for no switch, leaves a ready task above the running one if and only if it raises a ready holder of one mutex above it, or lowers the running task below a ready one |
| `Preemption.DisinheritIsExact` | c_test/FreeRTOS/Source/tasks.c:4104-4177 | xTaskPriorityDisinherit leaves a ready task above the running one if and only if it gives up the last mutex and such a task is above the base priority |
| `Preemption.ResumingAsks` | c_test/FreeRTOS/Source/tasks.c:1851-1970 | vTaskResume and xTaskResumeFromISR ask for a switch if and only if they ready the task and it is of at least the running priority |
| `Preemption.WakingAsks` | c_test/FreeRTOS/Source/tasks.c:2629-2702 | Aborting a delay, and waking for an event group, asks for a switch if and only if it readies a task above the running one |
| `Preemption.PriorityYieldsExactly` | c_test/FreeRTOS/Source/tasks.c:1573-1609 | vTaskPrioritySet asks for a switch if and only if it has raised another task's base priority to at least the running priority, or lowered the running task's own |
| `Preemption.CreatingAsks` | c_test/FreeRTOS/Source/tasks.c:1140-1152 | Creating a task asks for a switch if and only if the new task is above the running one |
| `Preemption.LeavingAsks` | c_test/FreeRTOS/Source/tasks.c:1704-1798 | Suspending and deleting a task ask for a switch if and only if they take the running task off the ready lists |
| `SchedulerRuns.ChosenInTurn` | c_test/FreeRTOS/Source/tasks.c:133-148 | Successive context switches go round the ready tasks of the top priority in list order from wherever the cursor is |
| `SchedulerRuns.EqualShares` | c_test/FreeRTOS/Source/tasks.c:133-148 | Of m ready tasks of the top priority, m switches choose each exactly once |
| `ReadyTurns.StepKeepsTurns` | c_test/FreeRTOS/Source/tasks.c:218-222 | Every kernel step but a switch that takes place leaves the turn of every priority, the order in which switches will choose its ready tasks, as it was: only tasks the step is about may leave it, and tasks that join come behind all others, but before the one chosen last |
| `ReadyTurns.ReadiedWaitsItsTurn` | c_test/FreeRTOS/Source/tasks.c:218-222 | A task that becomes ready at the highest priority is chosen after every task that was ready there already and is not the one chosen last |
| `ReadyTurns.ExpireTurns` | c_test/FreeRTOS/Source/tasks.c:2747-2816 | Tasks whose delays end in one tick join in the order in which they were due |
| `ReadyTurns.DrainTurns` | c_test/FreeRTOS/Source/tasks.c:2216-2236 | Tasks held back during a suspension join in the order in which they were held back |
| `SchedulerSafety.SuspendSafe` | c_test/FreeRTOS/Source/tasks.c:1704-1798 | vTaskSuspend keeps the invariant, moves no other task, and leaves the task suspended |
| `SchedulerSafety.ResumeSafe` | c_test/FreeRTOS/Source/tasks.c:1851-1897 | vTaskResume readies a suspended task and nobody else |
| `SchedulerSafety.ResumeFromISRSafe` | c_test/FreeRTOS/Source/tasks.c:1905-1970 | xTaskResumeFromISR readies the task, or while the scheduler is suspended holds it back |
| `SchedulerSafety.AbortDelaySafe` | c_test/FreeRTOS/Source/tasks.c:2629-2702 | xTaskAbortDelay readies a blocked task, takes it off its event list and leaves the note that its wait was aborted |
| `Handovers.NotedIffAborted` | c_test/FreeRTOS/Source/tasks.c:2652-2670 | In every run a task carries the note that makes its next xTaskCheckForTimeOut end the wait if and only if its wait for an event was aborted since it last began to wait or looked |
| `Handovers.StepKeepsNote` | c_test/FreeRTOS/Source/tasks.c:5184-5189 | Of all kernel steps only aborting a wait for an event leaves that note, only beginning to wait and looking use it up; and an event item in use is rewritten by four kinds of step only |
| `SchedulerSafety.PlaceOnEventListSafe` | c_test/FreeRTOS/Source/tasks.c:3064-3078 | The running task joins the event list and is due exactly d ticks later, or never for portMAX_DELAY |
| `SchedulerSafety.PlaceOnUnorderedSafe` | c_test/FreeRTOS/Source/tasks.c:3081-3102 | The same for the unordered list of an event group |
| `EventOrder.PlacedInOrder` | c_test/FreeRTOS/Source/tasks.c:3064-3078 | On a list in item order the running task joins behind all whose item is no greater and in front of all others |
| `EventOrder.StepKeepsOrder` | c_test/FreeRTOS/Source/tasks.c:3138-3203 | Every step that leaves the items of those on an ordered list alone keeps it in order |
| `EventOrder.OrderedThroughout` | c_test/FreeRTOS/Source/tasks.c:3064-3078 | So in every run in which no item is rewritten while it is on the list the list stays in item order |
| `EventOrder.HighestFirst` | c_test/FreeRTOS/Source/tasks.c:3138-3160 | While items stand for priorities the head of an ordered list, which is the one woken, is of the highest priority waiting |
| `Handovers.ValueArrives` | c_test/FreeRTOS/Source/tasks.c:3206-3222 | In every run a task taken off an unordered event list with a value finds it in its event item when it runs, whatever happens to its priority meanwhile, until it resets the item, waits with another value, gives back a mutex or is woken with another value |
| `Handovers.InUseKeepsValue` | c_test/FreeRTOS/Source/tasks.c:3206-3222 | The item value handed over is told from a priority by its top bit and otherwise is what was given |
| `SchedulerSafety.RemoveFromEventListSafe` | c_test/FreeRTOS/Source/tasks.c:3138-3203 | The head of the event list becomes ready, or while the scheduler is suspended stays where it is with its event item held back |
| `SchedulerSafety.RemoveFromUnorderedSafe` | c_test/FreeRTOS/Source/tasks.c:3206-3251 | The task becomes ready with the given event item value |
| `SchedulerSafety.PrioritySetSafe` | c_test/FreeRTOS/Source/tasks.c:1540-1697 | vTaskPrioritySet changes the base priority, and the running one unless it is inherited, and keeps a ready task in the list of its priority |
| `SchedulerSafety.InheritSafe` | c_test/FreeRTOS/Source/tasks.c:4014-4097 | The holder runs at the greater of its own and the running task's priority, in the matching ready list |
| `Handovers.InheritsMeans` | c_test/FreeRTOS/Source/tasks.c:4014-4097 | While nobody runs below his base priority, xTaskPriorityInherit returns true if and only if the holder's base priority is below the running task's, and the holder then runs on a priority it has inherited |
| `SchedulerSafety.DisinheritSafe` | c_test/FreeRTOS/Source/tasks.c:4104-4177 | Giving the last mutex restores the base priority and the ready list; giving another changes the count only |
| `SchedulerSafety.DisinheritAfterTimeoutSafe` | c_test/FreeRTOS/Source/tasks.c:4184-4282 | A holder of one mutex goes to the greater of base and highest waiting priority; a holder of several keeps its priority |
| `SchedulerSafety.ResetItemSafe` | c_test/FreeRTOS/Source/tasks.c:4602-4613 | uxTaskResetEventItemValue keeps the invariant, touches the running task only, and leaves its item standing for its priority |
| `SchedulerSafety.AfterCheckSafe` | c_test/FreeRTOS/Source/tasks.c:3274-3330 | Using up the note of an aborted delay keeps the invariant and touches the running task only |
| `SchedulerSafety.CreateSafe` | c_test/FreeRTOS/Source/tasks.c:1077-1137 | A new task keeps the invariant and moves nobody |
| `SchedulerSafety.DeleteSafe` | c_test/FreeRTOS/Source/tasks.c:1162-1250 | vTaskDelete of the running or of any other task keeps the invariant; live tasks drop by one |
| `SchedulerSafety.CleanUpSafe` | c_test/FreeRTOS/Source/tasks.c:3639-3663 | A round of prvCheckTasksWaitingTermination removes a task that was waiting for termination and no other |
| `Rosters.Roster.Removed` | c_test/FreeRTOS/Source/list.c:170-196 | Removing an item through its container pointer keeps pointers and lists in agreement |
| `Rosters.Roster.PutEndTurn` | c_test/FreeRTOS/Source/list.c:74-100 | An item put at the end of one of the kernel's lists comes behind all others in the order in which the cursor will reach them, but before the item under the cursor |
| `Rosters.Roster.TakeTurn` | c_test/FreeRTOS/Source/list.c:170-196 | Taking an item leaves the order of all the others as it was, and a cursor that was on it on the item before it |
| `Kernels.Kernel.AddTaskToReadyList` | c_test/FreeRTOS/Source/tasks.c:218-222 | Puts the task at the end of the ready list of its priority, whose turn PutEndTurn and StepKeepsTurns are about, and raises uxTopReadyPriority to it |
| `Kernels.Kernel.constructor` | c_test/FreeRTOS/Source/tasks.c:1080-1095 | The first task created initialises the lists and is the one to run |
| `Kernels.Kernel.StartScheduler` | c_test/FreeRTOS/Source/tasks.c:2059-2061 | The end of vTaskStartScheduler on mutable fields is the step that StartIsGood is about |
| `Kernels.Kernel.ReadyElapsedTasks` | c_test/FreeRTOS/Source/tasks.c:2747-2816 | The loop on mutable fields computes the state and answer of the specification function |
| `Kernels.Kernel.IncrementTick` | c_test/FreeRTOS/Source/tasks.c:2707-2876 | The fields after a tick are those of the specification function that the tick theorems are about |
| `Kernels.Kernel.ResumeAll` | c_test/FreeRTOS/Source/tasks.c:2194-2297 | Likewise for resuming; returns true if and only if this was the last resume and a yield is pending |
| `Kernels.Kernel.DeliverPendingReady` | c_test/FreeRTOS/Source/tasks.c:2216-2247 | Likewise for the loop over the pending ready list, with the unblock time recomputed if anything was in it |
| `Kernels.Kernel.UnwindPendedTicks` | c_test/FreeRTOS/Source/tasks.c:2253-2276 | Likewise for the loop over the pended ticks |
| `Kernels.Kernel.SwitchContext` | c_test/FreeRTOS/Source/tasks.c:2989-3060 | Likewise for the context switch, cursor included |
| `Kernels.Kernel.HighestReadyPriority` | c_test/FreeRTOS/Source/tasks.c:133-148 | The search loop ends at a non-empty ready list, the highest one |
| `Kernels.Kernel.AddCurrentTaskToDelayedList` | c_test/FreeRTOS/Source/tasks.c:5177-5248 | Likewise for blocking, on either delayed list or the suspended list |
| `Kernels.Kernel.RemoveFromEventList` | c_test/FreeRTOS/Source/tasks.c:3138-3203 | Likewise; returns true if and only if the task removed outranks the running one |
| `Kernels.Kernel.PlaceOnEventList` | c_test/FreeRTOS/Source/tasks.c:3064-3078 | Likewise: on the event list by item value, then blocked |
| `Kernels.Kernel.Suspend` | c_test/FreeRTOS/Source/tasks.c:1704-1798 | Likewise for suspending, with the unblock time recomputed |
| `Kernels.Kernel.Resume` | c_test/FreeRTOS/Source/tasks.c:1851-1897 | Likewise for resuming a suspended task; asks for a switch if and only if it was suspended and is of at least the running priority |
| `Kernels.Kernel.ResumeFromISR` | c_test/FreeRTOS/Source/tasks.c:1905-1970 | Likewise; asks for a yield if and only if a task of at least the running priority was readied |
| `Kernels.Kernel.AbortDelay` | c_test/FreeRTOS/Source/tasks.c:2629-2702 | Likewise; returns true if and only if the task was blocked |
| `Kernels.Kernel.DelayUntil` | c_test/FreeRTOS/Source/tasks.c:1257-1334 | Likewise; hands back the next wake time whether it delayed or not |
| `Kernels.Kernel.CheckForTimeOut` | c_test/FreeRTOS/Source/tasks.c:3274-3330 | Likewise; uses up the note of an aborted delay |
| `Kernels.Kernel.Delete` | c_test/FreeRTOS/Source/tasks.c:1162-1250 | Likewise for deleting the running or another task |
| `Kernels.Kernel.AddNewTaskToReadyList` | c_test/FreeRTOS/Source/tasks.c:1077-1150 | Likewise for every later task, before the scheduler starts, when it may become the task to run first, and afterwards, when a switch is asked for if and only if it outranks the running task |
| `Kernels.Kernel.PrioritySet` | c_test/FreeRTOS/Source/tasks.c:1540-1697 | Likewise for setting a priority; asks for a switch if and only if another task is raised to at least the running priority or the running task is lowered |
| `Kernels.Kernel.ResetEventItemValue` | c_test/FreeRTOS/Source/tasks.c:4602-4613 | Likewise; hands back the item value as it was |
| `Kernels.Kernel.PriorityInherit` | c_test/FreeRTOS/Source/tasks.c:4014-4097 | Likewise; returns true if and only if the holder now runs on, or already ran on, a priority lent at this level |
| `Kernels.Kernel.PriorityDisinherit` | c_test/FreeRTOS/Source/tasks.c:4104-4177 | Likewise; returns true if and only if the running priority changed |
| `Kernels.Kernel.PriorityDisinheritAfterTimeout` | c_test/FreeRTOS/Source/tasks.c:4184-4282 | Likewise for disinheriting after a timeout |
| `Kernels.Kernel.CheckTasksWaitingTermination` | c_test/FreeRTOS/Source/tasks.c:3639-3663 | The loop keeps the invariant, empties the termination list and drops the task count by the number deleted |
| `MutexRuns.MutexesAccounted` | c_test/FreeRTOS/Source/queue.c:1456-1477 | In every run: count 0 if and only if a holder is recorded, uxMutexesHeld equals the number of mutexes naming the task, and a task that holds none runs at its base priority |
| `SchedulerStart.StartAccounted` | c_test/FreeRTOS/Source/queue.c:466-489 | So it is when the scheduler starts with all mutexes free; and then event items stand for priorities and nobody runs below its base priority |
| `MutexRuns.SysStepAccounts` | c_test/FreeRTOS/Source/queue.c:1418-1633 | Every mutex operation and every other kernel step keeps the accounts |
| `MutexRuns.KernelStepAccounts` | c_test/FreeRTOS/Source/tasks.c:2707-2861 | Ticks, wakeups, suspension, priority changes, creation and deletion of non-holders keep the accounts |
| `MutexRuns.CreateMutexAccounts` | c_test/FreeRTOS/Source/queue.c:466-489 | A mutex created in the middle of a run is accounted for |
| `MutexRuns.CreatedIsFree` | c_test/FreeRTOS/Source/queue.c:466-489 | It can be taken at once, and no other mutex changes |
| `MutexRuns.LendForAccounts` | c_test/FreeRTOS/Source/queue.c:1544-1570 | Lending a priority, which is a critical section of its own, keeps the accounts |
| `MutexRuns.QueueUpForAccounts` | c_test/FreeRTOS/Source/queue.c:1571-1578 | Queueing up, after whatever interrupts fell since the lending, keeps the accounts |
| `Mutexes.TakeAccounts` | c_test/FreeRTOS/Source/queue.c:1456-1477 | Taking records the running task as holder and keeps the accounts |
| `Mutexes.BlockOnAccounts` | c_test/FreeRTOS/Source/queue.c:1544-1570 | Right after a task blocks on a held mutex the holder runs at no less than its priority |
| `Mutexes.GiveUpAccounts` | c_test/FreeRTOS/Source/queue.c:1598-1621 | After a timeout a holder of one mutex runs at the greater of its base priority and the priority that the first waiter's item stands for; a holder of several keeps its priority |
| `Mutexes.GiveUpByLast` | c_test/FreeRTOS/Source/queue.c:2049-2069 | With nobody left waiting that is the base priority |
| `MutexPriorities.GiveUpFollowsWaiter` | c_test/FreeRTOS/Source/queue.c:1598-1621 | While event items stand for priorities, that is the greater of its base priority and the running priority of the first waiter |
| `MutexPriorities.TimeoutRespectsWaiter` | c_test/FreeRTOS/Source/queue.c:1598-1621 | So it is after every timeout in every run, as long as no vTaskPrioritySet has spoilt an item; if the mutex was given in the meantime nothing changes |
| `MutexPriorities.PrioritySetExact` | c_test/FreeRTOS/Source/tasks.c:1616-1648 | vTaskPrioritySet makes an event item that stood for its task's priority stand for another if and only if the priority is inherited, the item is not in use for something else, and the new base priority is neither the old one nor the running priority |
| `MutexPriorities.KernelStepExact` | c_test/FreeRTOS/Source/tasks.c:1616-1648 | Of all kernel steps it is the only one: each other step, whichever task it is about, keeps all items standing for their priorities and all tasks at or above their base priorities |
| `MutexPriorities.GoodThroughout` | c_test/FreeRTOS/Source/tasks.c:1616-1648 | So in every run of kernel and mutex steps without such a vTaskPrioritySet all items stand for priorities, and in every run without one that overtakes an inherited priority every task runs at no less than its base priority |
| `MutexPriorities.BaseMayOvertake` | c_test/FreeRTOS/Source/tasks.c:1595-1632 | vTaskPrioritySet leaves a task below its base priority if and only if it runs on a priority other than its base that the new base exceeds, whatever was the case before |
| `MutexScenes.ItemMisleads` | c_test/FreeRTOS/Source/tasks.c:1616-1648 | The failing input: a waiter of base 2 on an inherited 5 is given base 3; a task that has timed out on the same mutex then runs and puts the holder at 3, below the waiter at 5 |
| `MutexPriorities.HolderKeepsUpWithWaiter` | c_test/FreeRTOS/Source/queue.c:1544-1578 | Once a task has lent its priority and queued up, with any interrupts between the two, the holder runs at no less than its priority |
| `Mutexes.GiveAccounts` | c_test/FreeRTOS/Source/queue.c:2083-2098 | Giving keeps the accounts: it frees the mutex and restores the base priority with the last one held |
| `MutexWakeups.GiveWakes` | c_test/FreeRTOS/Source/queue.c:833-858 | Every give wakes the first waiter, whatever its priority: it is ready at its priority and off every event list, or held back while the scheduler is suspended; all other waiters keep their places and their order, and with nobody waiting nobody but the giver is touched |
| `MutexWakeups.GiveNestedWakes` | c_test/FreeRTOS/Source/queue.c:589-637 | Of nested gives the last wakes in the same way, and no other wakes anybody |
| `MutexWakeups.FreeMutexHasHeir` | c_test/FreeRTOS/Source/queue.c:833-858 | In every run: whenever a mutex is free while tasks wait for it, its last give has woken the first of those who waited then, nobody has taken it since, and the task woken is off the list and has yet to try |
| `MutexRuns.GiveNestedAccounts` | c_test/FreeRTOS/Source/queue.c:589-637 | Of nested gives the last one frees the mutex and no other |
| `MutexRuns.TakeNestedAccounts` | c_test/FreeRTOS/Source/queue.c:644-679 | A nested take by the holder only counts; by anybody else it takes |
| `MutexQueues.MutexQueue.TakeIfFree` | c_test/FreeRTOS/Source/queue.c:1440-1500 | On mutable fields: taken if and only if the count is above 0, and then as specified |
| `MutexQueues.MutexQueue.InheritAndWait` | c_test/FreeRTOS/Source/queue.c:1544-1578 | On mutable fields: the priority is lent, then the running task waits |
| `MutexQueues.MutexQueue.GetDisinheritPriorityAfterTimeout` | c_test/FreeRTOS/Source/queue.c:2049-2069 | The priority that the head waiter's item stands for, or the idle priority |
| `MutexQueues.MutexQueue.DisinheritAndGiveUp` | c_test/FreeRTOS/Source/queue.c:1598-1621 | On mutable fields: the end of a wait that timed out |
| `MutexQueues.MutexQueue.SemaphoreGive` | c_test/FreeRTOS/Source/queue.c:833-858 | On mutable fields: giving, and waking the first waiter, in the way GiveWakes is about; yields if and only if that waiter outranks the giver, or nobody waits and the priority was restored |
| `MutexQueues.MutexQueue.TakeMutexRecursive` | c_test/FreeRTOS/Source/queue.c:644-679 | Taken if and only if the caller is the holder or the mutex is free |
| `MutexQueues.MutexQueue.GiveMutexRecursive` | c_test/FreeRTOS/Source/queue.c:589-637 | A caller that is not the holder fails and changes nothing; yields as a give does, with the last of the nested gives only |
| `QueueLocks.NoLostWakeup` | c_test/FreeRTOS/Source/queue.c:1367-1395 | In every run with at most 127 interrupt posts per lock, whenever the queue is unlocked and a task sleeps on it, every item (or free slot) has been announced to a woken task that has yet to try |
| `QueueLocks.UnlockAnnouncesPosts` | c_test/FreeRTOS/Source/queue.c:2171-2288 | For every number n of posts during a lock: by the end of the unlock the first min(n, waiting) waiters have been woken if and only if n <= 127, or nobody waits, or n exceeds the waiters by 255 or more |
| `QueueLocks.OnePostTooMany` | c_test/FreeRTOS/Source/queue.c:2171-2256 | The failing input: with one waiter, 127 posts during a lock wake it and 128 do not |
| `QueueLocks.LockWearsOut` | c_test/FreeRTOS/Source/queue.c:1080-1096 | From the 256th post on the count reads as unlocked and every post wakes a waiter while the list is locked |
| `QueueLocks.PostsAreCounted` | c_test/FreeRTOS/Source/queue.c:1080-1096 | Up to 255 posts during a lock leave the waiting list alone and are counted modulo the width of the lock |
| `QueueLocks.BlockingReceiver` | c_test/FreeRTOS/Source/queue.c:1370-1395 | Posts before and after a receiver joins the list, n <= 127 in all, wake min(n, waiting) receivers at the unlock, itself among those waiting |
| `QueueLocks.ListsUntouchedWhileLocked` | c_test/FreeRTOS/Source/queue.c:983-1096 | From locking to unlocking interrupts leave both waiting lists alone |
| `QueueLocks.StepKeepsInv` | c_test/FreeRTOS/Source/queue.c:240-252 | Every critical section and interrupt keeps the bookkeeping of owed wakeups on both sides |
| `QueueLocks.StepAnnounces` | c_test/FreeRTOS/Source/queue.c:1080-1096 | Every post, overwriting and peeking included, is announced to the receivers, and every receipt to the senders: the first waiter is woken, or while the queue is locked one more wakeup is owed; no other step between locking and unlocking changes who waits |
| `QueueLocks.LeavingUndoesJoining` | c_test/FreeRTOS/Source/queue.c:1370-1395 | A task that joins a list of waiters is at the place it joined at, everybody else in the order they were, and leaving undoes it |
| `QueueLocks.Side.AnnounceEffect` | c_test/FreeRTOS/Source/queue.c:2171-2256 | The unlock loop wakes the first min(owed, waiting) waiters in order and nobody else |
| `QueueLocks.QueueControl.LockQueue` | c_test/FreeRTOS/Source/queue.c:240-252 | Locks what is unlocked and leaves counts already running |
| `QueueLocks.QueueControl.UnlockTx` | c_test/FreeRTOS/Source/queue.c:2171-2256 | The loop on mutable fields wakes exactly those receivers, in order |
| `QueueLocks.QueueControl.UnlockRx` | c_test/FreeRTOS/Source/queue.c:2259-2287 | The same for senders |
| `QueueLocks.QueueControl.Send` | c_test/FreeRTOS/Source/queue.c:755-870 | A task's send adds an item and wakes the first receiver; over the item of a full queue it adds none and still wakes; otherwise on a full queue nothing changes |
| `QueueLocks.QueueControl.Receive` | c_test/FreeRTOS/Source/queue.c:1296-1345 | A task's receive takes an item and wakes the first sender; on an empty queue nothing changes |
| `QueueLocks.QueueControl.Peek` | c_test/FreeRTOS/Source/queue.c:1655-1690 | A task's peek leaves the item and wakes the next reader |
| `QueueLocks.QueueControl.SendFromISR` | c_test/FreeRTOS/Source/queue.c:950-1105 | An interrupt's send, overwriting or not, wakes a receiver if unlocked, otherwise counts |
| `QueueLocks.QueueControl.ReceiveFromISR` | c_test/FreeRTOS/Source/queue.c:1785-1869 | An interrupt's receive wakes a sender if unlocked, otherwise counts |
| `QueueStorage.Storage.CopyIn` | c_test/FreeRTOS/Source/queue.c:2074-2150 | At the back, at the front, or over the only item: the contents become what that means for a deque |
| `QueueStorage.Storage.CopyOut` | c_test/FreeRTOS/Source/queue.c:2153-2168 | Reads the front item |
| `QueueStorage.Storage.Send` | c_test/FreeRTOS/Source/queue.c:755-870 | Fails exactly on a full queue that is not overwritten, and then changes nothing |
| `QueueStorage.Storage.Receive` | c_test/FreeRTOS/Source/queue.c:1296-1345 | Returns the front item and leaves the rest in order; fails exactly on an empty queue |
| `QueueStorage.Storage.Peek` | c_test/FreeRTOS/Source/queue.c:1655-1700 | Returns the front item and restores the read position |
| `QueueStorage.Storage.constructor` | c_test/FreeRTOS/Source/queue.c:255-299 | A new queue is empty with write position 0 and read position in the last slot |
| `QueueStorage.Storage.Reset` | c_test/FreeRTOS/Source/queue.c:255-299 | Resetting a queue in use empties it, with the positions of a new one |
| `QueueStorage.InFront` | c_test/FreeRTOS/Source/queue.c:2109-2150 | An item written in the slot at the read position becomes the first |
| `QueueStorage.FirstInFirstOut` | c_test/FreeRTOS/Source/queue.c:2074-2168 | Over any sends to the back and any receives, the items received and the items left, one after the other, are those that were there and those sent, in that order |
| `QueueStorage.UrgentIsNext` | c_test/FreeRTOS/Source/queue.c:2109-2150 | An item sent to the front is the next received, and leaves everything else as it was |
| `QueueStorage.LatestIsLeft` | c_test/FreeRTOS/Source/queue.c:2109-2150 | Overwriting leaves just the item written last |
| `Rings.UsedPlusFree` | c_test/FreeRTOS/Source/stream_buffer.c:470-491 | Bytes available plus spaces available is always xLength - 1 |
| `StreamBuffers.StreamBuffer.constructor` | c_test/FreeRTOS/Source/stream_buffer.c:219-300 | The buffer starts empty, with the capacity asked for |
| `StreamBuffers.StreamBuffer.BytesAvailable` | c_test/FreeRTOS/Source/stream_buffer.c:1189-1206 | The wrapped head and tail give the number of bytes waiting |
| `StreamBuffers.StreamBuffer.SpacesAvailable` | c_test/FreeRTOS/Source/stream_buffer.c:470-491 | They give the capacity less the bytes waiting |
| `StreamBuffers.StreamBuffer.WriteBytes` | c_test/FreeRTOS/Source/stream_buffer.c:1088-1131 | One or two copies append the bytes, wherever the wrap falls |
| `StreamBuffers.StreamBuffer.ReadBytes` | c_test/FreeRTOS/Source/stream_buffer.c:1134-1186 | One or two copies take the first bytes, wherever the wrap falls |
| `StreamBuffers.StreamBuffer.WriteMessage` | c_test/FreeRTOS/Source/stream_buffer.c:661-710 | A message is accepted whole if it fits with its header, otherwise not at all; a stream takes what fits |
| `StreamBuffers.StreamBuffer.ReadMessage` | c_test/FreeRTOS/Source/stream_buffer.c:918-967 | The next message whole, or with too little room nothing, and the message stays |
| `StreamBuffers.StreamBuffer.Send` | c_test/FreeRTOS/Source/stream_buffer.c:506-604 | A send that does not wait appends to the FIFO of messages or bytes |
| `StreamBuffers.StreamBuffer.Receive` | c_test/FreeRTOS/Source/stream_buffer.c:713-814 | A receive that does not wait takes from the front of it |
| `StreamBuffers.StreamBuffer.NextMessageLength` | c_test/FreeRTOS/Source/stream_buffer.c:817-851 | The length of the next message, or 0; the buffer is as before |
| `Rings.FramesInjective` | c_test/FreeRTOS/Source/stream_buffer.c:684-702 | Messages can be read back from their frames in one way only |
| `Rings.MoreThanHeader` | c_test/FreeRTOS/Source/stream_buffer.c:792-794 | Frames followed by at most a header hold more than a header only if they start with a whole message |
| `Rings.StoredBehind` | c_test/FreeRTOS/Source/stream_buffer.c:1100-1131 | Bytes stored with a wrap extend the stretch they are stored behind |
| `MessageRace.NoMessageIsTorn` | c_test/FreeRTOS/Source/stream_buffer.c:661-710 | However writer and reader interleave byte by byte, the messages returned are the first of those accepted, whole and in order, and all others are still in the buffer or in the hands of one party |
| `MessageRace.UnreadBytesAreSafe` | c_test/FreeRTOS/Source/stream_buffer.c:1088-1131 | The writer never writes on a byte between tail and head |
| `MessageRace.HeaderAloneIsLeft` | c_test/FreeRTOS/Source/stream_buffer.c:792-794 | A header published before its message is not consumed |
| `MessageRace.NeverStuck` | c_test/FreeRTOS/Source/stream_buffer.c:684-702 | Neither party is ever stuck half way |
| `MessageDelivery.ReaderFinishes` | c_test/FreeRTOS/Source/stream_buffer.c:918-967 | A message the reader has seen is returned after exactly as many steps of the reader's as its header and its bytes call for, wherever the writer's steps fall |
| `MessageDelivery.WholeIsSeen` | c_test/FreeRTOS/Source/stream_buffer.c:792-794 | If a whole message is in the buffer when the reader looks, it sees it |
| `MessageDelivery.WriterFinishes` | c_test/FreeRTOS/Source/stream_buffer.c:684-702 | An accepted message is published after exactly as many steps of the writer's, wherever the reader's fall |
| `MessageDelivery.AcceptedIffItFits` | c_test/FreeRTOS/Source/stream_buffer.c:661-682 | A message is accepted if and only if it and its header fit into what was free when the writer looked, whatever the reader has done meanwhile |
| `MessageRace.StepKeepsInv` | c_test/FreeRTOS/Source/stream_buffer.c:918-967 | Each single step of either party keeps the bytes between tail and head a rest of a message, whole frames, and at most a header |
| `StreamWakeups.NobodySleepsInVain` | c_test/FreeRTOS/Source/stream_buffer.c:506-604 | In every run in which nobody lowers the trigger level under a waiting reader, wherever the critical sections of both parties and notifications from elsewhere fall: while the reader sleeps and no send is under way, there is no whole message or less than the trigger level; while the writer sleeps and no receive is under way, there is too little room |
| `StreamWakeups.WokenForAReason` | c_test/FreeRTOS/Source/stream_buffer.c:583-600 | In every such run a sleeping reader is woken when its time is up, by somebody else's notification, or by a writer that has put bytes in and found as many as the trigger level; a sleeping writer likewise by a reader that has taken bytes out |
| `StreamWakeups.NotifiedSinceRegistered` | c_test/FreeRTOS/Source/stream_buffer.c:750-771 | A reader that registers and then does not go to sleep has been notified since it registered |
| `StreamWakeups.RegistersIff` | c_test/FreeRTOS/Source/stream_buffer.c:541-557 | A party registers, forgetting notifications from before, exactly if there is no more than a header to read, or less room than it needs |
| `StreamWakeups.SleepsIff` | c_test/FreeRTOS/Source/stream_buffer.c:765-773 | A registered party sleeps exactly if it has not been notified since, and uses the notification up |
| `StreamWakeups.LooksUnregistered` | c_test/FreeRTOS/Source/stream_buffer.c:750-757 | In every such run whoever looks finds no task registered on its side: the assertions at lines 553 and 757 never fail |
| `StreamWakeups.StepKeepsInv` | c_test/FreeRTOS/Source/stream_buffer.c:440-464 | Each single step keeps that, and the setting of a trigger level does if and only if it is not set to what a waiting reader would no longer have to wait for |
| `StreamWakeups.BothAsleep` | c_test/FreeRTOS/Source/stream_buffer.c:713-814 | Both parties can be asleep only if what the writer wants to send does not fit beside what the reader is left waiting with |
| `StreamWakeups.BothCanSleep` | c_test/FreeRTOS/Source/stream_buffer.c:506-604 | Such a state: 5 bytes in a buffer of 10 with trigger level 8, and 6 to send |
| `StreamWakeups.LoweredTriggerForgets` | c_test/FreeRTOS/Source/stream_buffer.c:440-464 | The failing input: the trigger level is lowered to 4 with 5 bytes waiting, and the reader sleeps on |
| `Timers.PlacementIsExact` | c_test/FreeRTOS/Source/timers.c:693-731 | With true now less than a wrap after the command: process now if and only if the true expiry is reached, otherwise the list of the epoch in which it falls |
| `Timers.PlacementWhenLate` | c_test/FreeRTOS/Source/timers.c:693-731 | For any lateness the answer is right unless the command is a wrap or more late and the wrapped lateness falls short of the period |
| `Timers.ForgottenForAWrap` | c_test/FreeRTOS/Source/timers.c:693-731 | The failing input: a command handled 2^32 ticks late does not expire a timer of 10 ticks |
| `TimerRuns.NoPeriodIsLost` | c_test/FreeRTOS/Source/timers.c:507-536 | In every run, through expiry, queued restarts and list switches, an auto-reload timer started at C gets its callbacks for C + P, C + 2P, ... in order, none skipped, repeated or early |
| `TimerRuns.CallsMade` | c_test/FreeRTOS/Source/timers.c:507-536 | In every run that starts with sorted lists, when the daemon has looked at the time, holds no restart of the timer and the head of its list is still to expire, exactly (now - C) / P callbacks have been made |
| `TimerRuns.CaughtUp` | c_test/FreeRTOS/Source/timers.c:584-640 | No callback that was due is outstanding in such a state |
| `OneShotRuns.CalledOnceAtMost` | c_test/FreeRTOS/Source/timers.c:507-536 | In every run a one-shot timer started at C with period P and left alone is called at most once, for C + P, and not before, whether it expires on its list, in a switch of the lists or in its own start command |
| `OneShotRuns.CalledOnTime` | c_test/FreeRTOS/Source/timers.c:584-640 | Whenever the daemon has caught up past C + P it has been called exactly once, and is on no list and in no queue; before that it has not been called |
| `OneShotRuns.IdleThroughout` | c_test/FreeRTOS/Source/timers.c:734-878 | In every run a timer on no list and in no queue makes no call until it is commanded again |
| `OneShotRuns.StopMakesIdle` | c_test/FreeRTOS/Source/timers.c:826-830 | Stopping or deleting a timer, whatever it was doing, leaves it so, and inactive |
| `OneShotRuns.ChangeArms` | c_test/FreeRTOS/Source/timers.c:832-845 | A change of period makes a timer active with that period, set to expire once, that long after the change is handled, and calls nobody |
| `OneShotRuns.StartsOver` | c_test/FreeRTOS/Source/timers.c:795-824 | A start or reset of a running one-shot timer makes it due a period after the new start and no longer for the old one |
| `OneShotRuns.ProcessShot` | c_test/FreeRTOS/Source/timers.c:507-536 | Expiry of a one-shot timer makes its call and leaves it inactive |
| `OneShotRuns.SwitchHere` | c_test/FreeRTOS/Source/timers.c:882-933 | A one-shot timer left on the list that is switched away is called, once, for the epoch that ends |
| `TimerRuns.SortedThroughout` | c_test/FreeRTOS/Source/timers.c:734-878 | Both timer lists stay in expiry order in every run |
| `TimerRuns.StepKeepsInv` | c_test/FreeRTOS/Source/timers.c:734-878 | Every step of the daemon, for whatever other timers too, keeps the timer in exactly one place, set for its next period |
| `Timers.ExpireKeepsSorted` | c_test/FreeRTOS/Source/timers.c:507-536 | Both timer lists stay in expiry order through expiry |
| `Timers.HandleKeepsSorted` | c_test/FreeRTOS/Source/timers.c:734-878 | And through every command |
| `Timers.RoundIsExact` | c_test/FreeRTOS/Source/timers.c:584-640 | A look at the timers, the count not having wrapped, makes exactly one callback if any timer on the list has expired, that of the first to expire and for the tick it expired at; if none has it changes nothing |
| `TimerDaemons.TimerDaemon.SwitchTimerLists` | c_test/FreeRTOS/Source/timers.c:882-933 | The catch-up loop ends, however often timers reload within the epoch, and computes the specification |
| `TimerDaemons.TimerDaemon.ExpireHead` | c_test/FreeRTOS/Source/timers.c:891-925 | One round: callback, reload within the epoch or queued restart |
| `TimerDaemons.TimerDaemon.SampleTimeNow` | c_test/FreeRTOS/Source/timers.c:670-690 | The lists are switched exactly if the count went back |
| `TimerDaemons.TimerDaemon.InsertTimerInActiveList` | c_test/FreeRTOS/Source/timers.c:693-731 | The placement decision, and the sorted insertion it calls for |
| `TimerDaemons.TimerDaemon.ProcessExpiredTimer` | c_test/FreeRTOS/Source/timers.c:507-536 | Expiry on mutable fields is the one that ProcessShot, for one-shot timers, and NoPeriodIsLost are about |
| `TimerDaemons.TimerDaemon.ProcessReceivedCommand` | c_test/FreeRTOS/Source/timers.c:734-878 | Each command on mutable fields computes the specification |
| `EventGroups.NobodyWaitsInVain` | c_test/FreeRTOS/Source/event_groups.c:519-610 | In every reachable state no waiting task's condition is met by the bits of the group |
| `EventGroups.SetBitsEffect` | c_test/FreeRTOS/Source/event_groups.c:519-610 | xEventGroupSetBits releases exactly the waiters that the bits, old and newly set together, satisfy, each with that value, and leaves the others |
| `EventGroups.SetBitsClears` | c_test/FreeRTOS/Source/event_groups.c:543-604 | Afterwards all bits of released clear-on-exit waiters are cleared, and all bits none of them waited for stay |
| `EventGroups.ReleasedInOrder` | c_test/FreeRTOS/Source/event_groups.c:543-604 | Tasks are released, and those left behind stay, in list order |
| `EventGroups.AwaitEffect` | c_test/FreeRTOS/Source/event_groups.c:311-404 | xEventGroupWaitBits with its condition met returns the bits that met it, as they were before any are cleared, and then clears those waited for if it is to and no others; otherwise it returns the same bits unchanged if it may not block, or joins the waiters behind all others for just these bits in just this way |
| `EventGroups.MeetEffect` | c_test/FreeRTOS/Source/event_groups.c:191-262 | xEventGroupSync completed by the bits, those held and those just set together, returns them all and clears exactly those waited for; otherwise it has set its bits, and returns what is left or joins the waiters |
| `EventGroups.ClearEffect` | c_test/FreeRTOS/Source/event_groups.c:461-481 | Of the bits named nothing is left, and all others are as they were |
| `EventGroups.ConditionMeans` | c_test/FreeRTOS/Source/event_groups.c:671-703 | A wait for all is satisfied if and only if every bit waited for is set, a wait for any if and only if one of them is |
| `EventGroups.WaitValueDecodes` | c_test/FreeRTOS/Source/event_groups.c:352-397 | The value stored for a wait says exactly what is waited for and how |
| `EventGroups.ReleasedTaskReturns` | c_test/FreeRTOS/Source/event_groups.c:405-458 | A released task sees that bits were set, and returns them without the control bits |
| `EventGroups.WaitEnds` | c_test/FreeRTOS/Source/event_groups.c:405-458 | A task that was released returns the bits it was released with and leaves the group alone; one that timed out returns the bits as they are, and clears its own if it would on exit and they meet its condition by now |
| `EventGroups.TimeOutIsFinish` | c_test/FreeRTOS/Source/event_groups.c:405-458 | The step by which a wait of a run times out is the end of a wait that was not released |
| `EventGroups.LeaveTakesOne` | c_test/FreeRTOS/Source/event_groups.c:405-458 | A task that gives up waiting leaves the others in their order, and the bits as they are |
| `EventGroups.ClearingSatisfiesNobody` | c_test/FreeRTOS/Source/event_groups.c:461-481 | Clearing bits meets no condition |
| `EventGroups.EventGroup.SetBits` | c_test/FreeRTOS/Source/event_groups.c:519-610 | The loop over the waiters computes the specification, clearing only after all are released |
| `EventGroups.EventGroup.ClearBits` | c_test/FreeRTOS/Source/event_groups.c:461-481 | Clears, and returns the bits as they were |
| `EventGroups.EventGroup.WaitBits` | c_test/FreeRTOS/Source/event_groups.c:311-458 | Up to blocking, on mutable fields, computes the specification that AwaitEffect is about |
| `EventGroups.EventGroup.Sync` | c_test/FreeRTOS/Source/event_groups.c:191-308 | Likewise for a rendezvous, which MeetEffect is about |
| `EventGroups.EventGroup.EndWait` | c_test/FreeRTOS/Source/event_groups.c:405-458 | The part after blocking of either call, on mutable fields, is the one WaitEnds is about |
| `KernelLists.KernelList.constructor` | c_test/FreeRTOS/Source/list.c:37-59 | A new list is empty, with the cursor on its end marker |
| `KernelLists.KernelList.InsertEnd` | c_test/FreeRTOS/Source/list.c:74-100 | The pointers after vListInsertEnd are a well-linked list of the specified value |
| `KernelLists.KernelList.Insert` | c_test/FreeRTOS/Source/list.c:103-167 | vListInsert ends, also for portMAX_DELAY, and does the specified sorted insertion |
| `KernelLists.KernelList.Remove` | c_test/FreeRTOS/Source/list.c:170-196 | uxListRemove works from the item alone, moves the cursor back if it was on the item, and returns the items left |
| `KernelLists.KernelList.OwnerOfNextEntry` | c_test/FreeRTOS/Source/include/list.h:277-288 | The cursor skips the end marker |
| `KernelLists.InsertionLinks` | c_test/FreeRTOS/Source/list.c:152-160 | Four pointer writes in the right place keep next and previous inverse all the way round |
| `ListValues.InsertSorted` | c_test/FreeRTOS/Source/list.c:121-150 | Insertion keeps a sorted list sorted and puts the item behind its equals |
| `ListValues.RemoveFuture` | c_test/FreeRTOS/Source/list.c:170-196 | Removing an item preserves the order in which the cursor will reach the others |
| `ListValues.InsertEndFuture` | c_test/FreeRTOS/Source/list.c:74-100 | An item put at the end is reached after every other except the one under the cursor |
| `ListValues.NextReadsFuture` | c_test/FreeRTOS/Source/include/list.h:277-288 | A read returns the head of the cursor's order and rotates it |
| `ListValues.RoundRobin` | c_test/FreeRTOS/Source/include/list.h:277-288 | n reads of n items return each owner exactly once, wherever the cursor is |
| `MergeSorts.SortsStably` | c_test/coremark/core_list_join.c:443-522 | For every list and every total preorder the sort returns each node once, in order, equal ones as they came |
| `MergeSorts.EveryNodeIsCompared` | c_test/coremark/core_list_join.c:443-522 | Sorting two or more nodes hands every one of them to the comparator |
| `MergeSorts.PassRuns` | c_test/coremark/core_list_join.c:450-518 | A pass over sorted runs of one size leaves sorted runs of twice the size |
| `ListSorts.ByIdxFits` | c_test/coremark/core_list_join.c:118-124 | cmp_idx is a total preorder that its own side effect does not disturb |
| `ListSorts.ByIdxAscends` | c_test/coremark/core_list_join.c:118-124 | A list sorted by it is ascending in idx |
| `ListSorts.RestoredIs` | c_test/coremark/core_list_join.c:118-122 | Its side effect copies the high byte of the data to the low byte and leaves the high byte and idx alone |
| `ListSorts.Sorter.MergeSort` | c_test/coremark/core_list_join.c:443-522 | In place: the same nodes, relinked sorted and stable, with cmp_idx ascending in idx; with two or more, sorting by index with no results restores every low byte from its high byte |
| `ListSorts.Sorter.MergePass` | c_test/coremark/core_list_join.c:450-518 | In place: one pass, with a merge count that says when to stop |
| `ListSorts.Sorter.MergeTwo` | c_test/coremark/core_list_join.c:470-508 | In place: two runs merged behind the tail, left first on ties |
| `ListEdits.Remove` | c_test/coremark/core_list_join.c:332-343 | The data sequence loses the item, though the successor's node leaves the list |
| `ListEdits.UndoRemove` | c_test/coremark/core_list_join.c:361-372 | The node and the data go back where they were |
| `ListEdits.RemoveAndUndo` | c_test/coremark/core_list_join.c:178-190 | Removing and undoing restores every link and every cell |
| `ListEdits.Reverse` | c_test/coremark/core_list_join.c:411-420 | In place: the same nodes in reverse order, ending in null |
| `Xprintf.PrintedLinesReadBack` | c_test/FreeRTOS/lib/xprintf.c:654-723 | Any list of 32-bit numbers printed in one call, in decimal with any width and justification, in the format or from an argument, or in hex, binary or octal behind their prefixes with zeros up to any width, is recovered by repeated xatoi |
| `Xprintf.ZeroPaddedDecimals` | c_test/FreeRTOS/lib/xprintf.c:659-699 | A decimal padded with zeros is read back as itself if and only if it is one of 0 to 7: the zeros make it octal |
| `Xprintf.LineReadBack` | c_test/FreeRTOS/lib/xprintf.c:654-723 | The same for the printed line by itself |
| `XprintfFormats.PiecesPrinted` | c_test/FreeRTOS/lib/xprintf.c:327-498 | Any format made of plain characters and directives, each with any flag, width and precision, in the format or as an argument, any size and type, a character and an unknown type included, puts out for each in turn what it stands for, with just the arguments it takes |
| `XprintfFormats.PaddedIs` | c_test/FreeRTOS/lib/xprintf.c:414-427 | A field is as wide as asked for or as its body needs, with the body at the left end and spaces after it or at the right end and the pad before it |
| `XprintfFormats.ShortenedIs` | c_test/FreeRTOS/lib/xprintf.c:414-427 | A precision keeps that many leading characters of a string, or all if it has fewer or the precision is negative |
| `XprintfFormats.DigitCharIs` | c_test/FreeRTOS/lib/xprintf.c:479-487 | Digits beyond 9 are a to f or A to F as the type says |
| `XprintfParses.XatoiReads` | c_test/FreeRTOS/lib/xprintf.c:654-723 | For every string: xatoi succeeds if and only if the word behind the leading spaces is a number, an optional minus and decimal, hexadecimal, binary or octal digits; then it stores what they mean modulo 2^32 and stops at the end of the word, and otherwise it stores 0 |
| `XprintfParses.DigitsParsed` | c_test/FreeRTOS/lib/xprintf.c:699-717 | The digit loop takes the whole word if it is digits of the radix, and otherwise stops at the first character that is none |
| `Xprintf.NumeralFits` | c_test/FreeRTOS/lib/xprintf.c:479-490 | The 32-byte buffer never drops a digit, nor the sign |
| `Xprintf.DigitsReadBack` | c_test/FreeRTOS/lib/xprintf.c:701-717 | Parsing the digits of a number in its radix gives the number |
| `Xprintf.PunctuationCountsAsHex` | c_test/FreeRTOS/lib/xprintf.c:702-714 | In hexadecimal the parser takes exactly 0-9, A-F, a-f and the characters from : to ?, which the test at lines 710-711 was to refuse |
| `Xprintf.ColonReadsAsTen` | c_test/FreeRTOS/lib/xprintf.c:702-714 | For example 0x: is read as 10 |
| `XprintfLoops.Printer.MakeDigits` | c_test/FreeRTOS/lib/xprintf.c:479-487 | The digit loop fills the buffer with the digits in reverse |
| `XprintfLoops.Printer.PutNumber` | c_test/FreeRTOS/lib/xprintf.c:446-496 | Sign, digits and padding come out as the field specified |
| `XprintfLoops.Printer.PutText` | c_test/FreeRTOS/lib/xprintf.c:414-427 | A string comes out cut to the precision and padded to the width |
| `XprintfLoops.Printer.Printf` | c_test/FreeRTOS/lib/xprintf.c:300-498 | The printer's loop over the format puts out the specified text |
| `XprintfLoops.Printer.ReadDirective` | c_test/FreeRTOS/lib/xprintf.c:327-400 | Flags, width, precision and size are parsed as specified, arguments consumed on the way |
| `XprintfLoops.Reader.ReadLong` | c_test/FreeRTOS/lib/xprintf.c:654-723 | The parser's loops return the specified result and leave the pointer where specified, also on failure |
| `Mtimers.DeadlinesStayOnGrid` | c_test/mtimer/mtimer.c:83-100 | Over all interrupts the compare value is startup + k * interval with k strictly increasing, and always later than the time it was set |
| `Mtimers.RescheduleIsLeast` | c_test/mtimer/mtimer.c:92-99 | Each reschedule picks the least such value above both now and the old deadline |
| `Mtimers.WriteMayInterrupt` | c_test/mtimer/mtimer.c:32-39 | Between the two last writes of a future deadline the timer interrupt is pending if and only if the high word is that of now and the old low word is not above the low word of now |
| `Mtimers.RescheduleInterrupts` | c_test/mtimer/mtimer.c:83-100 | So with the deadline a handler replaces, however long after reading the time it writes the new one: while that is ahead, the false interrupt is pending if and only if its high word has been reached and either the old deadline shares it or its low word has been reached again |
| `Mtimers.PendingBetweenWrites` | c_test/mtimer/mtimer.c:32-39 | For example with the deadline 100 passed, 105 read, the next deadline 200 and the time 110 between the writes |
| `Mtimers.Driver.ReadTime` | c_test/mtimer/mtimer.c:22-30 | The value is the full 64-bit counter at the access that read the low word, and the loop ends |
| `Mtimers.Driver.WriteCompare` | c_test/mtimer/mtimer.c:32-39 | In the end the compare register holds the value |
| `Mtimers.Driver.WriteCompareHi` | c_test/mtimer/mtimer.c:32-39 | Of the three writes the second one does not yet change the low word, and leaves exactly that interrupt |
| `Mtimers.Driver.ReadCompare` | c_test/mtimer/mtimer.c:83-90 | The loop reads the whole register and ends |
| `Mtimers.Driver.Configure` | c_test/mtimer/mtimer.c:68-81 | The first deadline is one interval after startup |
| `Mtimers.Driver.ScheduleNext` | c_test/mtimer/mtimer.c:83-100 | The deadline moves to a later one of the grid, past now |
| `Mtimers.Driver.Handle` | c_test/mtimer/mtimer.c:102-112 | Each interrupt counts a tick modulo 2^32 and leaves a future deadline of the grid |

## Left out

- Task selection: the generic search of tasks.c:115-156 is modelled; the port-optimised bitmap that FreeRTOSConfig.h selects consists of macros that are not part of this model.
- Integer widths: xNumOfOverflows, uxSchedulerSuspended, uxMutexesHeld and uxRecursiveCallCount are unbounded; ticks, pended ticks and lock counts have their widths.
- Critical sections are atomic, and xTaskAbortDelay is one step between suspending and resuming the scheduler; vTaskSuspend is two, since it recomputes the unblock time in a second one.
- SchedulerStart.StartIsGood: tasks are created, but not deleted, suspended or reprioritised, before the scheduler starts; configINITIAL_TICK_COUNT is 0. The set of event lists is fixed from the start.
- MutexPreemption.PreemptionIsAsked: says that a switch has been asked for, not when the processor takes it; a yield that the scheduler holds back while suspended counts as asked for.
- Blocking with a block time of 0, as only a restricted wait of the timer daemon can ask for, is not a step of a run.
- xTaskCatchUpTicks, tickless idle, task notifications, hooks and trace macros of tasks.c.
- SchedulerTimeouts.TimeoutBudget: assumes finite waits, no aborted delay, and fewer than two overflows between checks; TimeOutDecision says exactly what happens otherwise.
- Mutexes.GiveUpAccounts: speaks of the first waiter, which is what the code looks at. GiveUpFollowsWaiter says when its item stands for its priority.
- EventOrder.OrderedThroughout: a list need not stay in order once tasks.c:1648 or tasks.c:4034 has rewritten the item of a task that is on it.
- MutexPriorities.HolderKeepsUpWithWaiter: is about the moment after queueing up; later priority changes of either task are as their own steps say.
- MutexRuns.MutexesAccounted: runs that delete a holder or reset a mutex are excluded, as are tasks waiting to give a mutex. A run may end a wait for a mutex with any running task, whether it has lent its priority or not.
- MutexQueues.MutexQueue: the retry loop of xQueueSemaphoreTake around these pieces is modelled by the steps of a run, not as one method.
- QueueLocks.NoLostWakeup: a woken task is assumed to try again sooner or later rather than be deleted or suspended on the way; waiters join at an arbitrary place in the list rather than by priority. A run ends where a lock count would wrap.
- Queue sets.
- QueueStorage.Storage: an item is a slot of any type rather than uxItemSize bytes, and pointers are indices.
- StreamBuffers.StreamBuffer.Send: does not wait or notify; waiting, trigger level and notification are the steps of StreamWakeups.
- StreamBuffers.StreamBuffer.Receive: likewise.
- StreamBuffers: reset, and the 32-bit size of a message length (a message is below 2^32 bytes).
- StreamWakeups.NobodySleepsInVain: counts bytes only, one reader and one writer; that a party told to wake goes on to take its turn is left to the scheduler.
- MessageRace.NoMessageIsTorn: one writer, one reader, non-empty messages, receive buffers that fit the next message, and memory accesses in program order; undersized receives and length queries, which move the tail and restore it, are modelled as atomic in StreamBuffers.
- TimerRuns.NoPeriodIsLost: assumes that commands to the daemon are never dropped for want of room, that the daemon gets to run at least once per wrap, that a restart the daemon has queued for the timer is handled within a wrap, and that nobody else commands the timer.
- TimerDaemons.TimerDaemon.ProcessReceivedCommand: pended function calls, which share the queue, are not modelled.
- Timers: callbacks that themselves send commands appear as separate sends; deletion does not free memory; the daemon's blocking on its queue is not modelled. A one-shot timer that expired is inactive if it expired on its list (OneShotRuns.ProcessShot); prvSwitchTimerLists and a start that finds the timer expired leave the active flag.
- OneShotRuns.CalledOnTime: makes the same assumptions as TimerRuns.NoPeriodIsLost.
- EventGroups.EventGroup.WaitBits: up to blocking; the rest of the call is EndWait, and being blocked in between is a step of the scheduler's runs.
- EventGroups.EventGroup.Sync: likewise.
- EventGroups: deletion of a group, and the interrupt variants that defer to the timer daemon.
- ListSorts.Sorter.MergeSort: the list is not empty (the C code would dereference a null tail); the run size is unbounded, and shown never to exceed the number of nodes in a pass; cells are held by value in the nodes, so swapping info pointers is swapping cells; cmp_complex, whose result depends on the order of calls, is not modelled, nor is a difference of indices beyond 32 bits.
- core_list_find, core_list_insert_new and the CRC and state-machine parts of CoreMark.
- Xprintf.PrintedLinesReadBack: literal widths are below 2^32, and widths from an argument are 32-bit and greater than -2^31; zero-padded decimals are not part of the round trip, for the reason in ZeroPaddedDecimals.
- XprintfFormats.PiecesPrinted: a width or precision in the format has no leading zeros, and 0 is spelled as nothing at all; a directive cut off by the end of the format, which puts out nothing, is not among the pieces.
- Xprintf: floating point and long long, which are switched off; a precision in the format above 2^31 - 1; negating the least long is taken to wrap.
- Mtimers.Driver.ScheduleNext: nobody else writes the compare register; the interval is not 0, for which the C loop would not end; the counter does not wrap at 64 bits. Enabling interrupts, delays and the user's callback are not modelled.
- Context switching, traps, stack initialisation, port macros, memory-mapped input and output, heap_1.c, croutine.c and the remaining CoreMark kernels.
