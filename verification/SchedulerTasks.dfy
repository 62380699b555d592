/** Operations that move one task between the lists, change its priority, or choose who runs. */
module SchedulerTasks {
  import opened Ticks
  import opened ListValues
  import opened Rosters
  import opened Scheduler
  import opened SchedulerTime

  // ----- the two elementary moves -----

  /** The event list item is taken off its list, if it is on one. */
  function DropEvent(s: Sched, x: Task): (r: Sched)
    requires s.Shape() && x in s.tcbs
    ensures r.Shape()
    ensures r == s.(event := r.event) && r.event.place == s.event.place - {x}
  {
    s.(event := s.event.TakeIfPlaced(x))
  }

  /** The state list item is put at the end of list l; the control block may change on the way. */
  function MoveTask(s: Sched, x: Task, l: StateList, tcb: Tcb): (r: Sched)
    requires s.Shape() && x in s.tcbs && l in s.state.lists
    requires tcb.priority < MAX_PRIORITIES && tcb.basePriority < MAX_PRIORITIES
    ensures r.Shape()
    ensures r.state.place == s.state.place[x := l] && r.tcbs == s.tcbs[x := tcb]
    ensures r == s.(state := r.state, tcbs := r.tcbs, topReady := r.topReady)
  {
    hide Roster.Consistent, Roster.Move;
    s.(state := s.state.Move(x, l), tcbs := s.tcbs[x := tcb],
       topReady := if l.Ready? then Max(s.topReady, l.priority) else s.topReady)
  }

  /** The control block changes in place. */
  function SetTcb(s: Sched, x: Task, tcb: Tcb): (r: Sched)
    requires s.Shape() && x in s.tcbs
    requires tcb.priority < MAX_PRIORITIES && tcb.basePriority < MAX_PRIORITIES
    ensures r.Shape()
  {
    s.(tcbs := s.tcbs[x := tcb])
  }

  lemma DropEventKeepsCore(s: Sched, x: Task)
    requires s.Core() && x in s.tcbs
    ensures DropEvent(s, x).Core()
  {
    hide Roster.Consistent, Roster.TakeIfPlaced, InWakeOrder;
  }

  /** Changing a control block in place keeps a delayed list in order if the wake time stays. */
  lemma RewrittenInOrder(tcbs: map<Task, Tcb>, items: seq<Task>, x: Task, tcb: Tcb)
    requires InWakeOrder(tcbs, items) && x in tcbs && tcb.wake == tcbs[x].wake
    ensures InWakeOrder(tcbs[x := tcb], items)
  {
    assert Wakes(tcbs[x := tcb], items) == Wakes(tcbs, items);
  }

  lemma SetTcbKeepsCore(s: Sched, x: Task, tcb: Tcb)
    requires s.Core() && x in s.tcbs && tcb.wake == s.tcbs[x].wake
    requires tcb.priority < MAX_PRIORITIES && tcb.basePriority < MAX_PRIORITIES
    requires s.state.place[x].Ready? ==> tcb.priority == s.tcbs[x].priority
    ensures SetTcb(s, x, tcb).Core()
  {
    hide Roster.Consistent, InWakeOrder;
    RewrittenInOrder(s.tcbs, s.state.lists[Delayed1].items, x, tcb);
    RewrittenInOrder(s.tcbs, s.state.lists[Delayed2].items, x, tcb);
    SameSize(s.tcbs, x, tcb);
  }

  lemma MovedLists(s: Sched, x: Task, l: StateList, tcb: Tcb, m: StateList)
    requires s.Shape() && x in s.tcbs && l in s.state.lists && m in s.state.lists && m != l
    requires tcb.priority < MAX_PRIORITIES && tcb.basePriority < MAX_PRIORITIES
    ensures m in MoveTask(s, x, l, tcb).state.lists
    ensures MoveTask(s, x, l, tcb).state.lists[m].items ==
            if m == s.state.place[x] then Without(s.state.lists[m].items, x) else s.state.lists[m].items
  {
    hide Roster.Consistent, Roster.Move, Without;
  }

  lemma MovedInOrder(s: Sched, x: Task, l: StateList, tcb: Tcb, m: StateList)
    requires s.Shape() && x in s.tcbs && l in s.state.lists && m in {Delayed1, Delayed2} && m != l
    requires tcb.priority < MAX_PRIORITIES && tcb.basePriority < MAX_PRIORITIES && tcb.wake == s.tcbs[x].wake
    requires InWakeOrder(s.tcbs, s.state.lists[m].items)
    ensures m in MoveTask(s, x, l, tcb).state.lists
    ensures InWakeOrder(s.tcbs[x := tcb], MoveTask(s, x, l, tcb).state.lists[m].items)
  {
    hide Roster.Consistent, MoveTask, InWakeOrder, Without;
    MovedLists(s, x, l, tcb, m);
    RewrittenInOrder(s.tcbs, s.state.lists[m].items, x, tcb);
    WithoutInOrder(s.tcbs[x := tcb], s.state.lists[m].items, x);
  }

  /** A move that puts the task where its new priority says keeps everything but the count of tasks
      waiting for termination. */
  lemma MoveKeepsCore(s: Sched, x: Task, l: StateList, tcb: Tcb)
    requires s.Core() && x in s.tcbs && l in s.state.lists && l !in {Delayed1, Delayed2, WaitingTermination}
    requires tcb.priority < MAX_PRIORITIES && tcb.basePriority < MAX_PRIORITIES && tcb.wake == s.tcbs[x].wake
    requires s.state.place[x] != WaitingTermination
    requires if l.Ready? then l.priority == tcb.priority && x !in s.event.place else x != IDLE
    ensures MoveTask(s, x, l, tcb).Core()
  {
    hide Sched.Shape, MoveTask, Sched.ReadyListsMatch, Sched.DelaysSorted;
    s.ListsKnown();
    MoveMatches(s, x, l, tcb);
    MoveDelays(s, x, l, tcb);
    MovedLists(s, x, l, tcb, WaitingTermination);
    SameSize(s.tcbs, x, tcb);
  }

  lemma MoveMatches(s: Sched, x: Task, l: StateList, tcb: Tcb)
    requires s.Shape() && s.ReadyListsMatch() && x in s.tcbs && l in s.state.lists
    requires tcb.priority < MAX_PRIORITIES && tcb.basePriority < MAX_PRIORITIES
    requires l.Ready? ==> l.priority == tcb.priority
    ensures MoveTask(s, x, l, tcb).ReadyListsMatch()
  {
    hide Sched.Shape, Roster.Move;
    s.ListsKnown();
  }

  lemma MoveDelays(s: Sched, x: Task, l: StateList, tcb: Tcb)
    requires s.Shape() && s.DelaysSorted() && x in s.tcbs && l in s.state.lists && l !in {Delayed1, Delayed2}
    requires tcb.priority < MAX_PRIORITIES && tcb.basePriority < MAX_PRIORITIES && tcb.wake == s.tcbs[x].wake
    ensures MoveTask(s, x, l, tcb).DelaysSorted()
  {
    hide Sched.Shape, MoveTask, InWakeOrder;
    s.ListsKnown();
    MovedInOrder(s, x, l, tcb, Delayed1);
    MovedInOrder(s, x, l, tcb, Delayed2);
  }

  /** Task y is where it was, unchanged and waiting for the same event. */
  ghost predicate Untouched(s: Sched, r: Sched, y: Task) {
    && y in s.tcbs && y in s.state.place && y in r.tcbs && y in r.state.place
    && Where(r, y) == Where(s, y) && r.tcbs[y] == s.tcbs[y]
    && (y in r.event.place <==> y in s.event.place)
    && (y in s.event.place && y in r.event.place ==> r.event.place[y] == s.event.place[y])
  }

  /** The clock stands still and every task but x is untouched. */
  ghost predicate OnlyMoves(s: Sched, r: Sched, x: Task) {
    && r.Now() == s.Now() && r.tick == s.tick
    && forall y :: y in s.tcbs && y != x ==> Untouched(s, r, y)
  }

  /** The two states agree on every task but x, as far as maps go. */
  ghost predicate SameBut(s: Sched, r: Sched, x: Task) {
    && s.state.place.Keys == s.tcbs.Keys && r.state.place.Keys == r.tcbs.Keys
    && s.event.place.Keys <= s.tcbs.Keys && r.event.place.Keys <= r.tcbs.Keys
    && r.tick == s.tick && r.overflows == s.overflows && r.firstIsCurrent == s.firstIsCurrent
    && r.nextUnblock == s.nextUnblock && r.suspended == s.suspended && r.pended == s.pended
    && forall y :: y != x ==>
         && (y in r.tcbs <==> y in s.tcbs) && (y in r.event.place <==> y in s.event.place)
         && (y in r.tcbs && y in s.tcbs ==> r.tcbs[y] == s.tcbs[y] && r.state.place[y] == s.state.place[y])
         && (y in r.event.place && y in s.event.place ==> r.event.place[y] == s.event.place[y])
  }

  /** Task x is newly neither delayed nor pending, except that it may become pending during suspension. */
  lemma SameButOneMoved(s: Sched, r: Sched, x: Task)
    requires SameBut(s, r, x) && s.Timely() && s.Settled()
    requires x in r.tcbs ==>
               || r.state.place[x] !in {Delayed1, Delayed2}
               || (x in s.tcbs && r.state.place[x] == s.state.place[x] && r.tcbs[x].wake == s.tcbs[x].wake)
    requires x in r.event.place && r.event.place[x] == PendingReady && s.suspended == 0 ==>
               x in s.event.place && s.event.place[x] == PendingReady
    ensures r.Timely() && r.Settled() && OnlyMoves(s, r, x)
  {
  }

  // ----- the operations of the API -----

  /** vTaskSuspend, up to the recomputation of the next unblock time. */
  function Suspend(s: Sched, x: Task): (r: Sched)
    requires s.Shape() && x in s.tcbs
    ensures r.Shape()
  {
    MoveTask(DropEvent(s, x), x, SuspendedTasks, s.tcbs[x])
  }

  /** prvTaskIsTaskSuspended */
  predicate IsSuspended(s: Sched, x: Task) {
    x in s.state.place && s.state.place[x] == SuspendedTasks && x !in s.event.place
  }

  /** vTaskResume */
  function Resume(s: Sched, x: Task): (r: Sched)
    requires s.Shape() && x in s.tcbs
    ensures r.Shape()
  {
    if x != s.current && IsSuspended(s, x) then MoveTask(s, x, Ready(s.tcbs[x].priority), s.tcbs[x]) else s
  }

  /** xTaskResumeFromISR */
  function ResumeFromISR(s: Sched, x: Task): (r: Sched)
    requires s.Shape() && x in s.tcbs
    ensures r.Shape()
  {
    if !IsSuspended(s, x) then s
    else if s.suspended == 0 then MoveTask(s, x, Ready(s.tcbs[x].priority), s.tcbs[x])
    else s.(event := s.event.PutEnd(PendingReady, x))
  }

  /** eTaskGetState returns eBlocked. */
  predicate IsWaiting(s: Sched, x: Task) {
    && x in s.state.place && x != s.current
    && (s.state.place[x] in {Delayed1, Delayed2} || (s.state.place[x] == SuspendedTasks && x in s.event.place))
  }

  /** The body of xTaskAbortDelay, between vTaskSuspendAll and xTaskResumeAll. */
  function AbortDelay(s: Sched, x: Task): (r: Sched)
    requires s.Shape() && x in s.tcbs
    ensures r.Shape()
  {
    if !IsWaiting(s, x) then s
    else
      var tcb := s.tcbs[x].(delayAborted := s.tcbs[x].delayAborted || x in s.event.place);
      MoveTask(DropEvent(s, x), x, Ready(tcb.priority), tcb)
      .(yieldPending := s.yieldPending || tcb.priority > s.tcbs[s.current].priority)
  }

  /** The event list item is moved to the pending ready list. */
  function HoldBack(s: Sched, x: Task): (r: Sched)
    requires s.Shape() && x in s.event.place
    ensures r.Shape()
    ensures r == s.(event := r.event) && r.event.place == s.event.place[x := PendingReady]
  {
    hide Roster.Move;
    s.(event := s.event.Move(x, PendingReady))
  }

  /** xTaskRemoveFromEventList */
  function RemoveFromEventList(s: Sched, e: EventList): (r: Sched)
    requires s.Shape() && e in s.event.lists && s.event.lists[e].items != []
    ensures r.Shape()
  {
    var x := s.event.lists[e].items[0];
    EventHead(s, e);
    (if s.suspended == 0 then s.Unblock(x) else HoldBack(s, x))
    .(yieldPending := s.yieldPending || s.tcbs[x].priority > s.tcbs[s.current].priority)
  }

  lemma EventHead(s: Sched, e: EventList)
    requires s.Shape() && e in s.event.lists && s.event.lists[e].items != []
    ensures var x := s.event.lists[e].items[0]; x in s.tcbs && x in s.event.place && s.event.place[x] == e
  {
    assert s.event.lists[e].items[0] in s.event.lists[e].items;
  }

  function OrInUse(v: Tick): Tick { if v < VALUE_IN_USE then v + VALUE_IN_USE else v }

  /** vTaskRemoveFromUnorderedEventList */
  function RemoveFromUnordered(s: Sched, x: Task, v: Tick): (r: Sched)
    requires s.Shape() && x in s.event.place
    ensures r.Shape()
  {
    hide Roster.Consistent, DropEvent, MoveTask;
    MoveTask(DropEvent(s, x), x, Ready(s.tcbs[x].priority), s.tcbs[x].(eventValue := OrInUse(v)))
    .(yieldPending := s.yieldPending || s.tcbs[x].priority > s.tcbs[s.current].priority)
  }

  /** A new control block; if the task is on the ready list of its old priority it goes to the end of
      the list of its new one. */
  function Requeue(s: Sched, x: Task, tcb: Tcb): (r: Sched)
    requires s.Shape() && x in s.tcbs && tcb.priority < MAX_PRIORITIES && tcb.basePriority < MAX_PRIORITIES
    ensures r.Shape()
  {
    if s.state.place[x] == Ready(s.tcbs[x].priority)
    then MoveTask(s, x, Ready(tcb.priority), tcb)
    else SetTcb(s, x, tcb)
  }

  /** The event item's value, if it is not in use for something else, follows the priority. */
  function EventValueFor(tcb: Tcb, priority: nat): Tick
    requires priority < MAX_PRIORITIES
  {
    if tcb.eventValue < VALUE_IN_USE then MAX_PRIORITIES - priority else tcb.eventValue
  }

  /** vTaskPrioritySet */
  function PrioritySet(s: Sched, x: Task, newPriority: nat): (r: Sched)
    requires s.Shape() && x in s.tcbs
    ensures r.Shape()
  {
    var p := if newPriority >= MAX_PRIORITIES then MAX_PRIORITIES - 1 else newPriority;
    var tcb := s.tcbs[x];
    if tcb.basePriority == p then s
    else
      Requeue(s, x, tcb.(priority := if tcb.basePriority == tcb.priority then p else tcb.priority,
                         basePriority := p, eventValue := EventValueFor(tcb, p)))
  }

  /** xTaskPriorityInherit; the returned flag says that the holder runs on an inherited priority. */
  function Inherit(s: Sched, holder: Task): (r: Sched)
    requires s.Shape() && holder in s.tcbs
    ensures r.Shape()
  {
    var tcb, p := s.tcbs[holder], s.tcbs[s.current].priority;
    if tcb.priority < p then Requeue(s, holder, tcb.(priority := p, eventValue := EventValueFor(tcb, p))) else s
  }

  predicate Inherits(s: Sched, holder: Task)
    requires s.Shape() && holder in s.tcbs
  {
    var tcb, p := s.tcbs[holder], s.tcbs[s.current].priority;
    tcb.priority < p || tcb.basePriority < p
  }

  /** pvTaskIncrementMutexHeldCount */
  function IncrementHeld(s: Sched): (r: Sched)
    requires s.Shape()
    ensures r.Shape()
  {
    SetTcb(s, s.current, s.tcbs[s.current].(mutexesHeld := s.tcbs[s.current].mutexesHeld + 1))
  }

  /** uxTaskResetEventItemValue: the running task's event item stands for its priority again. */
  function ResetEventItem(s: Sched): (r: Sched)
    requires s.Shape()
    ensures r.Shape()
  {
    SetTcb(s, s.current, s.tcbs[s.current].(eventValue := MAX_PRIORITIES - s.tcbs[s.current].priority))
  }

  /** The running task's delay was ended by xTaskAbortDelay. */
  predicate Aborted(s: Sched)
    requires s.current in s.tcbs
  {
    s.tcbs[s.current].delayAborted
  }

  /** What xTaskCheckForTimeOut does to the running task: the note that its delay was aborted is used up. */
  function AfterCheck(s: Sched): (r: Sched)
    requires s.Shape()
    ensures r.Shape()
  {
    if Aborted(s) then SetTcb(s, s.current, s.tcbs[s.current].(delayAborted := false)) else s
  }

  /** xTaskPriorityDisinherit of the running task. */
  function Disinherit(s: Sched): (r: Sched)
    requires s.Shape() && s.tcbs[s.current].mutexesHeld > 0
    ensures r.Shape()
  {
    var tcb := s.tcbs[s.current].(mutexesHeld := s.tcbs[s.current].mutexesHeld - 1);
    if tcb.priority != tcb.basePriority && tcb.mutexesHeld == 0 then
      MoveTask(s, s.current, Ready(tcb.basePriority),
               tcb.(priority := tcb.basePriority, eventValue := MAX_PRIORITIES - tcb.basePriority))
    else SetTcb(s, s.current, tcb)
  }

  /** vTaskPriorityDisinheritAfterTimeout */
  function DisinheritAfterTimeout(s: Sched, holder: Task, highestWaiting: nat): (r: Sched)
    requires s.Shape() && holder in s.tcbs && highestWaiting < MAX_PRIORITIES
    ensures r.Shape()
  {
    var tcb := s.tcbs[holder];
    var p := if tcb.basePriority < highestWaiting then highestWaiting else tcb.basePriority;
    if tcb.priority != p && tcb.mutexesHeld == 1
    then Requeue(s, holder, tcb.(priority := p, eventValue := EventValueFor(tcb, p)))
    else s
  }

  /** prvAddNewTaskToReadyList of a task made by prvInitialiseNewTask, while the scheduler runs. */
  function Create(s: Sched, x: Task, priority: nat): (r: Sched)
    requires s.Shape() && x !in s.tcbs
    ensures r.Shape()
  {
    hide Roster.Consistent, Roster.PutEnd;
    assert x !in s.state.place.Keys;
    var p := if priority >= MAX_PRIORITIES then MAX_PRIORITIES - 1 else priority;
    s.(state := s.state.PutEnd(Ready(p), x), tcbs := s.tcbs[x := Tcb(p, p, 0, 0, MAX_PRIORITIES - p, false)],
       topReady := Max(s.topReady, p), numberOfTasks := s.numberOfTasks + 1)
  }

  /** The control block is gone. */
  function Forget(s: Sched, x: Task): (r: Sched)
    requires s.Shape() && x in s.tcbs && x != s.current && s.numberOfTasks > 0
    ensures r.Shape()
  {
    hide Roster.Consistent, Roster.Take, Roster.TakeIfPlaced;
    s.(state := s.state.Take(x), event := s.event.TakeIfPlaced(x), tcbs := s.tcbs - {x},
       numberOfTasks := s.numberOfTasks - 1)
  }

  /** vTaskDelete */
  function Delete(s: Sched, x: Task): (r: Sched)
    requires s.Shape() && x in s.tcbs && s.numberOfTasks > 0
    ensures r.Shape()
  {
    hide Sched.Shape, MoveTask, DropEvent, Forget, Sched.ResetUnblockTime;
    s.ListsKnown();
    if x == s.current then
      var d := DropEvent(s, x);
      d.ListsKnown();
      var m := MoveTask(d, x, WaitingTermination, s.tcbs[x]);
      m.ListsKnown();
      m.NewListsShape(m.(deletedTasks := s.deletedTasks + 1));
      m.(deletedTasks := s.deletedTasks + 1)
    else Forget(s, x).ResetUnblockTime()
  }

  /** One round of prvCheckTasksWaitingTermination. */
  function CleanUpOne(s: Sched): (r: Sched)
    requires s.Core() && s.current == IDLE && s.deletedTasks > 0
    ensures r.Shape()
  {
    hide Roster.Consistent, Sched.ReadyListsMatch, Sched.DelaysSorted, Sched.EventWaitersBlocked, Forget;
    DeletedHead(s);
    var x := s.state.lists[WaitingTermination].items[0];
    Forget(s, x).(deletedTasks := s.deletedTasks - 1)
  }

  lemma DeletedHead(s: Sched)
    requires s.Core() && s.deletedTasks > 0
    ensures s.state.lists[WaitingTermination].items != [] && s.numberOfTasks > 0
    ensures var x := s.state.lists[WaitingTermination].items[0];
      x in s.tcbs && s.state.place[x] == WaitingTermination
  {
    assert s.state.lists[WaitingTermination].items[0] in s.state.lists[WaitingTermination].items;
    assert IDLE in s.tcbs.Keys;
  }

  /** The search of taskSELECT_HIGHEST_PRIORITY_TASK. */
  function FindTop(s: Sched, p: nat): (top: nat)
    requires s.Shape() && p < MAX_PRIORITIES
    ensures top <= p
    ensures forall q :: top < q <= p ==> s.state.lists[Ready(q)].items == []
    ensures s.state.lists[Ready(top)].items == [] ==> top == 0
  {
    if s.state.lists[Ready(p)].items != [] || p == 0 then p else FindTop(s, p - 1)
  }

  /** vTaskSwitchContext */
  function SwitchContext(s: Sched): (r: Sched)
    requires s.Core()
  {
    if s.suspended != 0 then s.(yieldPending := true)
    else
      var p := FindTop(s, s.topReady);
      SomethingReady(s);
      var l := s.state.lists[Ready(p)];
      s.(yieldPending := false, current := l.NextItem(),
         state := Roster(s.state.lists[Ready(p) := l.Advance()], s.state.place), topReady := p)
  }

  /** The search stops at a list that is not empty. */
  lemma SomethingReady(s: Sched)
    requires s.Core()
    ensures s.state.lists[Ready(FindTop(s, s.topReady))].items != []
  {
    IdleIsReady(s);
    hide Roster.Consistent, Sched.DelaysSorted, Sched.EventWaitersBlocked, Sched.ReadyListsMatch, FindTop;
  }

  lemma IdleIsReady(s: Sched)
    requires s.Core()
    ensures var p := s.tcbs[IDLE].priority; p <= s.topReady < MAX_PRIORITIES && s.state.lists[Ready(p)].items != []
  {
    hide Sched.DelaysSorted, Sched.EventWaitersBlocked;
    assert IDLE in s.state.lists[Ready(s.tcbs[IDLE].priority)].items;
  }

  // ----- what they keep -----

  /** The task is on a list that a move may take it from. */
  predicate Movable(s: Sched, x: Task) {
    x in s.tcbs && x in s.state.place && s.state.place[x] != WaitingTermination
  }

  lemma MoveKeepsInv(s: Sched, x: Task, l: StateList, tcb: Tcb)
    requires s.Inv() && Movable(s, x) && l in s.state.lists && l !in {Delayed1, Delayed2, WaitingTermination}
    requires tcb.priority < MAX_PRIORITIES && tcb.basePriority < MAX_PRIORITIES && tcb.wake == s.tcbs[x].wake
    requires if l.Ready? then l.priority == tcb.priority && x !in s.event.place else x != IDLE
    ensures var r := MoveTask(s, x, l, tcb); r.Inv() && OnlyMoves(s, r, x)
  {
    hide Roster.Consistent, MoveTask, Sched.ReadyListsMatch, Sched.DelaysSorted, Sched.EventWaitersBlocked;
    MoveKeepsCore(s, x, l, tcb);
    SameButOneMoved(s, MoveTask(s, x, l, tcb), x);
  }

  lemma DropEventKeepsInv(s: Sched, x: Task)
    requires s.Inv() && x in s.tcbs
    ensures var r := DropEvent(s, x); r.Inv() && OnlyMoves(s, r, x)
  {
    hide Roster.Consistent, DropEvent, Sched.ReadyListsMatch, Sched.DelaysSorted, Sched.EventWaitersBlocked;
    DropEventKeepsCore(s, x);
    SameButOneMoved(s, DropEvent(s, x), x);
  }

  lemma SetTcbSameBut(s: Sched, x: Task, tcb: Tcb)
    requires s.Shape() && x in s.tcbs && tcb.priority < MAX_PRIORITIES && tcb.basePriority < MAX_PRIORITIES
    ensures SameBut(s, SetTcb(s, x, tcb), x) && SetTcb(s, x, tcb) == s.(tcbs := s.tcbs[x := tcb])
  {
    hide Roster.Consistent;
  }

  lemma SetTcbKeepsInv(s: Sched, x: Task, tcb: Tcb)
    requires s.Inv() && x in s.tcbs && tcb.wake == s.tcbs[x].wake
    requires tcb.priority < MAX_PRIORITIES && tcb.basePriority < MAX_PRIORITIES
    requires s.state.place[x].Ready? ==> tcb.priority == s.tcbs[x].priority
    ensures var r := SetTcb(s, x, tcb); r.Inv() && OnlyMoves(s, r, x)
  {
    hide Roster.Consistent, Sched.ReadyListsMatch, Sched.DelaysSorted, Sched.EventWaitersBlocked, SetTcb, SameBut,
         Sched.Timely, Sched.Settled, OnlyMoves;
    SetTcbKeepsCore(s, x, tcb);
    SetTcbSameBut(s, x, tcb);
    SameButOneMoved(s, SetTcb(s, x, tcb), x);
  }
}
