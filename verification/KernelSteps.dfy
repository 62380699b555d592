/** The functions of the scheduler spelled out as the list operations and assignments that make them up. */
module KernelSteps {
  import opened Ticks
  import opened Rosters
  import opened Scheduler
  import opened SchedulerTime
  import opened SchedulerSuspension
  import opened SchedulerTasks
  import opened SchedulerSafety
  import opened SchedulerTimeouts
  import opened InitialLists
  import opened Preemption
  import opened SchedulerStart

  /** What Shape says of one task. */
  lemma TaskIsListed(s: Sched, x: Task)
    requires s.Shape() && x in s.tcbs
    ensures s.state.Consistent() && s.event.Consistent() && x in s.state.place
    ensures s.tcbs[x].priority < MAX_PRIORITIES && s.tcbs[x].basePriority < MAX_PRIORITIES
    ensures Ready(s.tcbs[x].priority) in s.state.lists && Ready(s.tcbs[x].basePriority) in s.state.lists
    ensures s.state.place[x] in s.state.lists
  {
  }

  lemma ListsKnown(s: Sched)
    requires s.Shape()
    ensures s.state.Consistent() && s.event.Consistent() && s.current in s.tcbs && s.current in s.state.place
    ensures Delayed1 in s.state.lists && Delayed2 in s.state.lists && SuspendedTasks in s.state.lists
    ensures WaitingTermination in s.state.lists && PendingReady in s.event.lists
    ensures s.state.place.Keys == s.tcbs.Keys && s.event.place.Keys <= s.tcbs.Keys
  {
  }

  lemma ReadyListed(s: Sched, p: nat)
    requires s.Shape() && p < MAX_PRIORITIES
    ensures Ready(p) in s.state.lists
  {
  }

  /** Moving a task is taking it off its list and putting it on another. */
  lemma UnblockIs(s: Sched, x: Task)
    requires s.Shape() && x in s.tcbs
    ensures s.state.Consistent() && s.event.Consistent() && x in s.state.place
    ensures var l := Ready(s.tcbs[x].priority);
      && l in s.state.lists && x !in s.state.Take(x).place
      && s.Unblock(x) == s.(state := s.state.Take(x).PutEnd(l, x), event := s.event.TakeIfPlaced(x),
                            topReady := Max(s.topReady, s.tcbs[x].priority))
  {
    hide Roster.Consistent, Roster.Take, Roster.PutEnd, Roster.TakeIfPlaced;
  }

  lemma BlockForeverIs(s: Sched)
    requires s.Shape()
    ensures s.state.Consistent() && s.current in s.tcbs && s.current in s.state.place
    ensures SuspendedTasks in s.state.lists
    ensures var x := s.current;
      BlockForever(s) == s.(tcbs := s.tcbs[x := s.tcbs[x].(delayAborted := false)],
                            state := s.state.Take(x).PutEnd(SuspendedTasks, x))
  {
    hide Roster.Consistent, Roster.Take, Roster.PutEnd;
  }

  /** The lists with the running task in wake order on list l. */
  function Delaying(s: Sched, l: StateList, wake: Tick): Roster<StateList>
    requires s.Shape() && l in {Delayed1, Delayed2}
  {
    hide Roster.Consistent, Roster.Take, Roster.PutSorted;
    var taken := s.state.Take(s.current);
    OnListHasTcb(s, taken, l);
    taken.PutSorted(l, s.current, wake, Wakes(s.tcbs, taken.lists[l].items))
  }

  lemma BlockUntilIs(s: Sched, wake: Tick)
    requires s.Shape()
    ensures s.current in s.tcbs
    ensures var x := s.current;
      BlockUntil(s, wake) ==
        s.(tcbs := s.tcbs[x := s.tcbs[x].(delayAborted := false, wake := wake)],
           state := Delaying(s, if (wake < s.tick) == s.firstIsCurrent then Delayed2 else Delayed1, wake),
           nextUnblock := if s.tick <= wake < s.nextUnblock then wake else s.nextUnblock)
  {
    hide Roster.Consistent, Roster.Take, Roster.PutSorted;
  }

  lemma TerminateIs(s: Sched)
    requires s.Shape() && s.numberOfTasks > 0
    ensures s.state.Consistent() && s.event.Consistent() && s.current in s.tcbs && s.current in s.state.place
    ensures WaitingTermination in s.state.lists
    ensures SchedulerTasks.Delete(s, s.current) ==
            s.(state := s.state.Take(s.current).PutEnd(WaitingTermination, s.current),
               event := s.event.TakeIfPlaced(s.current), deletedTasks := s.deletedTasks + 1)
  {
    hide Roster.Consistent, Roster.Take, Roster.PutEnd, Roster.TakeIfPlaced;
    TcbUnchanged(s.tcbs, s.current);
  }

  /** The task is on the ready list of its base priority. */
  function Restored(s: Sched, x: Task): Sched
    requires s.Shape() && x in s.tcbs
  {
    hide Roster.Consistent;
    var b := s.tcbs[x].basePriority;
    MoveTask(s, x, Ready(b), s.tcbs[x].(priority := b, eventValue := MAX_PRIORITIES - b))
  }

  lemma RestoredIs(s: Sched, x: Task)
    requires s.Shape() && x in s.tcbs
    ensures var b := s.tcbs[x].basePriority;
      && b < MAX_PRIORITIES < 0x1_0000_0000 && Ready(b) in s.state.lists && s.state.Consistent() && x in s.state.place
      && x !in s.state.Take(x).place
      && Restored(s, x) ==
           s.(state := s.state.Take(x).PutEnd(Ready(b), x), topReady := Max(s.topReady, b),
              tcbs := s.tcbs[x := s.tcbs[x].(priority := b, eventValue := MAX_PRIORITIES - b)])
  {
    hide Sched.Shape, Roster.Consistent, Roster.Take, Roster.PutEnd, MoveTask;
    TaskIsListed(s, x);
    var b := s.tcbs[x].basePriority;
    MoveIs(s, x, Ready(b), s.tcbs[x].(priority := b, eventValue := MAX_PRIORITIES - b));
  }

  /** One mutex fewer. */
  function Released(tcb: Tcb): Tcb
    requires tcb.mutexesHeld > 0
  {
    tcb.(mutexesHeld := tcb.mutexesHeld - 1)
  }

  lemma TaskFacts(s: Sched)
    requires s.Shape() && s.tcbs[s.current].mutexesHeld > 0
    ensures s.current in s.tcbs
    ensures var before := s.tcbs[s.current];
      var after := Released(before);
      && after == before.(mutexesHeld := before.mutexesHeld - 1)
      && after.priority < MAX_PRIORITIES && after.basePriority < MAX_PRIORITIES
  {
    hide Roster.Consistent;
  }

  /** The task is on the ready list of its base priority, if it ran on another and the mutex was the last. */
  lemma DisinheritIs(s: Sched, x: Task, t: Sched)
    requires s.Shape() && x == s.current && x in s.tcbs && s.tcbs[x].mutexesHeld > 0
    requires t.Shape() && t == s.(tcbs := s.tcbs[x := Released(s.tcbs[x])])
    ensures Disinherit(s) ==
            if t.tcbs[x].priority != t.tcbs[x].basePriority && t.tcbs[x].mutexesHeld == 0 then Restored(t, x) else t
  {
    hide Sched.Shape, MoveTask;
    var tcb := Released(s.tcbs[x]);
    s.TaskKnown(x);
    ReadyListed(s, tcb.basePriority);
    MoveOverwrites(s, x, Ready(tcb.basePriority), tcb,
                   tcb.(priority := tcb.basePriority, eventValue := MAX_PRIORITIES - tcb.basePriority));
  }

  lemma CreateIs(s: Sched, x: Task, priority: nat)
    requires s.Shape() && x !in s.tcbs
    ensures 0 <= Clamp(priority) < MAX_PRIORITIES < VALUE_IN_USE
    ensures Clamp(priority) == if priority >= MAX_PRIORITIES then MAX_PRIORITIES - 1 else priority
    ensures var p := Clamp(priority); NewTcb(priority) == Tcb(p, p, 0, 0, MAX_PRIORITIES - p, false)
    ensures var p := Clamp(priority);
      && s.state.Consistent() && Ready(p) in s.state.lists && x !in s.state.place && s.current in s.tcbs
      && Create(s, x, priority) == s.(state := s.state.PutEnd(Ready(p), x), tcbs := s.tcbs[x := NewTcb(priority)],
                                      topReady := Max(s.topReady, p), numberOfTasks := s.numberOfTasks + 1)
  {
    hide Roster.Consistent, Roster.PutEnd;
    assert x !in s.state.place.Keys;
  }

  lemma TakeIfPlacedIs(s: Sched, x: Task)
    requires s.Shape() && x in s.tcbs
    ensures s.state.Consistent() && s.event.Consistent() && x in s.state.place
    ensures s.event.TakeIfPlaced(x) == if x in s.event.place then s.event.Take(x) else s.event
  {
    hide Roster.Consistent, Roster.Take;
  }

  lemma AdvanceIs(s: Sched)
    requires s.Shape()
    ensures s.(tick := 0, firstIsCurrent := !s.firstIsCurrent, overflows := s.overflows + 1).Shape()
    ensures AdvanceCount(s) ==
            if Plus(s.tick, 1) == 0
            then s.(tick := 0, firstIsCurrent := !s.firstIsCurrent, overflows := s.overflows + 1).ResetUnblockTime()
            else s.(tick := Plus(s.tick, 1))
  {
    hide Sched.Shape, Sched.ResetUnblockTime;
    SameListsShape(s, s.(tick := 0, firstIsCurrent := !s.firstIsCurrent, overflows := s.overflows + 1));
  }

  lemma DelayingIs(s: Sched, l: StateList, wake: Tick)
    requires s.Shape() && l in {Delayed1, Delayed2}
    ensures s.state.Consistent() && s.current in s.tcbs && s.current in s.state.place
    ensures var taken := s.state.Take(s.current);
      && l in taken.lists && (forall x :: x in taken.lists[l].items ==> x in s.tcbs)
      && Delaying(s, l, wake) == taken.PutSorted(l, s.current, wake, Wakes(s.tcbs, taken.lists[l].items))
  {
    hide Roster.Consistent, Roster.Take, Roster.PutSorted;
    ListsKnown(s);
    OnListHasTcb(s, s.state.Take(s.current), l);
  }

  lemma ResumeIs(s: Sched, t: Sched)
    requires s.Shape() && s.suspended > 0 && t == s.(suspended := s.suspended - 1) && t.Shape()
    ensures DeliverPending(t).pended == s.pended && DeliverPending(t).suspended == t.suspended
    ensures ResumeAll(s) == if t.suspended == 0 && t.numberOfTasks > 0
                            then UnwindTicks(DeliverPending(t), s.pended).(pended := 0) else t
  {
    hide Sched.Shape, UnwindTicks, DeliverPending;
    DeliverKeepsPended(t);
  }

  /** The control block with another priority, and the event item with it if that is not in use. */
  function Ranked(tcb: Tcb, p: nat): Tcb
    requires p < MAX_PRIORITIES
  {
    tcb.(priority := p, eventValue := EventValueFor(tcb, p))
  }

  lemma RankedIs(tcb: Tcb, p: nat)
    requires p < MAX_PRIORITIES
    ensures MAX_PRIORITIES < VALUE_IN_USE
    ensures Ranked(tcb, p) == if tcb.eventValue < VALUE_IN_USE
                              then tcb.(priority := p, eventValue := MAX_PRIORITIES - p) else tcb.(priority := p)
  {
  }

  lemma TimeoutIs(s: Sched, h: Task, highest: nat)
    requires s.Shape() && h in s.tcbs && highest < MAX_PRIORITIES
    ensures var tcb := s.tcbs[h];
      var p := if tcb.basePriority < highest then highest else tcb.basePriority;
      && p < MAX_PRIORITIES && Ranked(tcb, p).priority == p && Ranked(tcb, p).basePriority == tcb.basePriority
      && DisinheritAfterTimeout(s, h, highest) ==
           if tcb.priority == p || tcb.mutexesHeld != 1 then s else Requeue(s, h, Ranked(tcb, p))
  {
    hide Sched.Shape, Requeue;
    TaskIsListed(s, h);
  }

  lemma CreateFirstIs(s: Sched, c: Creation)
    requires s.Shape() && c.task !in s.tcbs
    ensures s.current in s.tcbs && c.task in Create(s, c.task, c.priority).tcbs
    ensures var r := Create(s, c.task, c.priority);
      && r.tcbs == s.tcbs[c.task := NewTcb(c.priority)] && r.current == s.current
      && CreateBeforeStart(s, c) ==
           r.(current := if r.tcbs[s.current].priority <= r.tcbs[c.task].priority then c.task else s.current)
  {
    CreatedIs(s, c);
    hide Create;
  }

  lemma CurrentIsListed(s: Sched)
    requires s.Shape()
    ensures s.current in s.tcbs && Ready(s.tcbs[s.current].priority) in s.state.lists
  {
  }

  /** Shape speaks of the lists, the tasks and the running task only. */
  lemma SameListsShape(s: Sched, t: Sched)
    requires s.Shape() && t.state == s.state && t.event == s.event && t.tcbs == s.tcbs && t.current == s.current
    ensures t.Shape()
  {
    hide Roster.Consistent;
  }

  lemma MoveOverwrites(s: Sched, x: Task, l: StateList, before: Tcb, after: Tcb)
    requires s.Shape() && x in s.tcbs && l in s.state.lists
    requires before.priority < MAX_PRIORITIES && before.basePriority < MAX_PRIORITIES
    requires after.priority < MAX_PRIORITIES && after.basePriority < MAX_PRIORITIES
    requires s.(tcbs := s.tcbs[x := before]).Shape()
    ensures MoveTask(s.(tcbs := s.tcbs[x := before]), x, l, after) == MoveTask(s, x, l, after)
  {
    hide Roster.Consistent, Roster.Move, Sched.Shape;
  }

  lemma BlockChanged(s: Sched, x: Task, tcb: Tcb)
    requires s.Shape() && x in s.tcbs && tcb.priority < MAX_PRIORITIES && tcb.basePriority < MAX_PRIORITIES
    ensures s.(tcbs := s.tcbs[x := tcb]).Shape()
  {
    hide Roster.Consistent;
  }

  lemma DeliverKeepsPended(s: Sched)
    requires s.Shape()
    ensures DeliverPending(s).pended == s.pended && DeliverPending(s).suspended == s.suspended
  {
    hide Roster.Consistent, DrainPending;
  }

  /** xTaskAbortDelay notes the fact if the task waits for an event, and unblocks the task. */
  lemma AbortIs(s: Sched, x: Task)
    requires s.Shape() && x in s.tcbs
    ensures var tcb := s.tcbs[x].(delayAborted := s.tcbs[x].delayAborted || x in s.event.place);
      && s.(tcbs := s.tcbs[x := tcb]).Shape()
      && AbortDelay(s, x) ==
           if !IsWaiting(s, x) then s
           else s.(tcbs := s.tcbs[x := tcb]).Unblock(x)
                .(yieldPending := s.yieldPending || tcb.priority > s.tcbs[s.current].priority)
    ensures s.current in s.tcbs && (IsWaiting(s, x) ==> x != s.current)
  {
    var tcb := s.tcbs[x].(delayAborted := s.tcbs[x].delayAborted || x in s.event.place);
    TaskIsListed(s, x);
    BlockChanged(s, x, tcb);
    hide Roster.Consistent, Roster.Move, Roster.TakeIfPlaced, Sched.Shape;
  }

  lemma DeletedNotWaiting(s: Sched)
    requires s.Core() && s.deletedTasks > 0
    ensures s.state.lists[WaitingTermination].items != []
    ensures s.event.TakeIfPlaced(s.state.lists[WaitingTermination].items[0]) == s.event
  {
    DeletedHead(s);
    hide Roster.Consistent;
  }

  lemma CleanUpIs(s: Sched)
    requires s.Core() && s.current == IDLE && s.deletedTasks > 0
    ensures s.state.Consistent() && WaitingTermination in s.state.lists
    ensures s.state.lists[WaitingTermination].items != [] && s.numberOfTasks > 0
    ensures var x := s.state.lists[WaitingTermination].items[0];
      && x in s.state.place
      && CleanUpOne(s) == s.(state := s.state.Take(x), tcbs := s.tcbs - {x}, numberOfTasks := s.numberOfTasks - 1,
                             deletedTasks := s.deletedTasks - 1)
  {
    hide Roster.Consistent, Roster.Take, Roster.TakeIfPlaced, Sched.ReadyListsMatch, Sched.DelaysSorted,
         Sched.EventWaitersBlocked;
    DeletedHead(s);
    DeletedNotWaiting(s);
  }

  lemma CleanUpCounts(s: Sched)
    requires s.Core() && s.current == IDLE && s.deletedTasks > 0
    ensures var r := CleanUpOne(s);
      && r.deletedTasks == s.deletedTasks - 1 && r.numberOfTasks == s.numberOfTasks - 1 && r.current == s.current
  {
    hide Roster.Consistent, Roster.Take, Sched.ReadyListsMatch, Sched.DelaysSorted, Sched.EventWaitersBlocked;
    DeletedHead(s);
  }

  lemma TcbUnchanged(tcbs: map<Task, Tcb>, x: Task)
    requires x in tcbs
    ensures tcbs[x := tcbs[x]] == tcbs
  {
  }

  /** The move from list to list, as the two list operations. */
  lemma MoveIs(s: Sched, x: Task, l: StateList, tcb: Tcb)
    requires s.Shape() && x in s.tcbs && l in s.state.lists
    requires tcb.priority < MAX_PRIORITIES && tcb.basePriority < MAX_PRIORITIES
    ensures s.state.Consistent() && x in s.state.place && x !in s.state.Take(x).place
    ensures MoveTask(s, x, l, tcb) ==
            s.(state := s.state.Take(x).PutEnd(l, x), tcbs := s.tcbs[x := tcb],
               topReady := if l.Ready? then Max(s.topReady, l.priority) else s.topReady)
  {
    hide Roster.Consistent, Roster.Take, Roster.PutEnd;
  }

  lemma RequeueIs(s: Sched, x: Task, tcb: Tcb)
    requires s.Shape() && x in s.tcbs && tcb.priority < MAX_PRIORITIES && tcb.basePriority < MAX_PRIORITIES
    ensures s.state.Consistent() && x in s.state.place && Ready(tcb.priority) in s.state.lists
    ensures Requeue(s, x, tcb) ==
            if s.state.place[x] == Ready(s.tcbs[x].priority) then MoveTask(s, x, Ready(tcb.priority), tcb)
            else s.(tcbs := s.tcbs[x := tcb])
  {
    hide Roster.Consistent, MoveTask;
  }

  lemma ForgetIs(s: Sched, x: Task)
    requires s.Shape() && x in s.tcbs && x != s.current && s.numberOfTasks > 0
    ensures s.state.Consistent() && s.event.Consistent() && x in s.state.place
    ensures Forget(s, x) == s.(state := s.state.Take(x), event := s.event.TakeIfPlaced(x), tcbs := s.tcbs - {x},
                               numberOfTasks := s.numberOfTasks - 1)
  {
    hide Roster.Consistent, Roster.Take, Roster.TakeIfPlaced;
  }

  /** xTaskRemoveFromEventList, the head's two cases. */
  lemma RemoveIs(s: Sched, e: EventList)
    requires s.Shape() && e in s.event.lists && s.event.lists[e].items != []
    ensures var x := s.event.lists[e].items[0];
      && x in s.tcbs && x in s.event.place && s.current in s.tcbs && s.event.Consistent()
      && PendingReady in s.event.lists
      && SchedulerTasks.RemoveFromEventList(s, e) ==
           (if s.suspended == 0 then s.Unblock(x) else s.(event := s.event.Take(x).PutEnd(PendingReady, x)))
           .(yieldPending := s.yieldPending || s.tcbs[x].priority > s.tcbs[s.current].priority)
  {
    EventHead(s, e);
    hide Roster.Consistent, Roster.Take, Roster.PutEnd, Sched.Unblock;
  }

  lemma PlaceIs(s: Sched, e: EventList, d: Tick)
    requires s.Shape() && e in s.event.lists && s.current !in s.event.place
    ensures s.event.Consistent() && s.current in s.tcbs && forall x :: x in s.event.lists[e].items ==> x in s.tcbs
    ensures var event := s.event.PutSorted(e, s.current, s.tcbs[s.current].eventValue,
                                           EventValues(s.tcbs, s.event.lists[e].items));
      && s.(event := event).Shape()
      && SchedulerSafety.PlaceOnEventList(s, e, d) == BlockCurrent(s.(event := event), d, true)
  {
    hide Roster.Consistent, Roster.PutSorted, BlockCurrent;
    OnEventListHasTcb(s, e);
  }

  lemma FirstTaskSpelled(ids: set<nat>, x: Task, priority: nat, p: nat)
    requires p == (if priority >= MAX_PRIORITIES then MAX_PRIORITIES - 1 else priority) < VALUE_IN_USE
    requires Ready(p) in StateLists() && Roster(StateLists(), map[]).Consistent()
    ensures FirstTask(ids, Creation(x, priority)) ==
            Sched(Roster(StateLists(), map[]).PutEnd(Ready(p), x), Roster(EventLists(ids), map[]),
                  map[x := Tcb(p, p, 0, 0, MAX_PRIORITIES - p, false)], x, 0, 0, 0, true, p, 1, 0, 0, 0, false)
  {
    hide Roster.Consistent, Roster.PutEnd, StateLists, EventLists;
  }

  lemma ResetIs(s: Sched)
    requires s.Shape()
    ensures s.Cur() == (if s.firstIsCurrent then Delayed1 else Delayed2) && s.Cur() in s.state.lists
    ensures var items := s.state.lists[s.Cur()].items;
      && (items != [] ==> items[0] in s.tcbs)
      && s.ResetUnblockTime() == s.(nextUnblock := if items == [] then MAX_DELAY else s.tcbs[items[0]].wake)
  {
    var items := s.state.lists[s.Cur()].items;
    if items != [] {
      assert items[0] in items;
    }
    hide Roster.Consistent;
  }

  lemma TickIs(s: Sched)
    requires s.Shape()
    ensures s.suspended != 0 ==> TickStep(s) == Ticked(s.(pended := Plus(s.pended, 1)), false)
    ensures s.suspended == 0 ==>
              var a := AdvanceCount(s);
              var e := if a.tick >= a.nextUnblock then a.Expire(false) else Ticked(a, false);
              && s.current in s.tcbs && Ready(s.tcbs[s.current].priority) in e.s.state.lists
              && TickStep(s) == Ticked(e.s, || e.switchRequired || s.yieldPending
                                            || |e.s.state.lists[Ready(s.tcbs[s.current].priority)].items| > 1)
  {
    hide Sched.Shape, AdvanceCount, Sched.Expire;
    CurrentIsListed(s);
    if s.suspended == 0 {
      var a := AdvanceCount(s);
      var e := if a.tick >= a.nextUnblock then a.Expire(false) else Ticked(a, false);
      AdvanceKeepsTasks(s);
      CurrentIsListed(e.s);
    }
  }

  lemma AdvanceKeepsTasks(s: Sched)
    requires s.Shape()
    ensures AdvanceCount(s).current == s.current && AdvanceCount(s).tcbs == s.tcbs
  {
    hide Sched.Shape;
  }

  lemma DrainStepIs(s: Sched)
    requires s.Shape() && PendingReady in s.event.lists && s.event.lists[PendingReady].items != []
    ensures var x := s.event.lists[PendingReady].items[0];
      && x in s.tcbs && s.current in s.tcbs
      && DrainStep(s) ==
           s.Unblock(x).(yieldPending := s.yieldPending || s.tcbs[x].priority >= s.tcbs[s.current].priority)
  {
    hide Roster.Consistent, Sched.Unblock;
    PendingShrinks(s);
  }

  lemma DrainIs(s: Sched)
    requires s.Shape()
    ensures PendingReady in s.event.lists
    ensures if s.event.lists[PendingReady].items == [] then DrainPending(s) == s
            else
              && PendingReady in DrainStep(s).event.lists
              && |DrainStep(s).event.lists[PendingReady].items| < |s.event.lists[PendingReady].items|
              && DrainPending(s) == DrainPending(DrainStep(s))
    ensures DeliverPending(s) ==
            if s.event.lists[PendingReady].items != [] then DrainPending(s).ResetUnblockTime() else DrainPending(s)
  {
    hide Roster.Consistent, DrainStep, Sched.ResetUnblockTime;
    if s.event.lists[PendingReady].items != [] {
      DrainStepShrinks(s);
    }
  }

  lemma UnwindIs(s: Sched, n: nat)
    requires s.Shape()
    ensures UnwindTicks(s, 0) == s
    ensures TickStep(s).s.(yieldPending := true).Shape()
    ensures n > 0 ==>
              var t := TickStep(s);
              UnwindTicks(s, n) == UnwindTicks(if t.switchRequired then t.s.(yieldPending := true) else t.s, n - 1)
  {
    var t := TickStep(s);
    SameListsShape(t.s, t.s.(yieldPending := true));
    hide Sched.Shape, TickStep;
  }

  lemma FindIs(s: Sched, p: nat)
    requires s.Core() && p < MAX_PRIORITIES
    ensures s.Shape() && Ready(p) in s.state.lists
    ensures FindTop(s, p) ==
            if p == 0 || s.state.lists[Ready(p)].items != [] then p else FindTop(s, p - 1)
  {
    hide Roster.Consistent, Sched.ReadyListsMatch, Sched.DelaysSorted, Sched.EventWaitersBlocked;
  }

  /** The search begins at a priority in range and ends at a list that is not empty. */
  lemma FindEnds(s: Sched)
    requires s.Core()
    ensures s.Shape() && s.topReady < MAX_PRIORITIES && FindTop(s, s.topReady) < MAX_PRIORITIES
    ensures Ready(FindTop(s, s.topReady)) in s.state.lists
    ensures s.state.lists[Ready(FindTop(s, s.topReady))].items != []
  {
    SomethingReady(s);
    hide Roster.Consistent, Sched.DelaysSorted, Sched.EventWaitersBlocked;
  }

  lemma SwitchIs(s: Sched, p: nat)
    requires s.Core() && s.Shape() && s.topReady < MAX_PRIORITIES && p == FindTop(s, s.topReady)
    requires Ready(p) in s.state.lists && s.state.lists[Ready(p)].items != []
    ensures s.suspended == 0 ==>
              var l := s.state.lists[Ready(p)];
              SchedulerTasks.SwitchContext(s) ==
                s.(yieldPending := false, current := l.NextItem(), topReady := p,
                   state := Roster(s.state.lists[Ready(p) := l.Advance()], s.state.place))
    ensures s.suspended != 0 ==> SchedulerTasks.SwitchContext(s) == s.(yieldPending := true)
  {
    hide Sched.Core, FindTop;
  }

  lemma BlockIs(s: Sched, d: Tick, indefinite: bool)
    requires s.Shape()
    ensures BlockCurrent(s, d, indefinite) ==
            if d == MAX_DELAY && indefinite then BlockForever(s) else BlockUntil(s, Plus(s.tick, d))
  {
    hide Sched.Shape, BlockForever, BlockUntil;
  }

  lemma SuspendIs(s: Sched, x: Task)
    requires s.Shape() && x in s.tcbs
    ensures s.state.Consistent() && s.event.Consistent() && x in s.state.place && SuspendedTasks in s.state.lists
    ensures SchedulerTasks.Suspend(s, x) ==
            s.(state := s.state.Take(x).PutEnd(SuspendedTasks, x), event := s.event.TakeIfPlaced(x))
  {
    hide Roster.Consistent, Roster.Take, Roster.PutEnd, Roster.TakeIfPlaced;
    TcbUnchanged(s.tcbs, x);
  }

  lemma ResumeTaskIs(s: Sched, x: Task)
    requires s.Shape() && x in s.tcbs
    ensures x in s.state.place && s.current in s.tcbs && PendingReady in s.event.lists && s.event.Consistent()
    ensures Ready(s.tcbs[x].priority) in s.state.lists && s.tcbs[x].priority < MAX_PRIORITIES
    ensures s.tcbs[x].basePriority < MAX_PRIORITIES
    ensures IsSuspended(s, x) <==> s.state.place[x] == SuspendedTasks && x !in s.event.place
    ensures SchedulerTasks.Resume(s, x) ==
            if x != s.current && IsSuspended(s, x) then MoveTask(s, x, Ready(s.tcbs[x].priority), s.tcbs[x]) else s
    ensures SchedulerTasks.ResumeFromISR(s, x) ==
            if !IsSuspended(s, x) then s
            else if s.suspended == 0 then MoveTask(s, x, Ready(s.tcbs[x].priority), s.tcbs[x])
            else s.(event := s.event.PutEnd(PendingReady, x))
  {
    hide Roster.Consistent, MoveTask, Roster.PutEnd;
  }

  lemma DelayUntilIs(s: Sched, previous: Tick, increment: Tick)
    requires s.Shape()
    ensures var wake := Plus(previous, increment);
      SchedulerTimeouts.DelayUntil(s, previous, increment) ==
        if (if s.tick < previous then wake < previous && wake > s.tick else wake < previous || wake > s.tick)
        then BlockCurrent(s, Minus(wake, s.tick), false) else s
  {
    hide Sched.Shape, BlockCurrent, Plus, Minus;
  }

  lemma CheckIs(s: Sched, t: TimeOut, ticks: Tick)
    requires s.Shape()
    ensures s.current in s.tcbs
    ensures AfterCheck(s) == if s.tcbs[s.current].delayAborted
                             then s.(tcbs := s.tcbs[s.current := s.tcbs[s.current].(delayAborted := false)]) else s
    ensures var elapsed := Minus(s.tick, t.timeOnEntering);
      SchedulerTimeouts.CheckForTimeOut(s, t, ticks) ==
        if s.tcbs[s.current].delayAborted then Check(true, t, ticks)
        else if ticks == MAX_DELAY then Check(false, t, ticks)
        else if s.overflows != t.overflowCount && s.tick >= t.timeOnEntering then Check(true, t, ticks)
        else if elapsed < ticks then Check(false, TimeOut(s.overflows, s.tick), ticks - elapsed)
        else Check(true, t, 0)
  {
    hide Roster.Consistent;
  }

  lemma DeleteIs(s: Sched, x: Task)
    requires s.Shape() && x in s.tcbs && x != s.current && s.numberOfTasks > 0
    ensures SchedulerTasks.Delete(s, x) == Forget(s, x).ResetUnblockTime()
  {
    hide Sched.Shape, Forget, Sched.ResetUnblockTime;
  }

  lemma PrioritySetIs(s: Sched, x: Task, newPriority: nat)
    requires s.Shape() && x in s.tcbs
    ensures var p, tcb := if newPriority >= MAX_PRIORITIES then MAX_PRIORITIES - 1 else newPriority, s.tcbs[x];
      var after := tcb.(priority := if tcb.basePriority == tcb.priority then p else tcb.priority, basePriority := p);
      && 0 <= p < MAX_PRIORITIES < VALUE_IN_USE && tcb.priority < MAX_PRIORITIES
      && SchedulerTasks.PrioritySet(s, x, newPriority) ==
           if tcb.basePriority == p then s
           else if tcb.eventValue < VALUE_IN_USE then Requeue(s, x, after.(eventValue := MAX_PRIORITIES - p))
           else Requeue(s, x, after)
  {
    hide Sched.Shape, Requeue;
    TaskIsListed(s, x);
  }

  lemma YieldsIs(s: Sched, x: Task, newPriority: nat)
    requires x in s.tcbs && s.current in s.tcbs
    ensures var p := if newPriority >= MAX_PRIORITIES then MAX_PRIORITIES - 1 else newPriority;
      PriorityYields(s, x, newPriority) <==>
        if p > s.tcbs[x].basePriority then x != s.current && p >= s.tcbs[s.current].priority
        else p < s.tcbs[x].basePriority && x == s.current
  {
  }

  lemma InheritIs(s: Sched, holder: Task)
    requires s.Shape() && holder in s.tcbs
    ensures s.current in s.tcbs && s.tcbs[s.current].priority < MAX_PRIORITIES
    ensures var tcb, p := s.tcbs[holder], s.tcbs[s.current].priority;
      && Ranked(tcb, p).priority == p && Ranked(tcb, p).basePriority == tcb.basePriority < MAX_PRIORITIES
      && Inherit(s, holder) == (if tcb.priority >= p then s else Requeue(s, holder, Ranked(tcb, p)))
      && (Inherits(s, holder) <==> tcb.priority < p || tcb.basePriority < p)
  {
    hide Sched.Shape, Requeue;
    TaskIsListed(s, holder);
    ListsKnown(s);
    TaskIsListed(s, s.current);
  }

  lemma OwnBlockIs(s: Sched)
    requires s.Shape()
    ensures s.current in s.tcbs && s.tcbs[s.current].priority < MAX_PRIORITIES < VALUE_IN_USE
    ensures var x, tcb := s.current, s.tcbs[s.current];
      && IncrementHeld(s) == s.(tcbs := s.tcbs[x := tcb.(mutexesHeld := tcb.mutexesHeld + 1)])
      && ResetEventItem(s) == s.(tcbs := s.tcbs[x := tcb.(eventValue := MAX_PRIORITIES - tcb.priority)])
  {
    hide Roster.Consistent;
  }

  lemma InvCore(s: Sched)
    requires s.Inv()
    ensures s.Core() && WaitingTermination in s.state.lists
    ensures s.deletedTasks == 0 ==> s.state.lists[WaitingTermination].items == []
  {
    hide Roster.Consistent, Sched.ReadyListsMatch, Sched.DelaysSorted, Sched.EventWaitersBlocked;
  }
}
