/** What every operation on the scheduler keeps, and that it disturbs nobody but its own task. */
module SchedulerSafety {
  import opened Ticks
  import opened ListValues
  import opened Rosters
  import opened Scheduler
  import opened SchedulerTime
  import opened SchedulerSuspension
  import opened SchedulerTasks

  lemma TwoMoves(s: Sched, t: Sched, r: Sched, x: Task)
    requires OnlyMoves(s, t, x) && OnlyMoves(t, r, x)
    ensures OnlyMoves(s, r, x)
  {
    hide Where, Sched.Now;
    assert forall y :: y in s.tcbs && y != x ==> Untouched(s, t, y) && Untouched(t, r, y);
  }

  lemma InvShape(s: Sched)
    requires s.Inv()
    ensures s.Shape()
  {
  }

  lemma YieldKeepsInv(s: Sched, t: Sched, y: bool, x: Task)
    requires t.Inv() && OnlyMoves(s, t, x)
    ensures t.(yieldPending := y).Inv() && OnlyMoves(s, t.(yieldPending := y), x)
  {
    hide Roster.Consistent, Sched.ReadyListsMatch, Sched.DelaysSorted, Sched.EventWaitersBlocked;
    var r := t.(yieldPending := y);
    Relabel(t, r);
    SamePlace(t, r);
    hide Where, Sched.Now, Sched.Core, Sched.Timely;
    assert forall z :: z in s.tcbs && z != x ==> Untouched(s, t, z);
  }

  lemma SuspendSafe(s: Sched, x: Task)
    requires s.Inv() && Movable(s, x) && x != IDLE
    ensures var r := Suspend(s, x); r.Inv() && OnlyMoves(s, r, x) && IsSuspended(r, x)
  {
    hide Roster.Consistent, MoveTask, DropEvent, Sched.ReadyListsMatch, Sched.DelaysSorted, Sched.EventWaitersBlocked,
         Sched.Timely, Sched.Settled, OnlyMoves;
    DropEventKeepsInv(s, x);
    MoveKeepsInv(DropEvent(s, x), x, SuspendedTasks, s.tcbs[x]);
    TwoMoves(s, DropEvent(s, x), Suspend(s, x), x);
  }

  lemma ReadySafe(s: Sched, x: Task)
    requires s.Inv() && Movable(s, x) && x !in s.event.place
    ensures var r := MoveTask(s, x, Ready(s.tcbs[x].priority), s.tcbs[x]); r.Inv() && OnlyMoves(s, r, x)
  {
    hide Roster.Consistent, MoveTask, Sched.ReadyListsMatch, Sched.DelaysSorted, Sched.EventWaitersBlocked,
         Sched.Timely, Sched.Settled, OnlyMoves;
    MoveKeepsInv(s, x, Ready(s.tcbs[x].priority), s.tcbs[x]);
  }

  lemma NothingMoves(s: Sched, x: Task)
    requires s.state.place.Keys == s.tcbs.Keys
    ensures OnlyMoves(s, s, x)
  {
    hide Where;
  }

  lemma ResumeSafe(s: Sched, x: Task)
    requires s.Inv() && x in s.tcbs
    ensures var r := Resume(s, x); r.Inv() && OnlyMoves(s, r, x)
    ensures x != s.current && IsSuspended(s, x) ==> Resume(s, x).state.place[x] == Ready(s.tcbs[x].priority)
  {
    hide Roster.Consistent, MoveTask, Sched.ReadyListsMatch, Sched.DelaysSorted, Sched.EventWaitersBlocked,
         Sched.Timely, Sched.Settled, OnlyMoves;
    NothingMoves(s, x);
    if IsSuspended(s, x) {
      ReadySafe(s, x);
    }
  }

  lemma HoldKeepsCore(s: Sched, e: Roster<EventList>, x: Task, l: EventList)
    requires s.Core() && x in s.tcbs && s.IsBlocked(x)
    requires e.Consistent() && e.lists.Keys == s.event.lists.Keys && e.place == s.event.place[x := l]
    ensures s.(event := e).Core()
  {
    hide Roster.Consistent, InWakeOrder;
  }

  /** A blocked task may be put on an event list, and while the scheduler is suspended on the pending list. */
  lemma HoldSafe(s: Sched, e: Roster<EventList>, x: Task, l: EventList)
    requires s.Inv() && x in s.tcbs && s.IsBlocked(x) && (l == PendingReady ==> s.suspended > 0)
    requires e.Consistent() && e.lists.Keys == s.event.lists.Keys && e.place == s.event.place[x := l]
    ensures s.(event := e).Inv() && OnlyMoves(s, s.(event := e), x)
    ensures Where(s.(event := e), x) == Where(s, x)
  {
    HoldKeepsCore(s, e, x, l);
    SamePlace(s, s.(event := e));
    hide Roster.Consistent, Sched.ReadyListsMatch, Sched.DelaysSorted, Sched.EventWaitersBlocked,
         Sched.Timely, Sched.Settled, OnlyMoves, Where, Sched.Now;
    SameButOneMoved(s, s.(event := e), x);
  }

  lemma ResumeFromISRSafe(s: Sched, x: Task)
    requires s.Inv() && x in s.tcbs
    ensures var r := ResumeFromISR(s, x); r.Inv() && OnlyMoves(s, r, x)
    ensures IsSuspended(s, x) ==>
              if s.suspended == 0 then ResumeFromISR(s, x).state.place[x] == Ready(s.tcbs[x].priority)
              else Pending(ResumeFromISR(s, x), x)
  {
    hide Roster.Consistent, MoveTask, Sched.ReadyListsMatch, Sched.DelaysSorted, Sched.EventWaitersBlocked,
         Sched.Timely, Sched.Settled, OnlyMoves, Roster.PutEnd;
    NothingMoves(s, x);
    if IsSuspended(s, x) {
      if s.suspended == 0 {
        ReadySafe(s, x);
      } else {
        HoldSafe(s, s.event.PutEnd(PendingReady, x), x, PendingReady);
      }
    }
  }

  lemma AbortDelaySafe(s: Sched, x: Task)
    requires s.Inv() && x in s.tcbs
    ensures var r := AbortDelay(s, x); r.Inv() && OnlyMoves(s, r, x)
    ensures IsWaiting(s, x) ==>
              && AbortDelay(s, x).state.place[x] == Ready(s.tcbs[x].priority) && x !in AbortDelay(s, x).event.place
              && (x in s.event.place ==> AbortDelay(s, x).tcbs[x].delayAborted)
  {
    hide Roster.Consistent, MoveTask, DropEvent, Sched.ReadyListsMatch, Sched.DelaysSorted, Sched.EventWaitersBlocked,
         Sched.Timely, Sched.Settled, OnlyMoves;
    NothingMoves(s, x);
    if IsWaiting(s, x) {
      var tcb := s.tcbs[x].(delayAborted := s.tcbs[x].delayAborted || x in s.event.place);
      var d := DropEvent(s, x);
      DropEventKeepsInv(s, x);
      MoveKeepsInv(d, x, Ready(tcb.priority), tcb);
      var m := MoveTask(d, x, Ready(tcb.priority), tcb);
      TwoMoves(s, d, m, x);
      YieldKeepsInv(s, m, s.yieldPending || tcb.priority > s.tcbs[s.current].priority, x);
    }
  }

  lemma WaiterIsBlocked(s: Sched, x: Task)
    requires s.Core() && x in s.event.place
    ensures x in s.tcbs && x in s.state.place && s.IsBlocked(x) && Movable(s, x)
  {
  }

  lemma UnblockSafe(s: Sched, x: Task)
    requires s.Inv() && Movable(s, x)
    ensures s.Unblock(x).Inv() && OnlyMoves(s, s.Unblock(x), x)
  {
    hide Roster.Consistent, Sched.Unblock, Sched.ReadyListsMatch, Sched.DelaysSorted, Sched.EventWaitersBlocked;
    s.UnblockKeepsCore(x);
    UnblockedEvents(s, x);
    SameButOneMoved(s, s.Unblock(x), x);
  }

  lemma UnblockedEvents(s: Sched, x: Task)
    requires s.Shape() && x in s.tcbs
    ensures forall y :: y in s.Unblock(x).event.place ==> s.Unblock(x).event.place[y] == s.event.place[y]
  {
    hide Roster.Consistent, Roster.Move;
  }

  /** The head of the event list is made ready, or held back while the scheduler is suspended. */
  lemma RemoveFromEventListSafe(s: Sched, e: EventList)
    requires s.Inv() && e in s.event.lists && s.event.lists[e].items != []
    ensures var r, x := RemoveFromEventList(s, e), s.event.lists[e].items[0];
      && r.Inv() && OnlyMoves(s, r, x) && x in s.tcbs
      && if s.suspended == 0 then r.state.place[x] == Ready(s.tcbs[x].priority) && x !in r.event.place
         else Pending(r, x) && Where(r, x) == Where(s, x)
  {
    hide Roster.Consistent, HoldBack, Sched.Unblock, Sched.ReadyListsMatch, Sched.DelaysSorted,
         Sched.EventWaitersBlocked, Sched.Timely, Sched.Settled, OnlyMoves;
    EventHead(s, e);
    var x := s.event.lists[e].items[0];
    WaiterIsBlocked(s, x);
    if s.suspended == 0 {
      UnblockSafe(s, x);
    } else {
      HeldEvents(s, x);
      HoldSafe(s, HoldBack(s, x).event, x, PendingReady);
    }
    var m := if s.suspended == 0 then s.Unblock(x) else HoldBack(s, x);
    YieldKeepsInv(s, m, RemoveFromEventList(s, e).yieldPending, x);
  }

  lemma HeldEvents(s: Sched, x: Task)
    requires s.Shape() && x in s.event.place
    ensures HoldBack(s, x).event.Consistent() && HoldBack(s, x).event.lists.Keys == s.event.lists.Keys
  {
    hide Roster.Consistent, Roster.Move;
  }

  lemma RemoveFromUnorderedSafe(s: Sched, x: Task, v: Tick)
    requires s.Inv() && x in s.event.place
    ensures var r := RemoveFromUnordered(s, x, v);
      && r.Inv() && OnlyMoves(s, r, x) && x in s.tcbs
      && r.state.place[x] == Ready(s.tcbs[x].priority) && x !in r.event.place && r.tcbs[x].eventValue == OrInUse(v)
  {
    hide Roster.Consistent, MoveTask, DropEvent, Sched.ReadyListsMatch, Sched.DelaysSorted, Sched.EventWaitersBlocked,
         Sched.Timely, Sched.Settled, OnlyMoves;
    WaiterIsBlocked(s, x);
    var tcb := s.tcbs[x].(eventValue := OrInUse(v));
    var d := DropEvent(s, x);
    DropEventKeepsInv(s, x);
    MoveKeepsInv(d, x, Ready(tcb.priority), tcb);
    var m := MoveTask(d, x, Ready(tcb.priority), tcb);
    TwoMoves(s, d, m, x);
    YieldKeepsInv(s, m, s.yieldPending || tcb.priority > s.tcbs[s.current].priority, x);
  }

  // ----- priorities -----

  lemma SetTcbOnly(s: Sched, x: Task, tcb: Tcb)
    requires s.Shape() && x in s.tcbs && tcb.priority < MAX_PRIORITIES && tcb.basePriority < MAX_PRIORITIES
    ensures SetTcb(s, x, tcb) == s.(tcbs := s.tcbs[x := tcb])
    ensures s.state.place == s.state.place[x := s.state.place[x]]
  {
  }

  /** What a change of control block and ready list leaves alone. */
  ghost predicate Requeued(s: Sched, r: Sched, x: Task, tcb: Tcb)
    requires x in s.state.place
  {
    && r.tcbs == s.tcbs[x := tcb] && r == s.(state := r.state, tcbs := r.tcbs, topReady := r.topReady)
    && r.state.place == s.state.place[x := if s.state.place[x].Ready? then Ready(tcb.priority) else s.state.place[x]]
  }

  lemma MovedToNewList(s: Sched, x: Task, tcb: Tcb)
    requires s.Inv() && x in s.tcbs && tcb.priority < MAX_PRIORITIES && tcb.basePriority < MAX_PRIORITIES
    requires tcb.wake == s.tcbs[x].wake && s.state.place[x].Ready?
    ensures var r := MoveTask(s, x, Ready(tcb.priority), tcb); r.Inv() && OnlyMoves(s, r, x) && Requeued(s, r, x, tcb)
  {
    ReadyIsMatched(s, x);
    hide Roster.Consistent, MoveTask, Sched.ReadyListsMatch, Sched.DelaysSorted, Sched.EventWaitersBlocked,
         Sched.Timely, Sched.Settled, OnlyMoves;
    MoveKeepsInv(s, x, Ready(tcb.priority), tcb);
  }

  lemma SetInPlace(s: Sched, x: Task, tcb: Tcb)
    requires s.Inv() && x in s.tcbs && tcb.priority < MAX_PRIORITIES && tcb.basePriority < MAX_PRIORITIES
    requires tcb.wake == s.tcbs[x].wake && (s.state.place[x].Ready? ==> tcb.priority == s.tcbs[x].priority)
    ensures var r := SetTcb(s, x, tcb); r.Inv() && OnlyMoves(s, r, x) && Requeued(s, r, x, tcb)
  {
    ReadyIsMatched(s, x);
    hide Roster.Consistent, SetTcb, Sched.ReadyListsMatch, Sched.DelaysSorted, Sched.EventWaitersBlocked,
         Sched.Timely, Sched.Settled, OnlyMoves;
    SetTcbKeepsInv(s, x, tcb);
    SetTcbOnly(s, x, tcb);
  }

  /** A change of priority keeps a ready task in the ready list of its priority, and leaves anybody else
      where they are. */
  lemma RequeueSafe(s: Sched, x: Task, tcb: Tcb)
    requires s.Inv() && x in s.tcbs && tcb.priority < MAX_PRIORITIES && tcb.basePriority < MAX_PRIORITIES
    requires tcb.wake == s.tcbs[x].wake
    ensures var r := Requeue(s, x, tcb); r.Inv() && OnlyMoves(s, r, x) && Requeued(s, r, x, tcb)
  {
    ReadyIsMatched(s, x);
    hide Roster.Consistent, MoveTask, SetTcb, Sched.ReadyListsMatch, Sched.DelaysSorted, Sched.EventWaitersBlocked,
         Sched.Timely, Sched.Settled, OnlyMoves, Requeued;
    if s.state.place[x].Ready? {
      MovedToNewList(s, x, tcb);
    } else {
      SetInPlace(s, x, tcb);
    }
  }

  lemma ReadyIsMatched(s: Sched, x: Task)
    requires s.Core() && x in s.tcbs
    ensures s.state.place[x].Ready? ==> s.state.place[x] == Ready(s.tcbs[x].priority) && x !in s.event.place
  {
    hide Roster.Consistent;
  }

  lemma PrioritySetSafe(s: Sched, x: Task, p: nat)
    requires s.Inv() && x in s.tcbs
    ensures var r := PrioritySet(s, x, p);
      && r.Inv() && OnlyMoves(s, r, x) && x in r.tcbs
      && r.tcbs[x].basePriority == (if p < MAX_PRIORITIES then p else MAX_PRIORITIES - 1)
      && (s.tcbs[x].priority == s.tcbs[x].basePriority ==> r.tcbs[x].priority == r.tcbs[x].basePriority)
      && (s.tcbs[x].priority != s.tcbs[x].basePriority ==> r.tcbs[x].priority == s.tcbs[x].priority)
  {
    hide Roster.Consistent, Requeue, Sched.ReadyListsMatch, Sched.DelaysSorted, Sched.EventWaitersBlocked,
         Sched.Timely, Sched.Settled, OnlyMoves;
    NothingMoves(s, x);
    var q := if p >= MAX_PRIORITIES then MAX_PRIORITIES - 1 else p;
    var tcb := s.tcbs[x];
    RequeueSafe(s, x, tcb.(priority := if tcb.basePriority == tcb.priority then q else tcb.priority,
                           basePriority := q, eventValue := EventValueFor(tcb, q)));
  }

  /** After inheritance the holder runs at no less than the running task's priority. */
  lemma InheritSafe(s: Sched, holder: Task)
    requires s.Inv() && holder in s.tcbs
    ensures var r := Inherit(s, holder);
      && r.Inv() && OnlyMoves(s, r, holder) && r.tcbs.Keys == s.tcbs.Keys
      && r.tcbs[holder].priority == Max(s.tcbs[holder].priority, s.tcbs[s.current].priority)
      && r.tcbs[holder] == s.tcbs[holder].(priority := r.tcbs[holder].priority, eventValue := r.tcbs[holder].eventValue)
      && r.event == s.event && r.current == s.current
      && r == s.(state := r.state, tcbs := r.tcbs, topReady := r.topReady)
      && (s.state.place[holder].Ready? ==> r.state.place[holder].Ready?)
  {
    hide Roster.Consistent, Requeue, Sched.ReadyListsMatch, Sched.DelaysSorted, Sched.EventWaitersBlocked,
         Sched.Timely, Sched.Settled, OnlyMoves;
    NothingMoves(s, holder);
    var tcb, p := s.tcbs[holder], s.tcbs[s.current].priority;
    RequeueSafe(s, holder, tcb.(priority := Max(tcb.priority, p), eventValue := EventValueFor(tcb, p)));
  }

  lemma IncrementHeldSafe(s: Sched)
    requires s.Inv()
    ensures var r := IncrementHeld(s); r.Inv() && OnlyMoves(s, r, s.current)
  {
    hide Roster.Consistent, SetTcb, Sched.ReadyListsMatch, Sched.DelaysSorted, Sched.EventWaitersBlocked,
         Sched.Timely, Sched.Settled, OnlyMoves;
    SetTcbKeepsInv(s, s.current, s.tcbs[s.current].(mutexesHeld := s.tcbs[s.current].mutexesHeld + 1));
  }

  lemma ResetItemSafe(s: Sched)
    requires s.Inv()
    ensures var r, x := ResetEventItem(s), s.current;
      && r.Inv() && OnlyMoves(s, r, x) && x in r.tcbs
      && r.tcbs[x].eventValue == MAX_PRIORITIES - s.tcbs[x].priority
  {
    hide Roster.Consistent, SetTcb, Sched.ReadyListsMatch, Sched.DelaysSorted, Sched.EventWaitersBlocked,
         Sched.Timely, Sched.Settled, OnlyMoves;
    var tcb := s.tcbs[s.current].(eventValue := MAX_PRIORITIES - s.tcbs[s.current].priority);
    SetTcbKeepsInv(s, s.current, tcb);
    SetTcbOnly(s, s.current, tcb);
  }

  lemma AfterCheckSafe(s: Sched)
    requires s.Inv()
    ensures AfterCheck(s).Inv() && OnlyMoves(s, AfterCheck(s), s.current)
  {
    hide Roster.Consistent, SetTcb, Sched.ReadyListsMatch, Sched.DelaysSorted, Sched.EventWaitersBlocked,
         Sched.Timely, Sched.Settled, OnlyMoves;
    NothingMoves(s, s.current);
    SetTcbKeepsInv(s, s.current, s.tcbs[s.current].(delayAborted := false));
  }

  /** The holder's control block after giving a mutex back: the last one restores the base priority. */
  function Disinherited(tcb: Tcb): Tcb
    requires tcb.mutexesHeld > 0 && tcb.basePriority < MAX_PRIORITIES
  {
    var t := tcb.(mutexesHeld := tcb.mutexesHeld - 1);
    if t.mutexesHeld == 0 && t.priority != t.basePriority
    then t.(priority := t.basePriority, eventValue := MAX_PRIORITIES - t.basePriority) else t
  }

  lemma DisinheritSafe(s: Sched)
    requires s.Inv() && s.tcbs[s.current].mutexesHeld > 0 && s.state.place[s.current].Ready?
    ensures var r, x := Disinherit(s), s.current;
      r.Inv() && OnlyMoves(s, r, x) && Requeued(s, r, x, Disinherited(s.tcbs[x]))
  {
    hide Sched.Core, Sched.Shape, MoveTask, SetTcb, Sched.Timely, Sched.Settled, OnlyMoves, Requeued;
    InvShape(s);
    s.ListsKnown();
    var x := s.current;
    var tcb := Disinherited(s.tcbs[x]);
    if s.tcbs[x].priority != s.tcbs[x].basePriority && tcb.mutexesHeld == 0 {
      MovedToNewList(s, x, tcb);
    } else {
      SetInPlace(s, x, tcb);
    }
  }

  /** After a timeout a holder of one mutex runs at the greater of its base priority and the highest
      priority still waiting; a holder of several keeps its priority. */
  lemma DisinheritAfterTimeoutSafe(s: Sched, holder: Task, highest: nat)
    requires s.Inv() && holder in s.tcbs && highest < MAX_PRIORITIES
    ensures var r := DisinheritAfterTimeout(s, holder, highest);
      && r.Inv() && OnlyMoves(s, r, holder) && r.tcbs.Keys == s.tcbs.Keys
      && r.event == s.event && r.current == s.current
      && r.tcbs[holder].priority ==
           (if s.tcbs[holder].mutexesHeld == 1 then Max(s.tcbs[holder].basePriority, highest)
            else s.tcbs[holder].priority)
      && r.tcbs[holder] == s.tcbs[holder].(priority := r.tcbs[holder].priority, eventValue := r.tcbs[holder].eventValue)
      && r == s.(state := r.state, tcbs := r.tcbs, topReady := r.topReady)
      && (s.state.place[holder].Ready? ==> r.state.place[holder].Ready?)
  {
    hide Sched.Core, Sched.Shape, Requeue, Sched.Timely, Sched.Settled, OnlyMoves, Requeued;
    InvShape(s);
    s.TaskKnown(holder);
    var tcb := s.tcbs[holder];
    var p := if tcb.basePriority < highest then highest else tcb.basePriority;
    if tcb.priority == p || tcb.mutexesHeld != 1 {
      Unchanged(s, holder);
    } else {
      var after := tcb.(priority := p, eventValue := EventValueFor(tcb, p));
      RequeueSafe(s, holder, after);
      RequeuedFacts(s, Requeue(s, holder, after), holder, after);
    }
  }

  lemma Unchanged(s: Sched, x: Task)
    requires s.Shape()
    ensures OnlyMoves(s, s, x) && s == s.(state := s.state, tcbs := s.tcbs, topReady := s.topReady)
  {
    NothingMoves(s, x);
  }

  lemma RequeuedFacts(s: Sched, r: Sched, x: Task, tcb: Tcb)
    requires x in s.tcbs && x in s.state.place && Requeued(s, r, x, tcb)
    ensures r.tcbs.Keys == s.tcbs.Keys && r.event == s.event && r.current == s.current && r.tcbs[x] == tcb
    ensures r == s.(state := r.state, tcbs := r.tcbs, topReady := r.topReady)
    ensures x in r.state.place && (s.state.place[x].Ready? ==> r.state.place[x].Ready?)
  {
  }

  // ----- blocking -----

  lemma BlockForeverIsMove(s: Sched)
    requires s.Shape()
    ensures BlockForever(s) == MoveTask(s, s.current, SuspendedTasks, s.tcbs[s.current].(delayAborted := false))
  {
    hide Roster.Consistent;
  }

  lemma BlockForeverSafe(s: Sched)
    requires s.Inv() && s.state.place[s.current].Ready? && s.current != IDLE
    ensures var r, x := BlockForever(s), s.current;
      r.Inv() && OnlyMoves(s, r, x) && r.state.place[x] == SuspendedTasks && Where(r, x) == At(SuspendedTasks)
  {
    hide Roster.Consistent, MoveTask, BlockForever, Sched.ReadyListsMatch, Sched.DelaysSorted,
         Sched.EventWaitersBlocked,
         Sched.Timely, Sched.Settled, OnlyMoves;
    BlockForeverIsMove(s);
    MoveKeepsInv(s, s.current, SuspendedTasks, s.tcbs[s.current].(delayAborted := false));
  }

  /** The running task blocks for exactly d ticks, or until something else wakes it. */
  lemma BlockSafe(s: Sched, d: Tick, indefinite: bool)
    requires s.Inv() && s.state.place[s.current].Ready? && s.current != IDLE && d > 0
    ensures var r, x := BlockCurrent(s, d, indefinite), s.current;
      && r.Inv() && OnlyMoves(s, r, x) && x in r.tcbs && r.IsBlocked(x)
      && Where(r, x) == if d == MAX_DELAY && indefinite then At(SuspendedTasks) else Until(s.Now() + d)
  {
    if d == MAX_DELAY && indefinite {
      BlockForeverSafe(s);
    } else {
      BlockUntilSafe(s, d);
    }
  }

  lemma BlockUntilSafe(s: Sched, d: Tick)
    requires s.Inv() && s.state.place[s.current].Ready? && s.current != IDLE && d > 0
    ensures var r, x := BlockUntil(s, Plus(s.tick, d)), s.current;
      r.Inv() && OnlyMoves(s, r, x) && x in r.tcbs && r.IsBlocked(x) && Where(r, x) == Until(s.Now() + d)
  {
    hide Roster.Consistent, BlockUntil, Sched.ReadyListsMatch, Sched.DelaysSorted, Sched.EventWaitersBlocked,
         Sched.Timely, Where;
    BlockUntilCore(s, Plus(s.tick, d));
    BlockUntilFrame(s, Plus(s.tick, d));
    BlockUntilEffect(s, d);
  }

  function EventValues(tcbs: map<Task, Tcb>, items: seq<Task>): (v: seq<Tick>)
    requires forall x :: x in items ==> x in tcbs
    ensures |v| == |items| && forall i :: 0 <= i < |v| ==> v[i] == tcbs[items[i]].eventValue
  {
    seq(|items|, i requires 0 <= i < |items| => tcbs[items[i]].eventValue)
  }

  lemma OnEventListHasTcb(s: Sched, e: EventList)
    requires s.Shape() && e in s.event.lists
    ensures forall x :: x in s.event.lists[e].items ==> x in s.tcbs
  {
  }

  /** vTaskPlaceOnEventList */
  function PlaceOnEventList(s: Sched, e: EventList, d: Tick): (r: Sched)
    requires s.Shape() && e in s.event.lists && s.current !in s.event.place
    ensures r.Shape()
  {
    OnEventListHasTcb(s, e);
    hide Roster.Consistent, Roster.PutSorted;
    var values := EventValues(s.tcbs, s.event.lists[e].items);
    BlockCurrent(s.(event := s.event.PutSorted(e, s.current, s.tcbs[s.current].eventValue, values)), d, true)
  }

  /** vTaskPlaceOnUnorderedEventList */
  function PlaceOnUnordered(s: Sched, e: EventList, v: Tick, d: Tick): (r: Sched)
    requires s.Shape() && e in s.event.lists && s.current !in s.event.place
    ensures r.Shape()
  {
    hide Roster.Consistent, Roster.PutEnd;
    BlockCurrent(SetTcb(s, s.current, s.tcbs[s.current].(eventValue := OrInUse(v)))
                 .(event := s.event.PutEnd(e, s.current)), d, true)
  }

  /** Blocking does not look at event lists. */
  lemma BlockIgnoresEvents(s: Sched, e: Roster<EventList>, d: Tick, indefinite: bool)
    requires s.Shape() && s.(event := e).Shape()
    ensures BlockCurrent(s.(event := e), d, indefinite) == BlockCurrent(s, d, indefinite).(event := e)
    ensures BlockCurrent(s, d, indefinite).event == s.event
  {
    hide Roster.Consistent;
  }

  lemma PlaceOnListSafe(s: Sched, e: Roster<EventList>, l: EventList, d: Tick)
    requires s.Inv() && s.state.place[s.current].Ready? && s.current != IDLE && d > 0 && l != PendingReady
    requires e.Consistent() && e.lists.Keys == s.event.lists.Keys && e.place == s.event.place[s.current := l]
    ensures s.(event := e).Shape()
    ensures var r, x := BlockCurrent(s.(event := e), d, true), s.current;
      && r.Inv() && OnlyMoves(s, r, x) && r.event == e
      && Where(r, x) == if d == MAX_DELAY then At(SuspendedTasks) else Until(s.Now() + d)
  {
    hide Roster.Consistent, BlockCurrent, Sched.ReadyListsMatch, Sched.DelaysSorted, Sched.EventWaitersBlocked,
         Sched.Timely, Sched.Settled, OnlyMoves, Where;
    var b := BlockCurrent(s, d, true);
    BlockIgnoresEvents(s, e, d, true);
    BlockSafe(s, d, true);
    HoldSafe(b, e, s.current, l);
    TwoMoves(s, b, b.(event := e), s.current);
  }

  lemma PlaceOnEventListSafe(s: Sched, e: EventList, d: Tick)
    requires s.Inv() && s.state.place[s.current].Ready? && s.current != IDLE && d > 0
    requires e.Waiting? && e in s.event.lists
    ensures s.current !in s.event.place
    ensures var r, x := PlaceOnEventList(s, e, d), s.current;
      && r.Inv() && OnlyMoves(s, r, x) && x in r.event.place && r.event.place[x] == e
      && Where(r, x) == if d == MAX_DELAY then At(SuspendedTasks) else Until(s.Now() + d)
  {
    ReadyIsMatched(s, s.current);
    OnEventListHasTcb(s, e);
    hide Roster.Consistent, Roster.PutSorted, BlockCurrent, Sched.ReadyListsMatch, Sched.DelaysSorted,
         Sched.EventWaitersBlocked, Sched.Timely, Sched.Settled, OnlyMoves, Where;
    var values := EventValues(s.tcbs, s.event.lists[e].items);
    PlaceOnListSafe(s, s.event.PutSorted(e, s.current, s.tcbs[s.current].eventValue, values), e, d);
  }

  lemma MarkedSafe(s: Sched, v: Tick)
    requires s.Inv() && s.state.place[s.current].Ready?
    ensures s.current !in s.event.place
    ensures var t := SetTcb(s, s.current, s.tcbs[s.current].(eventValue := OrInUse(v)));
      && t.Inv() && OnlyMoves(s, t, s.current) && t.state == s.state && t.event == s.event && t.current == s.current
      && t.Now() == s.Now()
  {
    ReadyIsMatched(s, s.current);
    hide Roster.Consistent, SetTcb, Sched.ReadyListsMatch, Sched.DelaysSorted, Sched.EventWaitersBlocked,
         Sched.Timely, Sched.Settled, OnlyMoves;
    var tcb := s.tcbs[s.current].(eventValue := OrInUse(v));
    SetTcbKeepsInv(s, s.current, tcb);
    SetTcbOnly(s, s.current, tcb);
  }

  lemma PlaceOnUnorderedSafe(s: Sched, e: EventList, v: Tick, d: Tick)
    requires s.Inv() && s.state.place[s.current].Ready? && s.current != IDLE && d > 0
    requires e.Waiting? && e in s.event.lists
    ensures s.current !in s.event.place
    ensures var r, x := PlaceOnUnordered(s, e, v, d), s.current;
      && r.Inv() && OnlyMoves(s, r, x) && x in r.event.place && r.event.place[x] == e
      && Where(r, x) == if d == MAX_DELAY then At(SuspendedTasks) else Until(s.Now() + d)
  {
    hide Roster.Consistent, Roster.PutEnd, SetTcb, BlockCurrent, Sched.ReadyListsMatch, Sched.DelaysSorted,
         Sched.EventWaitersBlocked, Sched.Timely, Sched.Settled, OnlyMoves, Where, Sched.Now;
    MarkedSafe(s, v);
    var t := SetTcb(s, s.current, s.tcbs[s.current].(eventValue := OrInUse(v)));
    PlaceOnListSafe(t, s.event.PutEnd(e, s.current), e, d);
    TwoMoves(s, t, PlaceOnUnordered(s, e, v, d), s.current);
  }

  // ----- birth and death -----

  lemma NewTaskInOrder(tcbs: map<Task, Tcb>, items: seq<Task>, x: Task, tcb: Tcb)
    requires InWakeOrder(tcbs, items) && x !in tcbs
    ensures InWakeOrder(tcbs[x := tcb], items)
  {
    ElsewhereInOrder(tcbs, items, x, tcb);
  }

  lemma CreateKeepsCore(s: Sched, x: Task, priority: nat)
    requires s.Core() && x !in s.tcbs
    ensures Create(s, x, priority).Core()
  {
    hide Roster.Consistent, Roster.PutEnd, InWakeOrder;
    var r := Create(s, x, priority);
    NewTaskInOrder(s.tcbs, s.state.lists[Delayed1].items, x, r.tcbs[x]);
    NewTaskInOrder(s.tcbs, s.state.lists[Delayed2].items, x, r.tcbs[x]);
    assert r.tcbs.Keys == s.tcbs.Keys + {x};
  }

  lemma CreateSafe(s: Sched, x: Task, priority: nat)
    requires s.Inv() && x !in s.tcbs
    ensures var r := Create(s, x, priority); r.Inv() && OnlyMoves(s, r, x)
  {
    CreateKeepsCore(s, x, priority);
    hide Roster.Consistent, Roster.PutEnd, Sched.ReadyListsMatch, Sched.DelaysSorted, Sched.EventWaitersBlocked;
    SameButOneMoved(s, Create(s, x, priority), x);
  }

  /** Core, given that the two states agree on every task but x and the delayed lists are in order. */
  lemma CoreFrom(s: Sched, r: Sched, x: Task)
    requires s.Core() && r.Shape() && SameBut(s, r, x) && r.DelaysSorted() && r.topReady == s.topReady && x != IDLE
    requires x in r.tcbs ==> !r.state.place[x].Ready? && x !in r.event.place
    requires r.numberOfTasks == |r.tcbs| && r.deletedTasks == |r.state.lists[WaitingTermination].items|
    ensures r.Core()
  {
    hide Roster.Consistent, Sched.DelaysSorted;
  }

  lemma ForgetSameBut(s: Sched, x: Task)
    requires s.Shape() && x in s.tcbs && x != s.current && s.numberOfTasks > 0
    ensures SameBut(s, Forget(s, x), x) && x !in Forget(s, x).tcbs
  {
    hide Roster.Consistent, Roster.Take, Roster.TakeIfPlaced;
    OtherEventsStay(s, x);
  }

  lemma OtherEventsStay(s: Sched, x: Task)
    requires s.event.Consistent()
    ensures s.event.TakeIfPlaced(x).place == s.event.place - {x}
  {
    hide Roster.Consistent, Roster.Take;
  }

  lemma ForgetDelays(s: Sched, x: Task)
    requires s.Shape() && s.DelaysSorted() && x in s.tcbs && x != s.current && s.numberOfTasks > 0
    ensures Forget(s, x).DelaysSorted()
  {
    hide Roster.Consistent, Roster.Take, Roster.TakeIfPlaced, InWakeOrder;
    ForgottenInOrder(s, x, Delayed1);
    ForgottenInOrder(s, x, Delayed2);
  }

  lemma ForgetKeepsCore(s: Sched, x: Task)
    requires s.Core() && x in s.tcbs && x != s.current && x != IDLE && s.state.place[x] != WaitingTermination
    ensures s.numberOfTasks > 0 && Forget(s, x).Core()
  {
    hide Roster.Consistent, Roster.Take, Roster.TakeIfPlaced, Sched.ReadyListsMatch, Sched.EventWaitersBlocked,
         Sched.DelaysSorted, SameBut;
    ForgetNumbers(s);
    ForgetSameBut(s, x);
    ForgetDelays(s, x);
    ForgottenList(s, x);
    SmallerByOne(s.tcbs, x);
    CoreFrom(s, Forget(s, x), x);
  }

  lemma SmallerByOne<K, V>(m: map<K, V>, x: K)
    requires x in m
    ensures |m - {x}| == |m| - 1
  {
    assert (m - {x}).Keys == m.Keys - {x};
  }

  lemma ForgottenList(s: Sched, x: Task)
    requires s.Shape() && x in s.tcbs && x != s.current && s.numberOfTasks > 0
    ensures WaitingTermination in Forget(s, x).state.lists
    ensures var m, items := WaitingTermination, s.state.lists[WaitingTermination].items;
      |Forget(s, x).state.lists[m].items| == if m == s.state.place[x] then |items| - 1 else |items|
  {
    assert s.state.place[x] == WaitingTermination ==> x in s.state.lists[WaitingTermination].items;
    hide Roster.Consistent, Roster.Take;
  }

  lemma SmallerMapInOrder(tcbs: map<Task, Tcb>, items: seq<Task>, x: Task)
    requires InWakeOrder(tcbs, items) && x !in items
    ensures InWakeOrder(tcbs - {x}, items)
  {
    assert Wakes(tcbs - {x}, items) == Wakes(tcbs, items);
  }

  lemma ForgottenInOrder(s: Sched, x: Task, m: StateList)
    requires s.Shape() && x in s.tcbs && x != s.current && s.numberOfTasks > 0
    requires m in {Delayed1, Delayed2} && InWakeOrder(s.tcbs, s.state.lists[m].items)
    ensures m in Forget(s, x).state.lists
    ensures InWakeOrder(s.tcbs - {x}, Forget(s, x).state.lists[m].items)
  {
    hide InWakeOrder;
    WithoutInOrder(s.tcbs, s.state.lists[m].items, x);
    var r := Forget(s, x);
    assert x !in r.state.place;
    hide Roster.Take, Without;
    SmallerMapInOrder(s.tcbs, r.state.lists[m].items, x);
  }

  lemma ForgetSafe(s: Sched, x: Task)
    requires s.Inv() && x in s.tcbs && x != s.current && x != IDLE && s.state.place[x] != WaitingTermination
    ensures s.numberOfTasks > 0
    ensures var r := Forget(s, x).ResetUnblockTime(); r.Inv() && OnlyMoves(s, r, x)
  {
    hide Sched.Core, Sched.Shape, Forget, Sched.Timely, Sched.Settled, Sched.ResetUnblockTime, SameBut, OnlyMoves;
    ForgetKeepsCore(s, x);
    InvShape(s);
    var f := Forget(s, x);
    ForgetSameBut(s, x);
    ForgottenSettled(s, f, x);
    f.CoreShape();
    ResetKeepsTimely(f);
    ResetOnly(f);
    ResetMoves(s, f, f.ResetUnblockTime(), x);
  }

  lemma ForgottenSettled(s: Sched, f: Sched, x: Task)
    requires SameBut(s, f, x) && x !in f.tcbs && s.Timely() && s.Settled()
    ensures f.Timely() && f.Settled() && OnlyMoves(s, f, x)
  {
    SameButOneMoved(s, f, x);
  }

  lemma ResetOnly(f: Sched)
    requires f.Shape()
    ensures f.ResetUnblockTime() == f.(nextUnblock := f.ResetUnblockTime().nextUnblock)
  {
    hide Sched.Shape;
  }

  lemma ResetMoves(s: Sched, f: Sched, r: Sched, x: Task)
    requires OnlyMoves(s, f, x) && r == f.(nextUnblock := r.nextUnblock) && f.Settled()
    ensures OnlyMoves(s, r, x) && r.Settled()
  {
    SamePlace(f, r);
    hide Where, Sched.Now;
    assert forall z :: z in s.tcbs && z != x ==> Untouched(s, f, z);
  }

  lemma TerminateDelays(s: Sched, x: Task)
    requires s.Shape() && s.DelaysSorted() && x in s.tcbs
    ensures MoveTask(s, x, WaitingTermination, s.tcbs[x]).DelaysSorted()
  {
    hide Roster.Consistent, MoveTask, InWakeOrder;
    MovedInOrder(s, x, WaitingTermination, s.tcbs[x], Delayed1);
    MovedInOrder(s, x, WaitingTermination, s.tcbs[x], Delayed2);
  }

  lemma TerminateKeepsCore(s: Sched, x: Task)
    requires s.Core() && Movable(s, x) && x != IDLE && x !in s.event.place
    ensures MoveTask(s, x, WaitingTermination, s.tcbs[x]).(deletedTasks := s.deletedTasks + 1).Core()
  {
    TerminatedFacts(s, x);
    hide Sched.Shape, MoveTask, InWakeOrder, Sched.ReadyListsMatch, Sched.EventWaitersBlocked, Sched.DelaysSorted;
    TerminateDelays(s, x);
    CoreFrom(s, MoveTask(s, x, WaitingTermination, s.tcbs[x]).(deletedTasks := s.deletedTasks + 1), x);
  }

  lemma TerminatedFacts(s: Sched, x: Task)
    requires s.Core() && Movable(s, x)
    ensures var m := MoveTask(s, x, WaitingTermination, s.tcbs[x]);
      var r := m.(deletedTasks := s.deletedTasks + 1);
      && r.Shape() && SameBut(s, r, x) && r.topReady == s.topReady && r.numberOfTasks == |r.tcbs|
      && r.state.place[x] == WaitingTermination && r.event == s.event && x in r.tcbs
      && r.deletedTasks == |r.state.lists[WaitingTermination].items|
      && (m.DelaysSorted() ==> r.DelaysSorted())
  {
    hide Roster.Consistent, MoveTask, InWakeOrder, Sched.ReadyListsMatch, Sched.EventWaitersBlocked;
    TerminatedList(s, x);
    SameSize(s.tcbs, x, s.tcbs[x]);
    MoveTop(s, x, WaitingTermination);
  }

  lemma MoveTop(s: Sched, x: Task, l: StateList)
    requires s.Shape() && x in s.tcbs && l in s.state.lists && !l.Ready?
    ensures MoveTask(s, x, l, s.tcbs[x]).topReady == s.topReady
  {
  }

  lemma TerminatedList(s: Sched, x: Task)
    requires s.Shape() && Movable(s, x)
    ensures var r := MoveTask(s, x, WaitingTermination, s.tcbs[x]);
      && WaitingTermination in r.state.lists
      && |r.state.lists[WaitingTermination].items| == |s.state.lists[WaitingTermination].items| + 1
  {
    hide Roster.Consistent, Roster.Move;
    s.state.MoveGrows(x, WaitingTermination);
  }

  lemma DeleteSafe(s: Sched, x: Task)
    requires s.Inv() && Movable(s, x) && x != IDLE
    ensures s.numberOfTasks > 0
    ensures var r := Delete(s, x);
      && r.Inv() && OnlyMoves(s, r, x)
      && r.numberOfTasks - r.deletedTasks == s.numberOfTasks - s.deletedTasks - 1
  {
    ForgetNumbers(s);
    if x == s.current {
      DeleteSelfSafe(s);
    } else {
      ForgetSafe(s, x);
    }
  }

  lemma ForgetNumbers(s: Sched)
    requires s.Core()
    ensures s.numberOfTasks > 0
  {
    assert IDLE in s.tcbs.Keys;
  }

  lemma DeleteSelfSafe(s: Sched)
    requires s.Inv() && Movable(s, s.current) && s.current != IDLE && s.numberOfTasks > 0
    ensures var r := Delete(s, s.current); r.Inv() && OnlyMoves(s, r, s.current)
  {
    var x := s.current;
    hide Roster.Consistent, MoveTask, DropEvent, Sched.ReadyListsMatch, Sched.DelaysSorted, Sched.EventWaitersBlocked,
         OnlyMoves;
    DropEventKeepsInv(s, x);
    var d := DropEvent(s, x);
    TerminateKeepsCore(d, x);
    SameButOneMoved(d, Delete(s, x), x);
    TwoMoves(s, d, Delete(s, x), x);
  }

  lemma CleanUpKeepsCore(s: Sched)
    requires s.Core() && s.current == IDLE && s.deletedTasks > 0
    ensures CleanUpOne(s).Core()
    ensures CleanUpOne(s).deletedTasks == s.deletedTasks - 1
  {
    hide Roster.Consistent, Roster.Take, Roster.TakeIfPlaced, Sched.ReadyListsMatch, Sched.EventWaitersBlocked,
         Sched.DelaysSorted, SameBut;
    DeletedHead(s);
    var x := s.state.lists[WaitingTermination].items[0];
    ForgetSameBut(s, x);
    ForgetDelays(s, x);
    ForgottenList(s, x);
    SmallerByOne(s.tcbs, x);
    Renumbered(s, Forget(s, x), CleanUpOne(s), x);
    CoreFrom(s, CleanUpOne(s), x);
  }

  lemma Renumbered(s: Sched, f: Sched, r: Sched, x: Task)
    requires SameBut(s, f, x) && f.Shape() && f.DelaysSorted() && r == f.(deletedTasks := r.deletedTasks)
    ensures r.Shape() && SameBut(s, r, x) && r.DelaysSorted()
  {
    hide Roster.Consistent, InWakeOrder;
  }

  lemma CleanUpSafe(s: Sched)
    requires s.Inv() && s.current == IDLE && s.deletedTasks > 0
    ensures s.state.lists[WaitingTermination].items != []
    ensures var r, x := CleanUpOne(s), s.state.lists[WaitingTermination].items[0];
      && r.Inv() && OnlyMoves(s, r, x) && x in s.tcbs && s.state.place[x] == WaitingTermination
  {
    CleanUpKeepsCore(s);
    DeletedHead(s);
    hide Roster.Consistent, Roster.Take, Roster.TakeIfPlaced, Sched.ReadyListsMatch, Sched.DelaysSorted,
         Sched.EventWaitersBlocked, OnlyMoves;
    SameButOneMoved(s, CleanUpOne(s), s.state.lists[WaitingTermination].items[0]);
  }
}
