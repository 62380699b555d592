/** Runs of the scheduler and its mutexes together. */
module MutexRuns {
  import opened Ticks
  import opened Rosters
  import opened Scheduler
  import opened SchedulerTime
  import opened SchedulerSuspension
  import opened SchedulerTasks
  import opened SchedulerSafety
  import opened SchedulerRuns
  import opened Mutexes

  // ----- what a kernel step does to the task it is about -----

  /** The control block keeps its rank; the event item keeps its value, is put to use, or stands for the
      priority again. */
  ghost predicate Kept(before: Tcb, after: Tcb) {
    && after.priority == before.priority && after.basePriority == before.basePriority
    && after.mutexesHeld == before.mutexesHeld
    && (|| after.eventValue == before.eventValue
        || after.eventValue >= VALUE_IN_USE
        || after.eventValue == MAX_PRIORITIES - after.priority)
  }

  /** configMAX_PRIORITIES - 1 at most. */
  function Clamped(p: nat): nat { if p < MAX_PRIORITIES then p else MAX_PRIORITIES - 1 }

  /** The control block after vTaskPrioritySet. */
  function Prioritised(tcb: Tcb, p: nat): Tcb {
    var base := Clamped(p);
    if tcb.basePriority == base then tcb
    else tcb.(priority := if tcb.basePriority == tcb.priority then base else tcb.priority, basePriority := base,
              eventValue := EventValueFor(tcb, base))
  }

  ghost predicate RankOk(a: Action, before: Tcb, after: Tcb) {
    if a.SetPriority? then after == Prioritised(before, a.priority) else Kept(before, after)
  }

  /** The task is on an event list for a reason: it was there before, or the step put it there. */
  ghost predicate EventOk(s: Sched, a: Action, r: Sched, x: Task) {
    x in r.event.place ==>
      || r.event.place[x] == PendingReady
      || (x in s.event.place && r.event.place[x] == s.event.place[x] && !a.RemoveUnordered? && !a.PlaceUnordered?)
      || (a.Place? && r.event.place[x] == a.e && x in r.tcbs && x in s.tcbs
          && r.tcbs[x].eventValue == s.tcbs[x].eventValue)
      || (a.PlaceUnordered? && r.event.place[x] == a.e)
  }

  ghost predicate TargetOk(s: Sched, a: Action, r: Sched, x: Task) {
    && x in s.tcbs && x in s.state.place
    && (x !in r.tcbs ==> a == DeleteTask(x) || (a == CleanUp && s.state.place[x] == WaitingTermination))
    && (x in r.tcbs ==>
          && RankOk(a, s.tcbs[x], r.tcbs[x]) && EventOk(s, a, r, x)
          && (r.tcbs[x].eventValue >= VALUE_IN_USE ==>
                s.tcbs[x].eventValue >= VALUE_IN_USE || a.PlaceUnordered? || a.RemoveUnordered?)
          && (x in r.state.place && r.state.place[x] == WaitingTermination ==>
                s.state.place[x] == WaitingTermination || a == DeleteTask(x)))
  }

  /** Steps after which the mutexes are still accounted for: locks and priorities change through the mutex
      operations only, their waiting lists are used by them only, and a holder is not deleted. */
  ghost predicate Allowed(sys: System, a: Action) {
    match a
    case InheritTo(_) => false
    case HoldMutex => false
    case GiveMutex => false
    case TimeOutOn(_, _) => false
    case Place(e, _) => e.Waiting? && e.id !in sys.mutexes
    case PlaceUnordered(e, _, _) => e.Waiting? && e.id !in sys.mutexes
    case DeleteTask(x) => x in sys.s.tcbs && sys.s.tcbs[x].mutexesHeld == 0
    case _ => true
  }

  /** The task is still there, with the same control block as far as accounting goes, and not newly
      terminated. */
  lemma SameRankTarget(s: Sched, a: Action, r: Sched, x: Task)
    requires x in s.tcbs && x in s.state.place && x in r.tcbs && x in r.state.place && !a.SetPriority?
    requires SameRank(s.tcbs[x], r.tcbs[x]) && EventOk(s, a, r, x)
    requires r.state.place[x] == WaitingTermination ==> s.state.place[x] == WaitingTermination || a == DeleteTask(x)
    ensures TargetOk(s, a, r, x)
  {
  }

  lemma BlockTarget(s: Sched, d: Tick, indefinite: bool)
    requires s.Inv() && Running(s)
    ensures TargetOk(s, Block(d, indefinite), BlockCurrent(s, d, indefinite), s.current)
  {
    hide Sched.Inv, BlockCurrent, TargetOk, Roster.Consistent, Running;
    InvShape(s);
    RunningFacts(s);
    BlockFrame(s, d, indefinite);
    SameRankTarget(s, Block(d, indefinite), BlockCurrent(s, d, indefinite), s.current);
  }

  ghost predicate MayPlace(s: Sched, e: EventList, d: Tick) {
    Running(s) && s.current != IDLE && d > 0 && e.Waiting? && e in s.event.lists
  }

  lemma PlaceTarget(s: Sched, e: EventList, d: Tick)
    requires s.Inv() && MayPlace(s, e, d)
    ensures s.current !in s.event.place
    ensures TargetOk(s, Place(e, d), PlaceOnEventList(s, e, d), s.current)
  {
    hide Sched.Inv, PlaceOnEventList, TargetOk, Roster.Consistent, OnlyMoves, Where;
    InvShape(s);
    RunningFacts(s);
    PlaceOnEventListSafe(s, e, d);
    PlacedFrame(s, e.id, d);
    SameRankTarget(s, Place(e, d), PlaceOnEventList(s, e, d), s.current);
  }

  lemma UnorderedFrame(s: Sched, e: EventList, v: Tick, d: Tick)
    requires s.Inv() && MayPlace(s, e, d)
    ensures s.current !in s.event.place
    ensures var r, x := PlaceOnUnordered(s, e, v, d), s.current;
      && x in r.tcbs && x in r.state.place && r.state.place[x] != WaitingTermination
      && SameRank(s.tcbs[x].(eventValue := OrInUse(v)), r.tcbs[x])
  {
    RunningFacts(s);
    hide Roster.Consistent, Roster.PutEnd, SetTcb, BlockCurrent, Sched.Core, Sched.Timely, Sched.Settled, SameRank;
    InvShape(s);
    SetTcbOnly(s, s.current, s.tcbs[s.current].(eventValue := OrInUse(v)));
    var t := SetTcb(s, s.current, s.tcbs[s.current].(eventValue := OrInUse(v)));
    UnorderedShape(t, e);
    BlockFrame(t.(event := s.event.PutEnd(e, s.current)), d, true);
  }

  lemma UnorderedShape(t: Sched, e: EventList)
    requires t.Shape() && e in t.event.lists && t.current !in t.event.place
    ensures t.(event := t.event.PutEnd(e, t.current)).Shape()
  {
    hide Roster.Consistent, Roster.PutEnd;
  }

  lemma UnorderedTarget(s: Sched, e: EventList, v: Tick, d: Tick)
    requires s.Inv() && MayPlace(s, e, d)
    ensures s.current !in s.event.place
    ensures TargetOk(s, PlaceUnordered(e, v, d), PlaceOnUnordered(s, e, v, d), s.current)
  {
    hide Sched.Inv, PlaceOnUnordered, Roster.Consistent, OnlyMoves, Where;
    InvShape(s);
    RunningFacts(s);
    UnorderedFrame(s, e, v, d);
    PlaceOnUnorderedSafe(s, e, v, d);
  }

  lemma SuspendTarget(s: Sched, x: Task)
    requires s.Shape() && x in s.tcbs
    ensures TargetOk(s, SuspendTask(x), Suspend(s, x), x)
  {
    hide Roster.Consistent, MoveTask, DropEvent;
  }

  lemma ResumeTarget(s: Sched, x: Task)
    requires s.Shape() && x in s.tcbs
    ensures TargetOk(s, ResumeTask(x), Resume(s, x), x)
  {
    hide Roster.Consistent, MoveTask;
  }

  lemma ResumeFromISRTarget(s: Sched, x: Task)
    requires s.Shape() && x in s.tcbs
    ensures TargetOk(s, ResumeTaskFromISR(x), ResumeFromISR(s, x), x)
  {
    hide Roster.Consistent, Roster.PutEnd, MoveTask;
  }

  lemma AbortTarget(s: Sched, x: Task)
    requires s.Shape() && x in s.tcbs
    ensures TargetOk(s, Abort(x), AbortDelay(s, x), x)
  {
    hide Roster.Consistent, MoveTask, DropEvent;
  }

  lemma UnorderedWakeTarget(s: Sched, x: Task, v: Tick)
    requires s.Shape() && x in s.event.place
    ensures TargetOk(s, RemoveUnordered(x, v), RemoveFromUnordered(s, x, v), x)
  {
    hide Roster.Consistent, MoveTask, DropEvent;
  }

  lemma SetPriorityTarget(s: Sched, x: Task, p: nat)
    requires s.Shape() && x in s.tcbs
    ensures TargetOk(s, SetPriority(x, p), PrioritySet(s, x, p), x)
  {
    hide Sched.Shape, MoveTask;
    s.TaskKnown(x);
  }

  lemma ResetItemTarget(s: Sched)
    requires s.Shape()
    ensures TargetOk(s, ResetItem, ResetEventItem(s), s.current)
  {
    hide Roster.Consistent;
  }

  lemma CheckTimeOutTarget(s: Sched)
    requires s.Shape()
    ensures TargetOk(s, CheckTimeOut, AfterCheck(s), s.current)
  {
    hide Roster.Consistent;
  }

  lemma RemoveTarget(s: Sched, e: EventList)
    requires s.Inv() && HasWaiter(s, e)
    ensures TargetOk(s, Remove(e), RemoveFromEventList(s, e), s.event.lists[e].items[0])
  {
    hide Sched.Inv, RemoveFromEventList, TargetOk, Roster.Consistent;
    InvShape(s);
    WakeFrame(s, e);
    EventHead(s, e);
    SameRankTarget(s, Remove(e), RemoveFromEventList(s, e), s.event.lists[e].items[0]);
  }

  lemma DeleteSelfTarget(s: Sched)
    requires s.Shape() && s.numberOfTasks > 0
    ensures TargetOk(s, DeleteTask(s.current), Delete(s, s.current), s.current)
  {
    hide Roster.Consistent, MoveTask, DropEvent;
  }

  lemma DeleteOtherTarget(s: Sched, x: Task)
    requires s.Shape() && s.numberOfTasks > 0 && x in s.tcbs && x != s.current
    ensures TargetOk(s, DeleteTask(x), Delete(s, x), x)
  {
    hide Roster.Consistent, Roster.Take, Roster.TakeIfPlaced, MoveTask, DropEvent;
  }

  lemma CleanUpTarget(s: Sched)
    requires s.Inv() && s.current == IDLE && s.deletedTasks > 0
    ensures s.state.lists[WaitingTermination].items != []
    ensures TargetOk(s, CleanUp, CleanUpOne(s), s.state.lists[WaitingTermination].items[0])
  {
    hide Roster.Consistent, Roster.Take, Roster.TakeIfPlaced, Sched.ReadyListsMatch, Sched.DelaysSorted,
         Sched.EventWaitersBlocked, Sched.Timely, Sched.Settled;
    DeletedHead(s);
  }

  lemma PendingTarget(s: Sched, x: Task)
    requires s.Inv() && s.suspended > 0 && Pending(s, x)
    ensures TargetOk(s, ResumeScheduler, ResumeAll(s), x)
  {
    hide Roster.Consistent, TargetOk, Sched.Core, Sched.Timely;
    InvShape(s);
    if s.suspended == 1 {
      DeliveredTarget(s, x);
    } else {
      SameRankTarget(s, ResumeScheduler, ResumeAll(s), x);
    }
  }

  lemma DeliveredTarget(s: Sched, x: Task)
    requires s.Inv() && s.suspended == 1 && Pending(s, x)
    ensures TargetOk(s, ResumeScheduler, ResumeAll(s), x)
  {
    InvShape(s);
    assert x in s.tcbs && x in s.state.place;
    hide Roster.Consistent, ResumeAll, TargetOk, Sched.Core, Sched.Shape, Sched.Timely, Sched.Settled, ResumedTo;
    ResumeEffect(s);
    ReadyAfterResume(s, ResumeAll(s), x);
    SameRankTarget(s, ResumeScheduler, ResumeAll(s), x);
  }

  lemma ReadyAfterResume(s: Sched, r: Sched, x: Task)
    requires ResumedTo(s, s.pended, r) && Pending(s, x) && x in s.tcbs
    ensures x in r.state.place && x in r.tcbs && r.state.place[x] != WaitingTermination && r.tcbs == s.tcbs
    ensures x !in r.event.place
  {
  }

  // ----- the set of event lists never changes -----

  ghost predicate SameLists(s: Sched, r: Sched) {
    r.event.lists.Keys == s.event.lists.Keys
  }

  lemma UnblockKeepsLists(s: Sched, x: Task)
    requires s.Shape() && x in s.tcbs
    ensures SameLists(s, s.Unblock(x))
  {
    UnblockEventKeys(s, x);
  }

  lemma {:induction false} ExpireKeepsLists(s: Sched, switch: bool)
    requires s.Shape()
    ensures SameLists(s, s.Expire(switch).s)
    decreases |s.state.lists[s.Cur()].items|
  {
    hide Roster.Consistent, Sched.Unblock;
    var waiting := s.state.lists[s.Cur()].items;
    if waiting != [] {
      var x := waiting[0];
      HeadIsTask(s);
      if s.tick >= s.tcbs[x].wake {
        s.UnblockLists(x, s.Cur());
        UnblockKeepsLists(s, x);
        ExpireKeepsLists(s.Unblock(x), switch || s.tcbs[x].priority >= s.tcbs[s.current].priority);
      }
    }
  }

  lemma TickKeepsLists(s: Sched)
    requires s.Shape()
    ensures SameLists(s, TickStep(s).s)
  {
    hide Roster.Consistent, Sched.Shape;
    if s.suspended == 0 {
      ExpireKeepsLists(AdvanceCount(s), false);
    }
  }

  lemma {:induction false} DrainKeepsLists(s: Sched)
    requires s.Shape()
    ensures SameLists(s, DrainPending(s))
    decreases |s.event.lists[PendingReady].items|
  {
    hide Roster.Consistent, Sched.Unblock;
    if s.event.lists[PendingReady].items != [] {
      PendingShrinks(s);
      DrainStepShrinks(s);
      UnblockKeepsLists(s, s.event.lists[PendingReady].items[0]);
      DrainKeepsLists(DrainStep(s));
    }
  }

  lemma {:induction false} UnwindKeepsLists(s: Sched, n: nat)
    requires s.Shape()
    ensures SameLists(s, UnwindTicks(s, n))
    decreases n
  {
    hide Roster.Consistent, TickStep;
    if n > 0 {
      TickKeepsLists(s);
      var t := TickStep(s);
      UnwindKeepsLists(if t.switchRequired then t.s.(yieldPending := true) else t.s, n - 1);
    }
  }

  lemma ResumeKeepsLists(s: Sched)
    requires s.Shape() && s.suspended > 0
    ensures SameLists(s, ResumeAll(s))
  {
    hide Roster.Consistent, DrainPending, UnwindTicks;
    var s1 := s.(suspended := s.suspended - 1);
    if s1.suspended == 0 && s1.numberOfTasks > 0 {
      DrainKeepsLists(s1);
      UnwindKeepsLists(DeliverPending(s1), s.pended);
    }
  }

  lemma TimeKeepsLists(s: Sched, a: Action)
    requires Enabled(s, a) && (a.Tick? || a.ResumeScheduler?)
    ensures SameLists(s, Step(s, a))
  {
    hide Sched.Core, Sched.Shape, Sched.Timely, Sched.Settled, TickStep, ResumeAll, SameLists;
    InvShape(s);
    if a.Tick? {
      TickKeepsLists(s);
    } else {
      ResumeKeepsLists(s);
    }
  }

  lemma FramedLists(s: Sched, r: Sched)
    requires Framed(s, r)
    ensures SameLists(s, r)
  {
  }

  lemma CreateKeepsLists(s: Sched, x: Task, p: nat)
    requires Enabled(s, CreateTask(x, p))
    ensures SameLists(s, Step(s, CreateTask(x, p)))
  {
    hide Sched.Core, Sched.Shape, Create;
    InvShape(s);
    CreateFrame(s, x, p);
  }

  lemma StepKeepsLists(s: Sched, a: Action)
    requires Enabled(s, a)
    ensures SameLists(s, Step(s, a))
  {
    hide Enabled, Step, SameLists, Framed;
    if a.Tick? || a.ResumeScheduler? {
      TimeKeepsLists(s, a);
    } else if a.CreateTask? {
      CreateKeepsLists(s, a.x, a.priority);
    } else {
      StepFrame(s, a);
      FramedLists(s, Step(s, a));
    }
  }

  // ----- a kernel step keeps the accounts -----

  lemma BlockingTouched(s: Sched, a: Action)
    requires Enabled(s, a) && IsBlocking(a)
    ensures TargetOk(s, a, Step(s, a), s.current)
  {
    hide Roster.Consistent, TargetOk, Sched.Core, Sched.Timely, Sched.Settled, BlockCurrent, PlaceOnEventList,
         PlaceOnUnordered;
    CurrentPlaced(s);
    match a {
      case Block(d, indefinite) => BlockTarget(s, d, indefinite);
      case Place(e, d) => PlaceTarget(s, e, d);
      case PlaceUnordered(e, v, d) => UnorderedTarget(s, e, v, d);
    }
  }

  lemma CurrentPlaced(s: Sched)
    requires s.Inv()
    ensures s.current in s.state.place
  {
    assert s.current in s.tcbs.Keys;
  }

  lemma WakingTouched(s: Sched, a: Action, x: Task)
    requires Enabled(s, a) && Touches(s, a, x) && x in s.tcbs && IsWaking(a)
    ensures TargetOk(s, a, Step(s, a), x)
  {
    hide Sched.Core, Sched.Shape, TargetOk, Sched.Timely, Sched.Settled, RemoveFromEventList, RemoveFromUnordered,
         Resume, ResumeFromISR, AbortDelay, Suspend;
    InvShape(s);
    match a {
      case Remove(e) => RemoveTarget(s, e);
      case RemoveUnordered(y, v) => UnorderedWakeTarget(s, y, v);
      case ResumeTask(y) => ResumeTarget(s, y);
      case ResumeTaskFromISR(y) => ResumeFromISRTarget(s, y);
      case Abort(y) => AbortTarget(s, y);
      case SuspendTask(y) => SuspendTarget(s, y);
    }
  }

  lemma DeleteTouched(s: Sched, x: Task)
    requires s.Inv() && Movable(s, x) && x != IDLE
    ensures s.numberOfTasks > 0 && TargetOk(s, DeleteTask(x), Delete(s, x), x)
  {
    hide Roster.Consistent, TargetOk, Delete, Sched.Inv;
    InvShape(s);
    InvNumbers(s);
    if x == s.current { DeleteSelfTarget(s); } else { DeleteOtherTarget(s, x); }
  }

  lemma InvNumbers(s: Sched)
    requires s.Inv()
    ensures s.numberOfTasks > 0
  {
    ForgetNumbers(s);
  }

  lemma RankTouched(s: Sched, a: Action, x: Task)
    requires Enabled(s, a) && Touches(s, a, x) && x in s.tcbs && (a.SetPriority? || a.ResetItem? || a.CheckTimeOut?)
    ensures TargetOk(s, a, Step(s, a), x)
  {
    hide Sched.Shape, TargetOk, Sched.Inv, PrioritySet, ResetEventItem, AfterCheck;
    InvShape(s);
    match a {
      case SetPriority(y, p) => SetPriorityTarget(s, y, p);
      case ResetItem => ResetItemTarget(s);
      case CheckTimeOut => CheckTimeOutTarget(s);
    }
  }

  lemma OtherTouched(s: Sched, a: Action, x: Task)
    requires Enabled(s, a) && Touches(s, a, x) && x in s.tcbs && (a.ResumeScheduler? || a.DeleteTask? || a.CleanUp?)
    ensures TargetOk(s, a, Step(s, a), x)
  {
    hide Sched.Shape, TargetOk, Sched.Inv, ResumeAll, Delete, CleanUpOne, Movable;
    InvShape(s);
    match a {
      case ResumeScheduler => PendingTarget(s, x);
      case DeleteTask(y) => DeleteTouched(s, y);
      case CleanUp => CleanUpTarget(s);
    }
  }

  lemma TouchedOk(sys: System, a: Action, x: Task)
    requires Enabled(sys.s, a) && Allowed(sys, a) && Touches(sys.s, a, x) && x in sys.s.tcbs
    ensures TargetOk(sys.s, a, Step(sys.s, a), x)
  {
    hide TargetOk, Sched.Inv, Step;
    if IsBlocking(a) {
      BlockingTouched(sys.s, a);
    } else if IsWaking(a) {
      WakingTouched(sys.s, a, x);
    } else if a.SetPriority? || a.ResetItem? || a.CheckTimeOut? {
      RankTouched(sys.s, a, x);
    } else {
      OtherTouched(sys.s, a, x);
    }
  }

  lemma UndisturbedAccounted(sys: System, r: System, x: Task)
    requires x in sys.s.tcbs && TaskAccounted(sys, x) && Undisturbed(sys.s, r.s, x) && r.mutexes == sys.mutexes
    ensures x in r.s.tcbs && TaskAccounted(r, x)
  {
    hide Holds, Sched.Now;
  }

  lemma TargetAccounted(sys: System, a: Action, r: System, x: Task)
    requires x in sys.s.tcbs && TaskAccounted(sys, x) && TargetOk(sys.s, a, r.s, x) && Allowed(sys, a)
    requires r.mutexes == sys.mutexes && sys.s.tcbs[x].priority < MAX_PRIORITIES
    ensures x in r.s.tcbs ==> TaskAccounted(r, x)
    ensures x !in r.s.tcbs ==> |Holds(sys.mutexes, x)| == 0
  {
    hide Holds;
  }

  lemma Created(s: Sched, x: Task, p: nat)
    requires s.Shape() && x !in s.tcbs
    ensures var r := Create(s, x, p);
      && r.tcbs.Keys == s.tcbs.Keys + {x} && r.event == s.event && x !in r.event.place
      && x in r.state.place && r.state.place[x].Ready?
      && r.tcbs[x].mutexesHeld == 0 && r.tcbs[x].priority == r.tcbs[x].basePriority
      && 1 <= r.tcbs[x].eventValue <= MAX_PRIORITIES
  {
    hide Roster.Consistent, Roster.PutEnd;
  }

  lemma NewcomerAccounted(sys: System, x: Task, p: nat)
    requires Accounted(sys) && x !in sys.s.tcbs
    ensures TaskAccounted(sys.(s := Create(sys.s, x, p)), x)
  {
    assert Holds(sys.mutexes, x) == {};
    InvShape(sys.s);
    Created(sys.s, x, p);
    hide Accounted, Create, Sched.Shape, Holds;
  }

  lemma TimeKeepsTasks(s: Sched, a: Action)
    requires Enabled(s, a) && (a.Tick? || a.ResumeScheduler?)
    ensures Step(s, a).tcbs == s.tcbs
  {
    hide Roster.Consistent, Sched.ReadyListsMatch, Sched.DelaysSorted, Sched.EventWaitersBlocked, Sched.Timely,
         Sched.Settled, AfterTicks, ResumedTo, AdvanceCount, UnwindTicks, DeliverPending, Sched.Expire;
    if a.Tick? && s.suspended == 0 {
      TickEffect(s);
    }
    if a.ResumeScheduler? && s.suspended == 1 {
      ResumeEffect(s);
    }
  }

  lemma Newcomers(s: Sched, a: Action, x: Task)
    requires Enabled(s, a) && x !in s.tcbs && x in Step(s, a).tcbs
    ensures a.CreateTask? && a.x == x
  {
    hide Step, Sched.Inv, Legal;
    if a.CreateTask? {
      CreatesOne(s, a);
    } else if a.Tick? || a.ResumeScheduler? {
      TimeKeepsTasks(s, a);
    } else {
      StepFrame(s, a);
    }
  }

  lemma CreatesOne(s: Sched, a: Action)
    requires Enabled(s, a) && a.CreateTask?
    ensures Step(s, a).tcbs.Keys == s.tcbs.Keys + {a.x}
  {
    hide Sched.Core, Sched.Shape, Sched.Timely, Sched.Settled, Create;
    InvShape(s);
    CreateFrame(s, a.x, a.priority);
  }

  lemma CountsKept(sys: System, r: System)
    requires CountsMatch(sys) && r.mutexes == sys.mutexes && SameLists(sys.s, r.s)
    requires forall x :: x in sys.s.tcbs && x !in r.s.tcbs ==> |Holds(sys.mutexes, x)| == 0
    ensures CountsMatch(r)
  {
    hide Holds;
    forall m | m in sys.mutexes && sys.mutexes[m].holder.HeldBy? ensures sys.mutexes[m].holder.task in r.s.tcbs {
      HolderHolds(sys, m);
    }
  }

  /** Whatever else the kernel does, the mutexes stay accounted for. */
  lemma KernelStepAccounts(sys: System, a: Action)
    requires Accounted(sys) && Enabled(sys.s, a) && Allowed(sys, a)
    ensures Accounted(sys.(s := Step(sys.s, a)))
  {
    hide Step, Sched.Inv, CountsMatch, TaskAccounted, Touches, Undisturbed, TargetOk, Allowed, Holds, SameLists;
    var r := sys.(s := Step(sys.s, a));
    EveryStepGood(sys.s, a);
    StepKeepsLists(sys.s, a);
    forall x | x in sys.s.tcbs
      ensures x in r.s.tcbs ==> TaskAccounted(r, x)
      ensures x !in r.s.tcbs ==> |Holds(sys.mutexes, x)| == 0
    {
      if Touches(sys.s, a, x) {
        TouchedOk(sys, a, x);
        PriorityBounded(sys.s, x);
        TargetAccounted(sys, a, r, x);
      } else {
        UndisturbedAccounted(sys, r, x);
      }
    }
    forall x | x in r.s.tcbs && x !in sys.s.tcbs ensures TaskAccounted(r, x) {
      Newcomers(sys.s, a, x);
      CreatedIsNew(sys, a, x);
    }
    CountsKept(sys, r);
  }

  lemma PriorityBounded(s: Sched, x: Task)
    requires s.Inv() && x in s.tcbs
    ensures s.tcbs[x].priority < MAX_PRIORITIES
  {
  }

  lemma CreatedIsNew(sys: System, a: Action, x: Task)
    requires Accounted(sys) && Enabled(sys.s, a) && a.CreateTask? && a.x == x && x !in sys.s.tcbs
    ensures x in Step(sys.s, a).tcbs && TaskAccounted(sys.(s := Step(sys.s, a)), x)
  {
    hide Accounted, Sched.Inv, Sched.Shape, Step, Legal, Create, TaskAccounted;
    CreatedByStep(sys.s, a);
    NewcomerAccounted(sys, x, a.priority);
  }

  lemma CreatedByStep(s: Sched, a: Action)
    requires Enabled(s, a) && a.CreateTask?
    ensures s.Shape() && a.x !in s.tcbs
    ensures Step(s, a) == Create(s, a.x, a.priority) && a.x in Step(s, a).tcbs
  {
    hide Sched.Core, Sched.Shape, Sched.Timely, Sched.Settled, Create;
    InvShape(s);
    CreateFrame(s, a.x, a.priority);
  }

  // ----- recursive use -----

  /** xQueueTakeMutexRecursive, when it need not wait. */
  function TakeNested(sys: System, m: nat): System
    requires sys.s.Shape() && m in sys.mutexes
    requires sys.mutexes[m].holder == HeldBy(sys.s.current) || sys.mutexes[m].count > 0
  {
    var t := if sys.mutexes[m].holder == HeldBy(sys.s.current) then sys else Take(sys, m);
    t.(mutexes := t.mutexes[m := t.mutexes[m].(recursion := t.mutexes[m].recursion + 1)])
  }

  /** xQueueGiveMutexRecursive by the holder. */
  function GiveNested(sys: System, m: nat): System
    requires sys.s.Shape() && m in sys.mutexes && Waiting(m) in sys.s.event.lists && sys.mutexes[m].recursion > 0
    requires sys.mutexes[m].holder == HeldBy(sys.s.current) && sys.s.tcbs[sys.s.current].mutexesHeld > 0
  {
    var t := sys.(mutexes := sys.mutexes[m := sys.mutexes[m].(recursion := sys.mutexes[m].recursion - 1)]);
    if t.mutexes[m].recursion == 0 then Give(t, m) else t
  }

  lemma SameHolds(sys: System, r: System, x: Task)
    requires r.mutexes.Keys == sys.mutexes.Keys
    requires forall m :: m in sys.mutexes ==> r.mutexes[m].holder == sys.mutexes[m].holder
    ensures Holds(r.mutexes, x) == Holds(sys.mutexes, x)
  {
  }

  lemma SameAccount(sys: System, r: System, x: Task)
    requires x in sys.s.tcbs && TaskAccounted(sys, x) && r.s == sys.s && r.mutexes.Keys == sys.mutexes.Keys
    requires Holds(r.mutexes, x) == Holds(sys.mutexes, x)
    ensures TaskAccounted(r, x)
  {
    hide Holds;
  }

  lemma RecursionCounts(sys: System, r: System, m: nat)
    requires CountsMatch(sys) && m in sys.mutexes && m in r.mutexes && r.s == sys.s
    requires r.mutexes == sys.mutexes[m := sys.mutexes[m].(recursion := r.mutexes[m].recursion)]
    ensures CountsMatch(r)
  {
  }

  lemma RecursionKeepsAccounts(sys: System, m: nat, n: nat)
    requires Accounted(sys) && m in sys.mutexes
    ensures Accounted(sys.(mutexes := sys.mutexes[m := sys.mutexes[m].(recursion := n)]))
  {
    hide Sched.Inv, TaskAccounted, Holds, CountsMatch;
    var r := sys.(mutexes := sys.mutexes[m := sys.mutexes[m].(recursion := n)]);
    RecursionCounts(sys, r, m);
    forall x | x in r.s.tcbs ensures TaskAccounted(r, x) {
      SameHolds(sys, r, x);
      SameAccount(sys, r, x);
    }
  }

  // ----- steps -----

  datatype SysAction =
    | KernelStep(a: Action)
    | TakeMutex(m: nat)
    | LendFor(m: nat)
    | QueueUpFor(m: nat, ticks: Tick)
    | GiveUpOn(m: nat)
    | GiveBack(m: nat)
    | TakeRecursively(m: nat)
    | GiveRecursively(m: nat)
    | CreateMutex(m: nat)

  /** The end of a wait for a mutex that the task holds itself: there must be no priority to give back, as
      vTaskPriorityDisinheritAfterTimeout asserts. */
  ghost predicate NothingLent(sys: System, m: nat)
    requires Accounted(sys) && m in sys.mutexes
  {
    hide Sched.Inv, CountsMatch, TaskAccounted, HighestWaiting;
    HolderFacts(sys, m);
    WaitersHavePriorities(sys, m);
    sys.mutexes[m].holder == HeldBy(sys.s.current) ==>
      var tcb := sys.s.tcbs[sys.s.current];
      tcb.mutexesHeld > 1 || tcb.priority == Max(tcb.basePriority, HighestWaiting(sys, m))
  }

  /** What the rules of the API demand of a step. */
  ghost predicate SysLegal(sys: System, a: SysAction)
    requires Accounted(sys)
  {
    match a
    case KernelStep(k) => Legal(sys.s, k) && Allowed(sys, k)
    case TakeMutex(m) => Running(sys.s) && m in sys.mutexes && sys.mutexes[m].count > 0
    case LendFor(m) => Running(sys.s) && m in sys.mutexes && sys.mutexes[m].count == 0
    case QueueUpFor(m, d) =>
      && Running(sys.s) && sys.s.current != IDLE && d > 0 && m in sys.mutexes && sys.mutexes[m].count == 0
      && sys.s.tcbs[sys.s.current].eventValue < VALUE_IN_USE
    case GiveUpOn(m) => Running(sys.s) && m in sys.mutexes && NothingLent(sys, m)
    case GiveBack(m) => Running(sys.s) && m in sys.mutexes && sys.mutexes[m].holder == HeldBy(sys.s.current)
    case TakeRecursively(m) =>
      Running(sys.s) && m in sys.mutexes && (sys.mutexes[m].count > 0 || sys.mutexes[m].holder == HeldBy(sys.s.current))
    case GiveRecursively(m) =>
      Running(sys.s) && m in sys.mutexes && sys.mutexes[m].holder == HeldBy(sys.s.current)
      && sys.mutexes[m].recursion > 0
    case CreateMutex(m) =>
      m !in sys.mutexes && Waiting(m) in sys.s.event.lists && sys.s.event.lists[Waiting(m)].items == []
  }

  ghost predicate SysEnabled(sys: System, a: SysAction) {
    Accounted(sys) && SysLegal(sys, a)
  }

  lemma HolderFacts(sys: System, m: nat)
    requires Accounted(sys) && m in sys.mutexes
    ensures sys.s.Shape() && Waiting(m) in sys.s.event.lists
    ensures sys.mutexes[m].holder.HeldBy? ==>
              sys.mutexes[m].holder.task in sys.s.tcbs && sys.s.tcbs[sys.mutexes[m].holder.task].mutexesHeld > 0
    ensures sys.mutexes[m].count > 0 <==> sys.mutexes[m].holder == Nobody
  {
    InvShape(sys.s);
    if sys.mutexes[m].holder.HeldBy? {
      HolderHolds(sys, m);
      assert TaskAccounted(sys, sys.mutexes[m].holder.task);
    }
  }

  ghost function SysStep(sys: System, a: SysAction): System
    requires SysEnabled(sys, a)
  {
    hide Sched.Inv, CountsMatch, TaskAccounted;
    match a
    case KernelStep(k) => sys.(s := Step(sys.s, k))
    case TakeMutex(m) => HolderFacts(sys, m); Take(sys, m)
    case LendFor(m) => HolderFacts(sys, m); sys.(s := Inherit(sys.s, sys.mutexes[m].holder.task))
    case QueueUpFor(m, d) => HolderFacts(sys, m); RunningFacts(sys.s); sys.(s := PlaceOnEventList(sys.s, Waiting(m), d))
    case GiveUpOn(m) => HolderFacts(sys, m); WaitersHavePriorities(sys, m); GiveUp(sys, m)
    case GiveBack(m) => HolderFacts(sys, m); Give(sys, m)
    case TakeRecursively(m) => HolderFacts(sys, m); TakeNested(sys, m)
    case GiveRecursively(m) => HolderFacts(sys, m); GiveNested(sys, m)
    case CreateMutex(m) => sys.(mutexes := sys.mutexes[m := Mutex(1, Nobody, 0)])
  }

  lemma AccountedInv(sys: System)
    requires Accounted(sys)
    ensures sys.s.Inv()
  {
  }

  lemma SysStepAccounts(sys: System, a: SysAction)
    requires SysEnabled(sys, a)
    ensures Accounted(SysStep(sys, a))
  {
    hide Accounted, Sched.Inv, Sched.Shape, Take, Give, BlockOn, GiveUp, Step, Holds, Legal, Allowed, Inherit,
         PlaceOnEventList, TakeNested, GiveNested, Running, NothingLent;
    AccountedInv(sys);
    match a {
      case KernelStep(k) => KernelStepAccounts(sys, k);
      case TakeMutex(m) => TakeAccounts(sys, m);
      case LendFor(m) => LendForAccounts(sys, m);
      case QueueUpFor(m, d) => QueueUpForAccounts(sys, m, d);
      case GiveUpOn(m) => GiveUpOnAccounts(sys, m);
      case GiveBack(m) => GiveAccounts(sys, m);
      case TakeRecursively(m) => TakeNestedAccounts(sys, m);
      case GiveRecursively(m) => GiveNestedAccounts(sys, m);
      case CreateMutex(m) => CreateMutexAccounts(sys, m);
    }
  }

  /** If the mutex was given in the meantime, there is no holder and nothing to do. */
  lemma GiveUpOnAccounts(sys: System, m: nat)
    requires SysEnabled(sys, GiveUpOn(m))
    ensures Accounted(SysStep(sys, GiveUpOn(m)))
    ensures sys.mutexes[m].holder == Nobody ==> SysStep(sys, GiveUpOn(m)) == sys
  {
    hide Accounted, Sched.Inv, DisinheritAfterTimeout, Running, NothingLent;
    HolderFacts(sys, m);
    WaitersHavePriorities(sys, m);
    if sys.mutexes[m].count == 0 {
      GiveUpAccounts(sys, m);
    }
  }

  lemma LendForAccounts(sys: System, m: nat)
    requires SysEnabled(sys, LendFor(m))
    ensures Accounted(SysStep(sys, LendFor(m)))
  {
    HeldMutex(sys, m);
    hide Accounted, Sched.Inv, Inherit;
    LendAccounts(sys, sys.mutexes[m].holder.task);
  }

  lemma QueueUpForAccounts(sys: System, m: nat, d: Tick)
    requires SysEnabled(sys, QueueUpFor(m, d))
    ensures Accounted(SysStep(sys, QueueUpFor(m, d)))
  {
    HeldMutex(sys, m);
    hide Accounted, Sched.Inv, PlaceOnEventList;
    QueueUpAccounts(sys, m, d);
  }

  lemma NobodyQueued(s: Sched, e: EventList, x: Task)
    requires s.Shape() && e in s.event.lists && s.event.lists[e].items == [] && x in s.event.place
    ensures s.event.place[x] != e
  {
  }

  lemma StillAccounted(sys: System, m: nat, x: Task)
    requires sys.s.Shape() && x in sys.s.tcbs && TaskAccounted(sys, x) && m !in sys.mutexes
    requires Waiting(m) in sys.s.event.lists && sys.s.event.lists[Waiting(m)].items == []
    ensures TaskAccounted(sys.(mutexes := sys.mutexes[m := Mutex(1, Nobody, 0)]), x)
  {
    if x in sys.s.event.place {
      NobodyQueued(sys.s, Waiting(m), x);
    }
    assert Holds(sys.mutexes[m := Mutex(1, Nobody, 0)], x) == Holds(sys.mutexes, x);
    hide Holds, Sched.Shape;
  }

  lemma NewCounts(sys: System, m: nat)
    requires CountsMatch(sys) && Waiting(m) in sys.s.event.lists
    ensures CountsMatch(sys.(mutexes := sys.mutexes[m := Mutex(1, Nobody, 0)]))
  {
  }

  lemma CreateMutexAccounts(sys: System, m: nat)
    requires Accounted(sys) && m !in sys.mutexes
    requires Waiting(m) in sys.s.event.lists && sys.s.event.lists[Waiting(m)].items == []
    ensures Accounted(sys.(mutexes := sys.mutexes[m := Mutex(1, Nobody, 0)]))
  {
    InvShape(sys.s);
    NewCounts(sys, m);
    hide Holds, TaskAccounted, Sched.Inv, Sched.Shape, CountsMatch;
    var r := sys.(mutexes := sys.mutexes[m := Mutex(1, Nobody, 0)]);
    forall x | x in r.s.tcbs ensures TaskAccounted(r, x) {
      StillAccounted(sys, m, x);
    }
  }

  /** A new mutex is there to be taken at once, and no other changes. */
  lemma CreatedIsFree(sys: System, m: nat)
    requires SysEnabled(sys, CreateMutex(m))
    ensures var r := SysStep(sys, CreateMutex(m));
      && r.s == sys.s
      && (Running(sys.s) ==> SysEnabled(r, TakeMutex(m)))
      && forall n :: n != m ==> (n in r.mutexes <==> n in sys.mutexes)
                                && (n in sys.mutexes && n in r.mutexes ==> r.mutexes[n] == sys.mutexes[n])
  {
    hide Accounted, Sched.Inv, Sched.Shape, Running, SysStep, NothingLent, Legal, Allowed;
    AccountedInv(sys);
    InvShape(sys.s);
    CreateMutexAccounts(sys, m);
    MutexMade(sys, m);
  }

  lemma MutexMade(sys: System, m: nat)
    requires SysEnabled(sys, CreateMutex(m))
    ensures SysStep(sys, CreateMutex(m)) == sys.(mutexes := sys.mutexes[m := Mutex(1, Nobody, 0)])
  {
    hide Accounted, Sched.Inv, Running;
  }

  lemma TakeNestedAccounts(sys: System, m: nat)
    requires Accounted(sys) && Running(sys.s) && m in sys.mutexes
    requires sys.mutexes[m].count > 0 || sys.mutexes[m].holder == HeldBy(sys.s.current)
    ensures sys.s.Shape()
    ensures var r := TakeNested(sys, m);
      && Accounted(r) && r.mutexes[m].holder == HeldBy(sys.s.current)
      && r.mutexes[m].recursion == sys.mutexes[m].recursion + 1
  {
    hide Accounted, Sched.Inv, Take, Running;
    HolderFacts(sys, m);
    var t := if sys.mutexes[m].holder == HeldBy(sys.s.current) then sys else Take(sys, m);
    if sys.mutexes[m].holder != HeldBy(sys.s.current) {
      TakeAccounts(sys, m);
      TakeMutexes(sys, m);
    }
    RecursionKeepsAccounts(t, m, sys.mutexes[m].recursion + 1);
  }

  lemma TakeMutexes(sys: System, m: nat)
    requires sys.s.Shape() && m in sys.mutexes && sys.mutexes[m].count > 0
    ensures Take(sys, m).mutexes.Keys == sys.mutexes.Keys
    ensures Take(sys, m).mutexes[m].recursion == sys.mutexes[m].recursion
  {
  }

  /** The mutex is freed by the last of the nested gives and by no other. */
  lemma GiveNestedAccounts(sys: System, m: nat)
    requires Accounted(sys) && Running(sys.s) && m in sys.mutexes
    requires sys.mutexes[m].holder == HeldBy(sys.s.current) && sys.mutexes[m].recursion > 0
    ensures sys.s.Shape() && Waiting(m) in sys.s.event.lists
    ensures sys.s.current in sys.s.tcbs && sys.s.tcbs[sys.s.current].mutexesHeld > 0
    ensures var r := GiveNested(sys, m);
      && Accounted(r)
      && (if sys.mutexes[m].recursion == 1 then r.mutexes[m].holder == Nobody && r.mutexes[m].count == 1
          else r.mutexes[m].holder == HeldBy(sys.s.current) && r.mutexes[m].recursion == sys.mutexes[m].recursion - 1)
  {
    hide Accounted, Sched.Inv, Give, Running;
    HolderFacts(sys, m);
    RecursionKeepsAccounts(sys, m, sys.mutexes[m].recursion - 1);
    if sys.mutexes[m].recursion == 1 {
      GiveAccounts(sys.(mutexes := sys.mutexes[m := sys.mutexes[m].(recursion := 0)]), m);
    }
  }

  // ----- the start -----

  /** Free mutexes, as prvInitialiseMutex and its first give leave them. */
  function FreeMutexes(ids: set<nat>): (mutexes: map<nat, Mutex>)
    ensures mutexes.Keys == ids && forall m :: m in ids ==> mutexes[m] == Mutex(1, Nobody, 0)
  {
    map m | m in ids :: Mutex(1, Nobody, 0)
  }

  lemma NobodyHolds(ids: set<nat>, x: Task)
    ensures Holds(FreeMutexes(ids), x) == {}
  {
  }

  // ----- runs -----

  /** Any interleaving of legal steps.  A step is asked to be legal only where the accounts are in order,
      which AccountedThroughout shows to be everywhere. */
  ghost predicate IsSysRun(states: seq<System>, actions: seq<SysAction>) {
    && |states| == |actions| + 1
    && forall k :: 0 <= k < |actions| && Accounted(states[k]) ==>
         SysLegal(states[k], actions[k]) && states[k + 1] == SysStep(states[k], actions[k])
  }

  /** In every run that deletes no holder and changes mutexes through their own operations only, a mutex
      has count 0 exactly while it names a holder, each task's count of mutexes held is the number of
      mutexes that name it, and a task that holds none runs at its base priority. */
  lemma MutexesAccounted(states: seq<System>, actions: seq<SysAction>, k: nat)
    requires IsSysRun(states, actions) && Accounted(states[0]) && k <= |actions|
    ensures forall m :: m in states[k].mutexes ==>
              (states[k].mutexes[m].count == 0 <==> states[k].mutexes[m].holder.HeldBy?)
    ensures forall x :: x in states[k].s.tcbs ==>
              && states[k].s.tcbs[x].mutexesHeld == |Holds(states[k].mutexes, x)|
              && (states[k].s.tcbs[x].mutexesHeld == 0 ==>
                    states[k].s.tcbs[x].priority == states[k].s.tcbs[x].basePriority)
  {
    hide IsSysRun, Accounted, Holds;
    assert k < |states| by { RunLength(states, actions); }
    AccountedThroughout(states, actions, k);
    AccountsSay(states[k]);
  }

  lemma RunLength(states: seq<System>, actions: seq<SysAction>)
    requires IsSysRun(states, actions)
    ensures |states| == |actions| + 1
  {
    hide Accounted, SysStep;
  }

  lemma AccountsSay(sys: System)
    requires Accounted(sys)
    ensures forall m :: m in sys.mutexes ==> (sys.mutexes[m].count == 0 <==> sys.mutexes[m].holder.HeldBy?)
    ensures forall x :: x in sys.s.tcbs ==>
              && sys.s.tcbs[x].mutexesHeld == |Holds(sys.mutexes, x)|
              && (sys.s.tcbs[x].mutexesHeld == 0 ==> sys.s.tcbs[x].priority == sys.s.tcbs[x].basePriority)
  {
    hide Holds, Sched.Inv;
    forall x | x in sys.s.tcbs ensures TaskAccounted(sys, x) {
    }
  }

  lemma SysRunStep(states: seq<System>, actions: seq<SysAction>, k: nat)
    requires IsSysRun(states, actions) && Accounted(states[0]) && k < |actions|
    ensures |states| == |actions| + 1
    ensures SysEnabled(states[k], actions[k]) && states[k + 1] == SysStep(states[k], actions[k])
  {
    hide Accounted, SysStep, SysLegal;
    AccountedThroughout(states, actions, k);
  }

  lemma {:induction false} AccountedThroughout(states: seq<System>, actions: seq<SysAction>, k: nat)
    requires IsSysRun(states, actions) && Accounted(states[0]) && k <= |actions|
    ensures k < |states| && Accounted(states[k])
    decreases k
  {
    hide Accounted, SysStep, SysLegal;
    if k > 0 {
      AccountedThroughout(states, actions, k - 1);
      SysStepAccounts(states[k - 1], actions[k - 1]);
    }
  }
}
