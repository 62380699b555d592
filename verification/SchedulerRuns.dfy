/** Runs: any sequence of critical sections, interrupts falling between them. */
module SchedulerRuns {
  import opened Ticks
  import opened ListValues
  import opened Rosters
  import opened Scheduler
  import opened SchedulerTime
  import opened SchedulerSuspension
  import opened SchedulerTasks
  import opened SchedulerSafety

  // ----- choosing who runs -----

  lemma NextIsReady(s: Sched, p: nat)
    requires s.Core() && p < MAX_PRIORITIES && s.state.lists[Ready(p)].items != []
    ensures var x := s.state.lists[Ready(p)].NextItem();
      x in s.state.lists[Ready(p)].items && x in s.tcbs && s.state.place[x] == Ready(p) && s.tcbs[x].priority == p
  {
    var l := s.state.lists[Ready(p)];
    assert l.NextItem() in l.items;
  }

  lemma NobodyAbove(s: Sched, y: Task)
    requires s.Core() && y in s.tcbs && s.state.place[y].Ready?
    ensures s.tcbs[y].priority <= FindTop(s, s.topReady)
  {
    var p := s.tcbs[y].priority;
    assert y in s.state.lists[Ready(p)].items;
  }

  lemma AdvanceKeepsRoster(r: Roster<StateList>, l: StateList)
    requires r.Consistent() && l in r.lists && r.lists[l].items != []
    ensures Roster(r.lists[l := r.lists[l].Advance()], r.place).Consistent()
  {
  }

  lemma SwitchShape(s: Sched)
    requires s.Core() && s.suspended == 0
    ensures SwitchContext(s).Shape()
  {
    var p := FindTop(s, s.topReady);
    SomethingReady(s);
    NextIsReady(s, p);
    AdvanceKeepsRoster(s.state, Ready(p));
    hide Roster.Consistent, FindTop;
  }

  lemma SwitchKeepsCore(s: Sched)
    requires s.Core() && s.suspended == 0
    ensures SwitchContext(s).Core()
  {
    SwitchShape(s);
    SomethingReady(s);
    forall y | y in s.tcbs && s.state.place[y].Ready? ensures s.tcbs[y].priority <= FindTop(s, s.topReady) {
      NobodyAbove(s, y);
    }
    hide Roster.Consistent, FindTop, InWakeOrder;
  }

  /** With the scheduler running, the task chosen is ready, nobody ready has a higher priority, and it
      is the next in turn of its ready list. */
  lemma SwitchPicksHighest(s: Sched)
    requires s.Core() && s.suspended == 0
    ensures var r := SwitchContext(s);
      && r.current in s.tcbs && s.state.place[r.current] == Ready(s.tcbs[r.current].priority)
      && (forall y :: y in s.tcbs && s.state.place[y].Ready? ==> s.tcbs[y].priority <= s.tcbs[r.current].priority)
      && r.current == s.state.lists[Ready(s.tcbs[r.current].priority)].NextItem()
      && r.topReady == s.tcbs[r.current].priority && !r.yieldPending
  {
    SomethingReady(s);
    NextIsReady(s, FindTop(s, s.topReady));
    forall y | y in s.tcbs && s.state.place[y].Ready? ensures s.tcbs[y].priority <= FindTop(s, s.topReady) {
      NobodyAbove(s, y);
    }
    hide Roster.Consistent, FindTop, Sched.ReadyListsMatch, Sched.DelaysSorted, Sched.EventWaitersBlocked;
  }

  lemma SwitchFrame(s: Sched)
    requires s.Core()
    ensures var r := SwitchContext(s);
      && r.state.place == s.state.place
      && r == s.(state := r.state, current := r.current, topReady := r.topReady, yieldPending := r.yieldPending)
  {
    SomethingReady(s);
  }

  /** Same tasks, same places, same clock. */
  lemma SameSafety(s: Sched, r: Sched)
    requires s.Timely() && s.Settled() && s.state.place.Keys == s.tcbs.Keys
    requires r.state.place == s.state.place && r.event == s.event && r.tcbs == s.tcbs
    requires r.tick == s.tick && r.overflows == s.overflows && r.firstIsCurrent == s.firstIsCurrent
    requires r.nextUnblock == s.nextUnblock && r.suspended == s.suspended && r.pended == s.pended
    ensures r.Timely() && r.Settled() && r.Now() == s.Now() && forall y :: y in s.tcbs ==> Untouched(s, r, y)
  {
    SamePlace(s, r);
    hide Where, Sched.Now;
  }

  lemma SwitchSafe(s: Sched)
    requires s.Inv()
    ensures var r := SwitchContext(s);
      r.Inv() && r.Now() == s.Now() && forall y :: y in s.tcbs ==> Untouched(s, r, y)
  {
    hide Roster.Consistent, Sched.ReadyListsMatch, Sched.DelaysSorted, Sched.EventWaitersBlocked, SwitchContext,
         Sched.Timely, Sched.Settled, Untouched;
    SwitchFrame(s);
    if s.suspended == 0 {
      SwitchKeepsCore(s);
    } else {
      SwitchLatched(s);
    }
    SameSafety(s, SwitchContext(s));
  }

  lemma SwitchLatched(s: Sched)
    requires s.Core() && s.suspended > 0
    ensures SwitchContext(s).Core()
  {
    hide Roster.Consistent, Sched.ReadyListsMatch, Sched.DelaysSorted, Sched.EventWaitersBlocked;
    s.CoreOfSameLists(SwitchContext(s));
  }

  // ----- steps -----

  datatype Action =
    | Tick
    | SuspendScheduler
    | ResumeScheduler
    | Switch
    | MissedYield
    | Block(ticks: Tick, indefinite: bool)
    | Place(e: EventList, ticks: Tick)
    | PlaceUnordered(e: EventList, value: Tick, ticks: Tick)
    | Remove(e: EventList)
    | RemoveUnordered(x: Task, value: Tick)
    | SuspendTask(x: Task)
    | ResetUnblock
    | ResumeTask(x: Task)
    | ResumeTaskFromISR(x: Task)
    | Abort(x: Task)
    | SetPriority(x: Task, priority: nat)
    | InheritTo(x: Task)
    | HoldMutex
    | GiveMutex
    | ResetItem
    | CheckTimeOut
    | TimeOutOn(x: Task, highestWaiting: nat)
    | CreateTask(x: Task, priority: nat)
    | DeleteTask(x: Task)
    | CleanUp

  // The steps in groups.

  predicate IsBlocking(a: Action) {
    a.Block? || a.Place? || a.PlaceUnordered?
  }

  predicate IsWaking(a: Action) {
    a.Remove? || a.RemoveUnordered? || a.ResumeTask? || a.ResumeTaskFromISR? || a.Abort? || a.SuspendTask?
  }

  predicate IsRanking(a: Action) {
    || a.SetPriority? || a.InheritTo? || a.HoldMutex? || a.GiveMutex? || a.ResetItem? || a.CheckTimeOut?
    || a.TimeOutOn?
  }

  predicate IsBirthOrDeath(a: Action) {
    a.CreateTask? || a.DeleteTask? || a.CleanUp?
  }

  predicate IsBookkeeping(a: Action) {
    a.SuspendScheduler? || a.Switch? || a.MissedYield? || a.ResetUnblock?
  }

  /** The running task may block: it is ready and it is not the idle task. */
  ghost predicate MayBlock(s: Sched, ticks: Tick)
    requires s.Shape()
  {
    s.state.place[s.current].Ready? && s.current != IDLE && ticks > 0
  }

  ghost predicate HasWaiter(s: Sched, e: EventList) {
    e.Waiting? && e in s.event.lists && s.event.lists[e].items != []
  }

  ghost predicate IsEventList(s: Sched, e: EventList) {
    e.Waiting? && e in s.event.lists
  }

  /** What the rules of the API demand of a step. */
  ghost predicate Legal(s: Sched, a: Action)
    requires s.Inv()
  {
    match a
    case Tick => true
    case SuspendScheduler => true
    case ResumeScheduler => s.suspended > 0
    case Switch => true
    case MissedYield => true
    case Block(d, _) => MayBlock(s, d)
    case Place(e, d) => MayBlock(s, d) && IsEventList(s, e)
    case PlaceUnordered(e, _, d) => MayBlock(s, d) && IsEventList(s, e)
    case Remove(e) => HasWaiter(s, e)
    case RemoveUnordered(x, _) => x in s.event.place && s.suspended > 0
    case SuspendTask(x) => Movable(s, x) && x != IDLE
    case ResetUnblock => true
    case ResumeTask(x) => x in s.tcbs
    case ResumeTaskFromISR(x) => x in s.tcbs
    case Abort(x) => x in s.tcbs
    case SetPriority(x, _) => x in s.tcbs
    case InheritTo(x) => x in s.tcbs
    case HoldMutex => true
    case GiveMutex => s.state.place[s.current].Ready? && s.tcbs[s.current].mutexesHeld > 0
    case ResetItem => true
    case CheckTimeOut => true
    case TimeOutOn(x, h) => x in s.tcbs && h < MAX_PRIORITIES
    case CreateTask(x, _) => x !in s.tcbs
    case DeleteTask(x) => Movable(s, x) && x != IDLE
    case CleanUp => s.current == IDLE && s.deletedTasks > 0
  }

  ghost predicate Enabled(s: Sched, a: Action) {
    s.Inv() && Legal(s, a)
  }

  lemma CurrentUnplaced(s: Sched)
    requires s.Core() && s.state.place[s.current].Ready?
    ensures s.current !in s.event.place
  {
    ReadyIsMatched(s, s.current);
  }

  ghost function Step(s: Sched, a: Action): Sched
    requires Enabled(s, a)
  {
    hide Roster.Consistent, Sched.Core, Sched.Timely, Sched.Settled;
    InvShape(s);
    match a
    case Tick => TickStep(s).s
    case SuspendScheduler => SuspendAll(s)
    case ResumeScheduler => ResumeAll(s)
    case Switch => SwitchContext(s)
    case MissedYield => s.(yieldPending := true)
    case Block(d, indefinite) => BlockCurrent(s, d, indefinite)
    case Place(e, d) => CurrentUnplaced(s); PlaceOnEventList(s, e, d)
    case PlaceUnordered(e, v, d) => CurrentUnplaced(s); PlaceOnUnordered(s, e, v, d)
    case Remove(e) => RemoveFromEventList(s, e)
    case RemoveUnordered(x, v) => RemoveFromUnordered(s, x, v)
    case SuspendTask(x) => Suspend(s, x)
    case ResetUnblock => s.ResetUnblockTime()
    case ResumeTask(x) => Resume(s, x)
    case ResumeTaskFromISR(x) => ResumeFromISR(s, x)
    case Abort(x) => AbortDelay(s, x)
    case SetPriority(x, p) => PrioritySet(s, x, p)
    case InheritTo(x) => Inherit(s, x)
    case HoldMutex => IncrementHeld(s)
    case GiveMutex => Disinherit(s)
    case ResetItem => ResetEventItem(s)
    case CheckTimeOut => AfterCheck(s)
    case TimeOutOn(x, h) => DisinheritAfterTimeout(s, x, h)
    case CreateTask(x, p) => Create(s, x, p)
    case DeleteTask(x) => ForgetNumbers(s); Delete(s, x)
    case CleanUp => CleanUpOne(s)
  }

  /** The action is about task x: it blocks it, wakes it, changes its priority, or ends it. */
  ghost predicate Touches(s: Sched, a: Action, x: Task)
    requires Enabled(s, a)
  {
    match a
    case Tick => false
    case SuspendScheduler => false
    case ResumeScheduler => Pending(s, x)
    case Switch => false
    case MissedYield => false
    case Block(_, _) => x == s.current
    case Place(_, _) => x == s.current
    case PlaceUnordered(_, _, _) => x == s.current
    case Remove(e) => x == s.event.lists[e].items[0]
    case RemoveUnordered(y, _) => x == y
    case SuspendTask(y) => x == y
    case ResetUnblock => false
    case ResumeTask(y) => x == y
    case ResumeTaskFromISR(y) => x == y
    case Abort(y) => x == y
    case SetPriority(y, _) => x == y
    case InheritTo(y) => x == y
    case HoldMutex => x == s.current
    case GiveMutex => x == s.current
    case ResetItem => x == s.current
    case CheckTimeOut => x == s.current
    case TimeOutOn(y, _) => x == y
    case CreateTask(_, _) => false
    case DeleteTask(y) => x == y
    case CleanUp => s.state.lists[WaitingTermination].items != [] && x == s.state.lists[WaitingTermination].items[0]
  }

  /** Task x, which the step was not about, is ready if its time came, and otherwise just where it was;
      it has joined no event list. */
  ghost predicate Undisturbed(s: Sched, r: Sched, x: Task) {
    && x in s.tcbs && x in s.state.place && x in r.tcbs && x in r.state.place && r.tcbs[x] == s.tcbs[x]
    && Where(r, x) == (if DueBy(s, x, r.Now()) then At(Ready(s.tcbs[x].priority)) else Where(s, x))
    && (x in r.event.place ==> x in s.event.place && r.event.place[x] == s.event.place[x])
  }

  /** The invariant is kept, time does not run backwards, and nobody else is disturbed. */
  ghost predicate GoodStep(s: Sched, a: Action, r: Sched)
    requires Enabled(s, a)
  {
    && r.Inv() && r.Now() >= s.Now()
    && forall x :: x in s.tcbs && !Touches(s, a, x) ==> Undisturbed(s, r, x)
  }

  lemma UntouchedIsUndisturbed(s: Sched, r: Sched, x: Task)
    requires s.Timely() && Untouched(s, r, x) && r.Now() == s.Now()
    ensures Undisturbed(s, r, x)
  {
    TimelyIsFuture(s);
    hide Where, Sched.Now, Sched.Timely;
  }

  lemma GoodMove(s: Sched, a: Action, r: Sched, x: Task)
    requires Enabled(s, a) && r.Inv() && OnlyMoves(s, r, x) && forall y :: y in s.tcbs && y == x ==> Touches(s, a, y)
    ensures GoodStep(s, a, r)
  {
    hide Sched.Core, Where, Sched.Now, Untouched, Undisturbed, Touches, Sched.Timely;
    forall y | y in s.tcbs && !Touches(s, a, y) ensures Undisturbed(s, r, y) {
      UntouchedIsUndisturbed(s, r, y);
    }
  }

  lemma GoodStill(s: Sched, a: Action, r: Sched)
    requires Enabled(s, a) && r.Inv() && r.Now() == s.Now() && forall y :: y in s.tcbs ==> Untouched(s, r, y)
    ensures GoodStep(s, a, r)
  {
    hide Sched.Core, Where, Sched.Now, Untouched, Undisturbed, Touches, Sched.Timely;
    forall y | y in s.tcbs && !Touches(s, a, y) ensures Undisturbed(s, r, y) {
      UntouchedIsUndisturbed(s, r, y);
    }
  }

  // ----- every step is good -----

  lemma SuspendGood(s: Sched)
    requires s.Inv()
    ensures GoodStep(s, SuspendScheduler, SuspendAll(s))
  {
    hide Roster.Consistent, Sched.ReadyListsMatch, Sched.DelaysSorted, Sched.EventWaitersBlocked, Untouched, GoodStep;
    var r := SuspendAll(s);
    Relabel(s, r);
    SamePlace(s, r);
    StillUntouched(s, r);
    hide Sched.Timely;
    GoodStill(s, SuspendScheduler, r);
  }

  lemma StillUntouched(s: Sched, r: Sched)
    requires s.state.place.Keys == s.tcbs.Keys
    requires r.state.place == s.state.place && r.event == s.event && r.tcbs == s.tcbs
    requires r.tick == s.tick && r.overflows == s.overflows && r.firstIsCurrent == s.firstIsCurrent
    ensures forall y :: y in s.tcbs ==> Untouched(s, r, y)
  {
    SamePlace(s, r);
    hide Where, Sched.Now;
  }

  lemma YieldGood(s: Sched)
    requires s.Inv()
    ensures GoodStep(s, MissedYield, s.(yieldPending := true))
  {
    hide Roster.Consistent, Sched.ReadyListsMatch, Sched.DelaysSorted, Sched.EventWaitersBlocked, Untouched, GoodStep;
    var r := s.(yieldPending := true);
    Relabel(s, r);
    StillUntouched(s, r);
    hide Sched.Timely;
    GoodStill(s, MissedYield, r);
  }

  lemma HeldTickGood(s: Sched)
    requires s.Inv() && s.suspended > 0
    ensures GoodStep(s, Tick, TickStep(s).s)
  {
    hide Roster.Consistent, Sched.ReadyListsMatch, Sched.DelaysSorted, Sched.EventWaitersBlocked, Untouched, GoodStep;
    var r := TickStep(s).s;
    Relabel(s, r);
    StillUntouched(s, r);
    hide Sched.Timely;
    GoodStill(s, Tick, r);
  }

  lemma ElapsedIsUndisturbed(s: Sched, n: nat, r: Sched, x: Task)
    requires AfterTicks(s, n, r) && x in s.tcbs
    ensures Undisturbed(s, r, x)
  {
    hide Where, Sched.Now;
  }

  lemma TickGood(s: Sched)
    requires s.Inv()
    ensures GoodStep(s, Tick, TickStep(s).s)
  {
    if s.suspended > 0 {
      HeldTickGood(s);
    } else {
      LiveTickGood(s);
    }
  }

  lemma TickSettled(s: Sched, r: Sched)
    requires s.Settled() && AfterTicks(s, 1, r) && r.suspended == s.suspended && r.pended == s.pended
    ensures r.Settled() && r.Now() == s.Now() + 1
  {
  }

  lemma LiveTickGood(s: Sched)
    requires s.Inv() && s.suspended == 0
    ensures GoodStep(s, Tick, TickStep(s).s)
  {
    hide Roster.Consistent, Sched.ReadyListsMatch, Sched.DelaysSorted, Sched.EventWaitersBlocked, AfterTicks,
         Undisturbed, TickStep, Sched.Now, Sched.Timely, Sched.Settled;
    TickEffect(s);
    var r := TickStep(s).s;
    TickSettled(s, r);
    forall x | x in s.tcbs ensures Undisturbed(s, r, x) {
      ElapsedIsUndisturbed(s, 1, r, x);
    }
  }

  lemma ResumedIsUndisturbed(s: Sched, n: nat, r: Sched, x: Task)
    requires ResumedTo(s, n, r) && x in s.tcbs && !Pending(s, x)
    ensures Undisturbed(s, r, x) && r.Now() == s.Now() + n
  {
    hide Where, Sched.Now;
  }

  lemma LastResumeGood(s: Sched)
    requires s.Inv() && s.suspended == 1
    ensures GoodStep(s, ResumeScheduler, ResumeAll(s))
    ensures ResumeAll(s).Now() == s.Now() + s.pended
  {
    hide Roster.Consistent, Sched.ReadyListsMatch, Sched.DelaysSorted, Sched.EventWaitersBlocked, ResumedTo,
         Undisturbed, ResumeAll, Sched.Now, Sched.Timely, Sched.Settled, GoodStep;
    ResumeEffect(s);
    AllUndisturbed(s, ResumeAll(s));
  }

  lemma AllUndisturbed(s: Sched, r: Sched)
    requires Enabled(s, ResumeScheduler) && r.Inv() && ResumedTo(s, s.pended, r)
    ensures GoodStep(s, ResumeScheduler, r) && r.Now() == s.Now() + s.pended
  {
    hide Sched.Core, ResumedTo, Undisturbed, Sched.Now, Sched.Timely, Sched.Settled;
    Resumed(s, s.pended, r);
    forall x | x in s.tcbs && !Pending(s, x) ensures Undisturbed(s, r, x) {
      ResumedIsUndisturbed(s, s.pended, r, x);
    }
  }

  lemma Resumed(s: Sched, n: nat, r: Sched)
    requires ResumedTo(s, n, r)
    ensures r.Now() == s.Now() + n
  {
  }

  lemma InnerResumeGood(s: Sched)
    requires s.Inv() && s.suspended > 1
    ensures GoodStep(s, ResumeScheduler, ResumeAll(s))
  {
    hide Roster.Consistent, Sched.ReadyListsMatch, Sched.DelaysSorted, Sched.EventWaitersBlocked, Untouched, GoodStep;
    var r := ResumeAll(s);
    Relabel(s, r);
    StillUntouched(s, r);
    hide Sched.Timely;
    GoodStill(s, ResumeScheduler, r);
  }

  /** Steps that block the running task. */
  lemma BlockingGood(s: Sched, a: Action)
    requires Enabled(s, a) && IsBlocking(a)
    ensures GoodStep(s, a, Step(s, a))
  {
    hide Sched.Core, Sched.Shape, GoodStep, OnlyMoves, Sched.Timely, Sched.Settled, Where;
    InvShape(s);
    s.ListsKnown();
    match a {
      case Block(d, indefinite) => BlockSafe(s, d, indefinite);
      case Place(e, d) => PlaceOnEventListSafe(s, e, d);
      case PlaceUnordered(e, v, d) => PlaceOnUnorderedSafe(s, e, v, d);
    }
    GoodMove(s, a, Step(s, a), s.current);
  }

  lemma WakingGood(s: Sched, a: Action)
    requires Enabled(s, a) && IsWaking(a)
    ensures GoodStep(s, a, Step(s, a))
  {
    hide Sched.Inv, Legal, Step, GoodStep;
    if a.Remove? || a.RemoveUnordered? {
      EventGood(s, a);
    } else {
      ResumingGood(s, a);
    }
  }

  lemma EventGood(s: Sched, a: Action)
    requires Enabled(s, a) && (a.Remove? || a.RemoveUnordered?)
    ensures GoodStep(s, a, Step(s, a))
  {
    hide Sched.Core, Sched.Shape, GoodStep, OnlyMoves, Sched.Timely, Sched.Settled, Where, RemoveFromEventList,
         RemoveFromUnordered;
    InvShape(s);
    s.ListsKnown();
    if a.Remove? {
      RemoveFromEventListSafe(s, a.e);
      GoodMove(s, a, Step(s, a), s.event.lists[a.e].items[0]);
    } else {
      RemoveFromUnorderedSafe(s, a.x, a.value);
      GoodMove(s, a, Step(s, a), a.x);
    }
  }

  lemma ResumingGood(s: Sched, a: Action)
    requires Enabled(s, a) && (a.SuspendTask? || a.ResumeTask? || a.ResumeTaskFromISR? || a.Abort?)
    ensures GoodStep(s, a, Step(s, a))
  {
    hide Sched.Core, Sched.Shape, GoodStep, OnlyMoves, Sched.Timely, Sched.Settled, Where, Suspend, Resume,
         ResumeFromISR, AbortDelay;
    InvShape(s);
    match a {
      case SuspendTask(x) => SuspendSafe(s, x);
      case ResumeTask(x) => ResumeSafe(s, x);
      case ResumeTaskFromISR(x) => ResumeFromISRSafe(s, x);
      case Abort(x) => AbortDelaySafe(s, x);
    }
    GoodMove(s, a, Step(s, a), a.x);
  }

  lemma PriorityGood(s: Sched, a: Action)
    requires Enabled(s, a) && IsRanking(a)
    ensures GoodStep(s, a, Step(s, a))
  {
    hide Sched.Inv, Legal, Step, GoodStep;
    if a.SetPriority? || a.InheritTo? || a.TimeOutOn? {
      RankingGood(s, a);
    } else {
      OwnGood(s, a);
    }
  }

  lemma RankingGood(s: Sched, a: Action)
    requires Enabled(s, a) && (a.SetPriority? || a.InheritTo? || a.TimeOutOn?)
    ensures GoodStep(s, a, Step(s, a))
  {
    hide Sched.Core, Sched.Shape, GoodStep, OnlyMoves, Sched.Timely, Sched.Settled, Where, PrioritySet, Inherit,
         DisinheritAfterTimeout;
    InvShape(s);
    match a {
      case SetPriority(x, p) => PrioritySetSafe(s, x, p);
      case InheritTo(x) => InheritSafe(s, x);
      case TimeOutOn(x, h) => DisinheritAfterTimeoutSafe(s, x, h);
    }
    GoodMove(s, a, Step(s, a), a.x);
  }

  /** Steps about the running task's own control block. */
  lemma OwnGood(s: Sched, a: Action)
    requires Enabled(s, a) && (a.HoldMutex? || a.GiveMutex? || a.ResetItem? || a.CheckTimeOut?)
    ensures GoodStep(s, a, Step(s, a))
  {
    hide Sched.Core, Sched.Shape, GoodStep, OnlyMoves, Sched.Timely, Sched.Settled, Where, IncrementHeld, Disinherit,
         ResetEventItem, AfterCheck;
    InvShape(s);
    s.ListsKnown();
    match a {
      case HoldMutex => IncrementHeldSafe(s);
      case GiveMutex => DisinheritSafe(s);
      case ResetItem => ResetItemSafe(s);
      case CheckTimeOut => AfterCheckSafe(s);
    }
    GoodMove(s, a, Step(s, a), s.current);
  }

  lemma LifeGood(s: Sched, a: Action)
    requires Enabled(s, a) && IsBirthOrDeath(a)
    ensures GoodStep(s, a, Step(s, a))
  {
    hide Sched.Inv, Legal, Step, GoodStep;
    if a.CreateTask? {
      CreateGood(s, a.x, a.priority);
    } else if a.DeleteTask? {
      DeleteGood(s, a.x);
    } else {
      CleanUpGood(s);
    }
  }

  lemma CreateGood(s: Sched, x: Task, p: nat)
    requires Enabled(s, CreateTask(x, p))
    ensures GoodStep(s, CreateTask(x, p), Step(s, CreateTask(x, p)))
  {
    hide Sched.Core, Sched.Shape, GoodStep, OnlyMoves, Sched.Timely, Sched.Settled, Create;
    InvShape(s);
    CreateSafe(s, x, p);
    GoodMove(s, CreateTask(x, p), Create(s, x, p), x);
  }

  lemma DeleteGood(s: Sched, x: Task)
    requires Enabled(s, DeleteTask(x))
    ensures GoodStep(s, DeleteTask(x), Step(s, DeleteTask(x)))
  {
    hide Sched.Core, Sched.Shape, GoodStep, OnlyMoves, Sched.Timely, Sched.Settled, Delete;
    InvShape(s);
    DeleteSafe(s, x);
    GoodMove(s, DeleteTask(x), Delete(s, x), x);
  }

  lemma CleanUpGood(s: Sched)
    requires Enabled(s, CleanUp)
    ensures GoodStep(s, CleanUp, Step(s, CleanUp))
  {
    hide Sched.Core, Sched.Shape, GoodStep, OnlyMoves, Sched.Timely, Sched.Settled, CleanUpOne;
    InvShape(s);
    s.ListsKnown();
    CleanUpSafe(s);
    GoodMove(s, CleanUp, CleanUpOne(s), s.state.lists[WaitingTermination].items[0]);
  }

  lemma ResetGood(s: Sched, r: Sched)
    requires Enabled(s, ResetUnblock) && s.Shape() && r == s.ResetUnblockTime()
    ensures GoodStep(s, ResetUnblock, r)
  {
    hide Sched.Core, Sched.Shape, Sched.Timely, Untouched, GoodStep, Sched.ResetUnblockTime;
    s.ListsKnown();
    ResetKeepsTimely(s);
    ResetOnly(s);
    StillUntouched(s, r);
    GoodStill(s, ResetUnblock, r);
  }

  /** Every step of the kernel keeps the invariant and disturbs no task that it is not about. */
  lemma EveryStepGood(s: Sched, a: Action)
    requires Enabled(s, a)
    ensures GoodStep(s, a, Step(s, a))
  {
    hide Sched.Core, GoodStep, Sched.Timely, Sched.Settled;
    match a {
      case Tick => TickGood(s);
      case SuspendScheduler => SuspendGood(s);
      case ResumeScheduler => if s.suspended == 1 { LastResumeGood(s); } else { InnerResumeGood(s); }
      case Switch =>
        SwitchSafe(s);
        GoodStill(s, a, SwitchContext(s));
      case MissedYield => YieldGood(s);
      case Block(_, _) => BlockingGood(s, a);
      case Place(_, _) => BlockingGood(s, a);
      case PlaceUnordered(_, _, _) => BlockingGood(s, a);
      case Remove(_) => WakingGood(s, a);
      case RemoveUnordered(_, _) => WakingGood(s, a);
      case ResumeTask(_) => WakingGood(s, a);
      case ResumeTaskFromISR(_) => WakingGood(s, a);
      case Abort(_) => WakingGood(s, a);
      case SetPriority(_, _) => PriorityGood(s, a);
      case InheritTo(_) => PriorityGood(s, a);
      case HoldMutex => PriorityGood(s, a);
      case GiveMutex => PriorityGood(s, a);
      case ResetItem => PriorityGood(s, a);
      case CheckTimeOut => PriorityGood(s, a);
      case TimeOutOn(_, _) => PriorityGood(s, a);
      case SuspendTask(_) => WakingGood(s, a);
      case ResetUnblock =>
        InvShape(s);
        ResetGood(s, s.ResetUnblockTime());
      case CreateTask(_, _) => LifeGood(s, a);
      case DeleteTask(_) => LifeGood(s, a);
      case CleanUp => LifeGood(s, a);
    }
  }

  // ----- runs -----

  /** Any interleaving of legal steps.  A step is asked to be legal only where the invariant holds, which
      InvariantHolds shows to be everywhere. */
  ghost predicate IsRun(states: seq<Sched>, actions: seq<Action>) {
    && |states| == |actions| + 1
    && forall k :: 0 <= k < |actions| && states[k].Inv() ==>
         Legal(states[k], actions[k]) && states[k + 1] == Step(states[k], actions[k])
  }

  /** The invariant holds throughout: each task is on exactly the one state list that its item names,
      the ready lists match the priorities, both delayed lists are in wake order, nobody is overdue, and
      nothing is held back once the scheduler runs. */
  lemma {:induction false} InvariantHolds(states: seq<Sched>, actions: seq<Action>, k: nat)
    requires IsRun(states, actions) && states[0].Inv() && k <= |actions|
    ensures states[k].Inv()
    decreases k
  {
    if k > 0 {
      hide Sched.Inv, Step, Legal;
      InvariantHolds(states, actions, k - 1);
      StepKeepsInv(states[k - 1], actions[k - 1]);
    }
  }

  lemma RunStep(states: seq<Sched>, actions: seq<Action>, k: nat)
    requires IsRun(states, actions) && states[0].Inv() && k < |actions|
    ensures Enabled(states[k], actions[k]) && states[k + 1] == Step(states[k], actions[k])
  {
    hide Sched.Inv, Step, Legal;
    InvariantHolds(states, actions, k);
  }

  lemma StepKeepsInv(s: Sched, a: Action)
    requires Enabled(s, a)
    ensures Step(s, a).Inv() && Step(s, a).Now() >= s.Now()
  {
    hide Step, Sched.Inv, Touches;
    EveryStepGood(s, a);
  }

  ghost predicate WaitsUntil(s: Sched, x: Task, due: nat) {
    x in s.tcbs && x in s.state.place && Where(s, x) == Until(due)
  }

  ghost predicate IsReady(s: Sched, x: Task) {
    x in s.tcbs && x in s.state.place && s.state.place[x] == Ready(s.tcbs[x].priority)
  }

  /** The step wakes, suspends or deletes task x, which waits for a tick. */
  ghost predicate EndsWait(s: Sched, a: Action, x: Task)
    requires Enabled(s, a)
  {
    match a
    case ResumeScheduler => s.suspended == 1 && Pending(s, x)
    case Remove(e) => s.suspended == 0 && x == s.event.lists[e].items[0]
    case RemoveUnordered(y, _) => x == y
    case SuspendTask(y) => x == y
    case Abort(y) => x == y
    case DeleteTask(y) => x == y
    case _ => false
  }

  /** Nothing but time ends the wait of task x between the given state and tick due.  Its priority may
      change meanwhile. */
  ghost predicate LeftAlone(states: seq<Sched>, actions: seq<Action>, from: nat, x: Task, due: nat)
    requires |states| == |actions| + 1
  {
    forall k :: from <= k < |actions| && Enabled(states[k], actions[k]) && states[k].Now() < due ==>
      !EndsWait(states[k], actions[k], x)
  }

  /** The wait goes on: same place, and the clock stands still. */
  ghost predicate StillWaits(s: Sched, r: Sched, x: Task, due: nat) {
    WaitsUntil(r, x, due) && r.Now() == s.Now()
  }

  lemma RequeuedWaits(s: Sched, r: Sched, x: Task, y: Task, tcb: Tcb, due: nat)
    requires WaitsUntil(s, x, due) && y in s.tcbs && y in s.state.place && Requeued(s, r, y, tcb)
    requires tcb.wake == s.tcbs[y].wake
    ensures StillWaits(s, r, x, due)
  {
  }

  /** A change of priority does not disturb a wait. */
  lemma RequeueWaits(s: Sched, x: Task, tcb: Tcb, due: nat)
    requires s.Inv() && WaitsUntil(s, x, due) && tcb.wake == s.tcbs[x].wake
    requires tcb.priority < MAX_PRIORITIES && tcb.basePriority < MAX_PRIORITIES
    ensures StillWaits(s, Requeue(s, x, tcb), x, due)
  {
    hide Roster.Consistent, Requeue, Sched.ReadyListsMatch, Sched.DelaysSorted, Sched.EventWaitersBlocked,
         Sched.Timely, Sched.Settled, OnlyMoves, Where, WaitsUntil, Requeued, StillWaits;
    WaiterKnown(s, x, due);
    RequeueSafe(s, x, tcb);
    RequeuedWaits(s, Requeue(s, x, tcb), x, x, tcb, due);
  }

  lemma WaiterKnown(s: Sched, x: Task, due: nat)
    requires WaitsUntil(s, x, due)
    ensures x in s.tcbs && x in s.state.place && !s.state.place[x].Ready? && !IsSuspended(s, x)
    ensures s.state.place[x] != WaitingTermination
    ensures StillWaits(s, s, x, due)
  {
  }

  lemma SetPriorityWaits(s: Sched, x: Task, p: nat, due: nat)
    requires s.Inv() && WaitsUntil(s, x, due)
    ensures x in s.tcbs && StillWaits(s, PrioritySet(s, x, p), x, due)
  {
    WaiterKnown(s, x, due);
    hide Roster.Consistent, Requeue, Sched.ReadyListsMatch, Sched.DelaysSorted, Sched.EventWaitersBlocked,
         Sched.Timely, Sched.Settled, Where, WaitsUntil, StillWaits;
    var q := if p >= MAX_PRIORITIES then MAX_PRIORITIES - 1 else p;
    var tcb := s.tcbs[x];
    RequeueWaits(s, x, tcb.(priority := if tcb.basePriority == tcb.priority then q else tcb.priority,
                            basePriority := q, eventValue := EventValueFor(tcb, q)), due);
  }

  lemma InheritWaits(s: Sched, x: Task, due: nat)
    requires s.Inv() && WaitsUntil(s, x, due)
    ensures x in s.tcbs && StillWaits(s, Inherit(s, x), x, due)
  {
    WaiterKnown(s, x, due);
    hide Roster.Consistent, Requeue, Sched.ReadyListsMatch, Sched.DelaysSorted, Sched.EventWaitersBlocked,
         Sched.Timely, Sched.Settled, Where, WaitsUntil, StillWaits;
    var tcb, p := s.tcbs[x], s.tcbs[s.current].priority;
    RequeueWaits(s, x, tcb.(priority := p, eventValue := EventValueFor(tcb, p)), due);
  }

  lemma TimeOutOnWaits(s: Sched, x: Task, highest: nat, due: nat)
    requires s.Inv() && WaitsUntil(s, x, due) && highest < MAX_PRIORITIES
    ensures x in s.tcbs && StillWaits(s, DisinheritAfterTimeout(s, x, highest), x, due)
  {
    WaiterKnown(s, x, due);
    hide Roster.Consistent, Requeue, Sched.ReadyListsMatch, Sched.DelaysSorted, Sched.EventWaitersBlocked,
         Sched.Timely, Sched.Settled, Where, WaitsUntil, StillWaits;
    var tcb := s.tcbs[x];
    var p := Max(tcb.basePriority, highest);
    RequeueWaits(s, x, tcb.(priority := p, eventValue := EventValueFor(tcb, p)), due);
  }

  /** Nor does a change to anything else in the control block but the wake time. */
  lemma MarkWaits(s: Sched, x: Task, tcb: Tcb, due: nat)
    requires s.Inv() && WaitsUntil(s, x, due) && x in s.tcbs && tcb.wake == s.tcbs[x].wake
    requires tcb.priority < MAX_PRIORITIES && tcb.basePriority < MAX_PRIORITIES
    ensures StillWaits(s, SetTcb(s, x, tcb), x, due)
  {
    hide Sched.Core, Sched.Shape, SetTcb, Sched.Timely, Sched.Settled;
    InvShape(s);
    s.ListsKnown();
    SetTcbOnly(s, x, tcb);
  }

  lemma OwnMarkWaits(s: Sched, a: Action, due: nat)
    requires Enabled(s, a) && (a.HoldMutex? || a.ResetItem? || a.CheckTimeOut?) && WaitsUntil(s, s.current, due)
    ensures StillWaits(s, Step(s, a), s.current, due)
  {
    hide Roster.Consistent, SetTcb, Sched.ReadyListsMatch, Sched.DelaysSorted, Sched.EventWaitersBlocked,
         Sched.Timely, Sched.Settled, Where, WaitsUntil, StillWaits;
    var x := s.current;
    var tcb := s.tcbs[x];
    WaiterKnown(s, x, due);
    MarkWaits(s, x, tcb.(mutexesHeld := tcb.mutexesHeld + 1), due);
    MarkWaits(s, x, tcb.(eventValue := MAX_PRIORITIES - tcb.priority), due);
    MarkWaits(s, x, tcb.(delayAborted := false), due);
  }

  /** While the scheduler is suspended a waiter taken off its event list still waits for its tick. */
  lemma HeldBackWaits(s: Sched, e: EventList, due: nat)
    requires s.Inv() && HasWaiter(s, e) && s.suspended > 0 && WaitsUntil(s, s.event.lists[e].items[0], due)
    ensures StillWaits(s, RemoveFromEventList(s, e), s.event.lists[e].items[0], due)
  {
    hide Sched.Core, RemoveFromEventList, Sched.Timely, Sched.Settled, Untouched;
    RemoveFromEventListSafe(s, e);
    hide Where, Sched.Now;
  }

  lemma InnerResumeWaits(s: Sched, x: Task, due: nat)
    requires s.Inv() && s.suspended > 1 && WaitsUntil(s, x, due)
    ensures StillWaits(s, ResumeAll(s), x, due)
  {
    SamePlace(s, ResumeAll(s));
    hide Sched.Core, Where;
  }

  /** A step about task x that does not end its wait lets it go on. */
  lemma TouchedWaits(s: Sched, a: Action, x: Task, due: nat)
    requires Enabled(s, a) && WaitsUntil(s, x, due) && Touches(s, a, x) && !EndsWait(s, a, x)
    ensures StillWaits(s, Step(s, a), x, due)
  {
    hide Sched.Core, Where, WaitsUntil, StillWaits, Sched.Timely, Sched.Settled, TickStep, ResumeAll,
         RemoveFromEventList, PrioritySet, Inherit, DisinheritAfterTimeout;
    WaiterKnown(s, x, due);
    if a.SetPriority? {
      SetPriorityWaits(s, x, a.priority, due);
    } else if a.InheritTo? {
      InheritWaits(s, x, due);
    } else if a.TimeOutOn? {
      TimeOutOnWaits(s, x, a.highestWaiting, due);
    } else if a.HoldMutex? || a.ResetItem? || a.CheckTimeOut? {
      OwnMarkWaits(s, a, due);
    } else if a.Remove? {
      HeldBackWaits(s, a.e, due);
    } else if a.ResumeScheduler? {
      InnerResumeWaits(s, x, due);
    } else if a.CleanUp? {
      CleanUpSafe(s);
    }
  }

  lemma StepTowards(s: Sched, a: Action, x: Task, due: nat)
    requires Enabled(s, a) && WaitsUntil(s, x, due) && !EndsWait(s, a, x)
    ensures var r := Step(s, a);
      if r.Now() < due then WaitsUntil(r, x, due) else IsReady(r, x)
  {
    hide Step, Sched.Core, Touches, Sched.Now, Legal, EndsWait, Sched.Timely, Sched.Settled;
    if Touches(s, a, x) {
      TouchedWaits(s, a, x, due);
      DueLater(s, x, due);
    } else {
      EveryStepGood(s, a);
      assert Undisturbed(s, Step(s, a), x);
    }
  }

  lemma DueLater(s: Sched, x: Task, due: nat)
    requires s.Timely() && WaitsUntil(s, x, due)
    ensures s.Now() < due
  {
    TimelyIsFuture(s);
    hide Where, Sched.Now, Sched.Timely;
  }

  /** In every run, over any number of tick wraps, a task that waits for tick due and is not woken,
      suspended or deleted before is still waiting in every state before that tick, and is ready
      immediately after the step that reaches it. */
  lemma {:induction false} WakesOnTime(states: seq<Sched>, actions: seq<Action>, from: nat, x: Task, due: nat, k: nat)
    requires IsRun(states, actions) && states[0].Inv() && from <= k <= |actions|
    requires WaitsUntil(states[from], x, due) && LeftAlone(states, actions, from, x, due)
    ensures states[k].Now() < due ==> WaitsUntil(states[k], x, due)
    ensures k > from && states[k - 1].Now() < due <= states[k].Now() ==> IsReady(states[k], x)
    decreases k
  {
    hide Step, EndsWait, WaitsUntil, IsReady, Sched.Now, Sched.Inv, Legal;
    if k > from {
      WakesOnTime(states, actions, from, x, due, k - 1);
      RunStep(states, actions, k - 1);
      StepKeepsInv(states[k - 1], actions[k - 1]);
      if states[k - 1].Now() < due {
        StepTowards(states[k - 1], actions[k - 1], x, due);
      }
    }
  }

  lemma BlockWaits(s: Sched, d: Tick)
    requires Enabled(s, Block(d, false))
    ensures WaitsUntil(Step(s, Block(d, false)), s.current, s.Now() + d)
  {
    hide Sched.Core;
    BlockSafe(s, d, false);
  }

  /** The whole story of a delay: a task that blocks for d ticks in step i, at true tick T, waits in every
      later state before T + d, whatever becomes of its priority, and wakes in the step that reaches T + d. */
  lemma DelayIsExact(states: seq<Sched>, actions: seq<Action>, i: nat, d: Tick, k: nat)
    requires IsRun(states, actions) && states[0].Inv() && i < k <= |actions| && actions[i] == Block(d, false)
    requires LeftAlone(states, actions, i + 1, states[i].current, states[i].Now() + d)
    ensures var x, due := states[i].current, states[i].Now() + d;
      && (states[k].Now() < due ==> WaitsUntil(states[k], x, due))
      && (k > i + 1 && states[k - 1].Now() < due <= states[k].Now() ==> IsReady(states[k], x))
  {
    hide EndsWait, IsReady, Step, WaitsUntil, Sched.Now, Sched.Inv, Legal;
    RunStep(states, actions, i);
    BlockWaits(states[i], d);
    WakesOnTime(states, actions, i + 1, states[i].current, states[i].Now() + d, k);
  }

  // ----- no tick is lost -----

  function TicksIn(actions: seq<Action>): nat {
    if actions == [] then 0
    else TicksIn(actions[..|actions| - 1]) + if actions[|actions| - 1] == Tick then 1 else 0
  }

  /** This tick wraps xPendedTicks. */
  ghost predicate WrapsPended(s: Sched, a: Action) {
    a == Tick && s.suspended > 0 && s.pended == MAX_DELAY
  }

  /** How many ticks of a run wrap xPendedTicks. */
  ghost function Wraps(states: seq<Sched>, actions: seq<Action>, k: nat): nat
    requires |actions| >= k && |states| >= k
    decreases k
  {
    if k == 0 then 0
    else Wraps(states, actions, k - 1) + if WrapsPended(states[k - 1], actions[k - 1]) then 1 else 0
  }

  /** Ticks processed so far, and those held back. */
  ghost function Delivered(s: Sched): nat {
    s.Now() + s.pended
  }

  /** The clock stands still, there are no other event lists and no new tasks. */
  ghost predicate Framed(s: Sched, r: Sched) {
    && r.pended == s.pended && r.tick == s.tick && r.overflows == s.overflows
    && r.event.lists.Keys == s.event.lists.Keys && r.tcbs.Keys <= s.tcbs.Keys
  }

  lemma BlockingFrame(s: Sched, a: Action)
    requires Enabled(s, a) && IsBlocking(a)
    ensures Framed(s, Step(s, a))
  {
    hide Sched.Core, Sched.Shape, Roster.Take, Roster.PutEnd, Roster.PutSorted, Roster.Move, Sched.Timely,
         Sched.Settled, Roster.Consistent;
    InvShape(s);
    if !a.Block? {
      CurrentUnplaced(s);
      OnEventListHasTcb(s, a.e);
    }
  }

  lemma RemoveFrame(s: Sched, e: EventList)
    requires s.Shape() && e in s.event.lists && s.event.lists[e].items != []
    ensures Framed(s, RemoveFromEventList(s, e))
  {
    EventHead(s, e);
    hide Roster.Consistent, Roster.Move, Roster.TakeIfPlaced;
  }

  lemma RemoveUnorderedFrame(s: Sched, x: Task, v: Tick)
    requires s.Shape() && x in s.event.place
    ensures Framed(s, RemoveFromUnordered(s, x, v))
  {
    hide Roster.Consistent, Roster.TakeIfPlaced, MoveTask;
  }

  lemma MovingFrame(s: Sched, a: Action)
    requires Enabled(s, a) && (a.ResumeTask? || a.ResumeTaskFromISR? || a.Abort? || a.SuspendTask?)
    ensures Framed(s, Step(s, a))
  {
    hide Sched.Core, Sched.Shape, Sched.Timely, Sched.Settled, Framed, Suspend, Resume, ResumeFromISR, AbortDelay;
    InvShape(s);
    if a.SuspendTask? {
      SuspendFrame(s, a.x);
    } else if a.ResumeTask? {
      ResumeFrame(s, a.x);
    } else if a.ResumeTaskFromISR? {
      ResumeFromISRFrame(s, a.x);
    } else {
      AbortFrame(s, a.x);
    }
  }

  lemma SuspendFrame(s: Sched, x: Task)
    requires s.Shape() && x in s.tcbs
    ensures Framed(s, Suspend(s, x))
  {
    hide Sched.Shape, Roster.TakeIfPlaced, MoveTask;
    s.TaskKnown(x);
  }

  lemma ResumeFrame(s: Sched, x: Task)
    requires s.Shape() && x in s.tcbs
    ensures Framed(s, Resume(s, x))
  {
    hide Sched.Shape, MoveTask;
    s.TaskKnown(x);
  }

  lemma ResumeFromISRFrame(s: Sched, x: Task)
    requires s.Shape() && x in s.tcbs
    ensures Framed(s, ResumeFromISR(s, x))
  {
    hide Sched.Shape, MoveTask, Roster.PutEnd;
    s.TaskKnown(x);
    s.ListsKnown();
  }

  lemma AbortFrame(s: Sched, x: Task)
    requires s.Shape() && x in s.tcbs
    ensures Framed(s, AbortDelay(s, x))
  {
    hide Sched.Shape, Roster.TakeIfPlaced, MoveTask;
    s.TaskKnown(x);
    s.ListsKnown();
  }

  lemma EventShape(s: Sched)
    requires s.Shape()
    ensures s.event.Consistent() && PendingReady in s.event.lists && s.state.Consistent()
  {
  }

  lemma LendingFrame(s: Sched, a: Action)
    requires Enabled(s, a) && (a.InheritTo? || a.TimeOutOn?)
    ensures Framed(s, Step(s, a))
  {
    hide Sched.Core, Sched.Shape, Roster.Move, Sched.Timely, Sched.Settled;
    InvShape(s);
  }

  lemma SetPriorityFrame(s: Sched, x: Task, p: nat)
    requires s.Shape() && x in s.tcbs
    ensures Framed(s, PrioritySet(s, x, p))
  {
    hide Roster.Consistent, Roster.Move;
  }

  lemma OwnFrame(s: Sched, a: Action)
    requires Enabled(s, a) && (a.HoldMutex? || a.GiveMutex? || a.ResetItem? || a.CheckTimeOut?)
    ensures Framed(s, Step(s, a))
  {
    hide Sched.Core, Sched.Shape, Roster.Move, Sched.Timely, Sched.Settled;
    InvShape(s);
  }

  lemma DeathFrame(s: Sched, a: Action)
    requires Enabled(s, a) && (a.DeleteTask? || a.CleanUp?)
    ensures Framed(s, Step(s, a))
  {
    hide Sched.Core, Sched.Shape, Sched.Timely, Sched.Settled, Framed, Delete, CleanUpOne;
    InvShape(s);
    if a.DeleteTask? {
      ForgetNumbers(s);
      DeleteFrame(s, a.x);
    } else {
      CleanUpFrame(s);
    }
  }

  lemma DeleteFrame(s: Sched, x: Task)
    requires s.Shape() && x in s.tcbs && s.numberOfTasks > 0
    ensures Framed(s, Delete(s, x))
  {
    hide Sched.Shape, Roster.Take, Roster.TakeIfPlaced, MoveTask;
    s.ListsKnown();
    s.TaskKnown(x);
  }

  lemma CleanUpFrame(s: Sched)
    requires s.Core() && s.current == IDLE && s.deletedTasks > 0
    ensures Framed(s, CleanUpOne(s))
  {
    hide Sched.Core, Sched.Shape, Roster.Take, Roster.TakeIfPlaced;
    s.CoreShape();
    s.ListsKnown();
    DeletedHead(s);
  }

  lemma BookkeepingFrame(s: Sched, a: Action)
    requires Enabled(s, a) && IsBookkeeping(a)
    ensures Framed(s, Step(s, a))
  {
    hide Roster.Consistent, Sched.ReadyListsMatch, Sched.DelaysSorted, Sched.EventWaitersBlocked, FindTop,
         Sched.Timely, Sched.Settled;
  }

  /** What all steps but a tick, the resumption of the scheduler and the birth of a task leave alone. */
  lemma StepFrame(s: Sched, a: Action)
    requires Enabled(s, a) && !a.Tick? && !a.ResumeScheduler? && !a.CreateTask?
    ensures Framed(s, Step(s, a))
  {
    hide Sched.Core, Sched.Shape, Sched.Timely, Sched.Settled, Framed, RemoveFromEventList, RemoveFromUnordered;
    InvShape(s);
    if IsBlocking(a) {
      BlockingFrame(s, a);
    } else if a.SetPriority? {
      SetPriorityFrame(s, a.x, a.priority);
    } else if a.InheritTo? || a.TimeOutOn? {
      LendingFrame(s, a);
    } else if IsRanking(a) {
      OwnFrame(s, a);
    } else if IsBookkeeping(a) {
      BookkeepingFrame(s, a);
    } else if a.DeleteTask? || a.CleanUp? {
      DeathFrame(s, a);
    } else if a.Remove? {
      RemoveFrame(s, a.e);
    } else if a.RemoveUnordered? {
      RemoveUnorderedFrame(s, a.x, a.value);
    } else {
      MovingFrame(s, a);
    }
  }

  lemma CreateFrame(s: Sched, x: Task, p: nat)
    requires s.Shape() && x !in s.tcbs
    ensures var r := Create(s, x, p);
      && r.pended == s.pended && r.tick == s.tick && r.overflows == s.overflows
      && r.event == s.event && r.tcbs.Keys == s.tcbs.Keys + {x}
  {
    hide Roster.Consistent, Roster.PutEnd;
  }

  lemma HeldTickCounts(s: Sched)
    requires s.Inv() && s.suspended > 0
    ensures Delivered(TickStep(s).s) + (if s.pended == MAX_DELAY then 0x1_0000_0000 else 0) == Delivered(s) + 1
  {
    hide Sched.Inv;
  }

  lemma InnerResumeCounts(s: Sched)
    requires s.Inv() && s.suspended > 1
    ensures Delivered(ResumeAll(s)) == Delivered(s)
  {
    hide Sched.Core, Sched.Timely, Sched.Settled;
  }

  lemma LiveTickCounts(s: Sched)
    requires s.Inv() && s.suspended == 0
    ensures Delivered(TickStep(s).s) == Delivered(s) + 1
  {
    hide Roster.Consistent, Sched.ReadyListsMatch, Sched.DelaysSorted, Sched.EventWaitersBlocked, AfterTicks, TickStep,
         Sched.Now, Sched.Timely;
    TickEffect(s);
    TickSettled(s, TickStep(s).s);
  }

  lemma LastResumeCounts(s: Sched)
    requires s.Inv() && s.suspended == 1
    ensures Delivered(ResumeAll(s)) == Delivered(s)
  {
    hide Roster.Consistent, Sched.ReadyListsMatch, Sched.DelaysSorted, Sched.EventWaitersBlocked, ResumedTo, ResumeAll,
         Sched.Now, Sched.Timely, Sched.Settled, GoodStep;
    LastResumeGood(s);
    ResumeEffect(s);
  }

  lemma TickConserves(s: Sched)
    requires s.Inv()
    ensures Delivered(TickStep(s).s) + (if WrapsPended(s, Tick) then 0x1_0000_0000 else 0) == Delivered(s) + 1
  {
    hide TickStep, Delivered, Sched.Core;
    if s.suspended == 0 {
      LiveTickCounts(s);
    } else {
      HeldTickCounts(s);
    }
  }

  lemma ResumeConserves(s: Sched)
    requires s.Inv() && s.suspended > 0
    ensures Delivered(ResumeAll(s)) == Delivered(s)
  {
    hide ResumeAll, Delivered, Sched.Core;
    if s.suspended == 1 {
      LastResumeCounts(s);
    } else {
      InnerResumeCounts(s);
    }
  }

  lemma SameTimeSameCount(s: Sched, r: Sched)
    requires r.pended == s.pended && r.tick == s.tick && r.overflows == s.overflows
    ensures Delivered(r) == Delivered(s)
  {
  }

  lemma StepConserves(s: Sched, a: Action)
    requires Enabled(s, a)
    ensures Delivered(Step(s, a)) + (if WrapsPended(s, a) then 0x1_0000_0000 else 0) ==
            Delivered(s) + if a == Tick then 1 else 0
  {
    hide Delivered, Sched.Inv, Step, Legal, WrapsPended;
    if a == Tick || a == ResumeScheduler {
      TimeConserves(s, a);
    } else {
      WrapsOnTicks(s, a);
      if a.CreateTask? {
        CreateStepFrame(s, a);
      } else {
        StepFrame(s, a);
      }
      SameTimeSameCount(s, Step(s, a));
    }
  }

  lemma WrapsOnTicks(s: Sched, a: Action)
    requires a != Tick
    ensures !WrapsPended(s, a)
  {
  }

  lemma TimeConserves(s: Sched, a: Action)
    requires Enabled(s, a) && (a == Tick || a == ResumeScheduler)
    ensures Delivered(Step(s, a)) + (if WrapsPended(s, a) then 0x1_0000_0000 else 0) ==
            Delivered(s) + if a == Tick then 1 else 0
  {
    hide TickStep, ResumeAll, Delivered, Sched.Core;
    if a == Tick {
      TickConserves(s);
    } else {
      ResumeConserves(s);
    }
  }

  lemma CreateStepFrame(s: Sched, a: Action)
    requires Enabled(s, a) && a.CreateTask?
    ensures var r := Step(s, a); r.pended == s.pended && r.tick == s.tick && r.overflows == s.overflows
  {
    hide Sched.Core, Sched.Shape, Sched.Timely, Sched.Settled, Create;
    InvShape(s);
    CreateFrame(s, a.x, a.priority);
  }

  /** Every tick delivered to the kernel is either processed or still held back.  The only way to lose
      ticks is to hold back 2^32 of them in one suspension. */
  lemma {:induction false} TicksConserved(states: seq<Sched>, actions: seq<Action>, k: nat)
    requires IsRun(states, actions) && states[0].Inv() && k <= |actions|
    ensures Delivered(states[k]) + 0x1_0000_0000 * Wraps(states, actions, k) ==
            Delivered(states[0]) + TicksIn(actions[..k])
    decreases k
  {
    hide Step, Delivered, Sched.Inv, Legal;
    if k > 0 {
      TicksConserved(states, actions, k - 1);
      RunStep(states, actions, k - 1);
      StepConserves(states[k - 1], actions[k - 1]);
      assert actions[..k][..k - 1] == actions[..k - 1];
    }
  }

  // ----- counting the tasks -----

  /** The tasks on the ready lists below priority p, and the length of those lists. */
  function ReadyBelow(place: map<Task, StateList>, p: nat): set<Task> {
    set x | x in place && place[x].Ready? && place[x].priority < p
  }

  function ReadyLength(s: Sched, p: nat): nat
    requires s.Shape() && p <= MAX_PRIORITIES
  {
    if p == 0 then 0 else ReadyLength(s, p - 1) + |s.state.lists[Ready(p - 1)].items|
  }

  lemma ReadyOneMore(r: Roster<StateList>, p: nat)
    ensures |ReadyBelow(r.place, p + 1)| == |ReadyBelow(r.place, p)| + |r.On(Ready(p))|
  {
    assert ReadyBelow(r.place, p + 1) == ReadyBelow(r.place, p) + r.On(Ready(p));
    assert ReadyBelow(r.place, p) !! r.On(Ready(p));
  }

  lemma {:induction false} ReadySize(s: Sched, p: nat)
    requires s.Shape() && p <= MAX_PRIORITIES
    ensures |ReadyBelow(s.state.place, p)| == ReadyLength(s, p)
  {
    if p == 0 {
      assert ReadyBelow(s.state.place, 0) == {};
    } else {
      s.state.ListSize(Ready(p - 1));
      hide Roster.Consistent, ReadyBelow, Roster.On, Sched.Shape;
      ReadySize(s, p - 1);
      ReadyOneMore(s.state, p - 1);
    }
  }

  lemma UnionSize<T>(a: set<T>, b: set<T>)
    requires a !! b
    ensures |a + b| == |a| + |b|
  {
  }

  lemma EveryTaskSomewhere(r: Roster<StateList>, p: nat)
    requires forall x :: x in r.place && r.place[x].Ready? ==> r.place[x].priority < p
    ensures |r.place| == |ReadyBelow(r.place, p)| + |r.On(Delayed1)| + |r.On(Delayed2)| + |r.On(SuspendedTasks)|
                         + |r.On(WaitingTermination)|
  {
    var a, b, c := ReadyBelow(r.place, p), r.On(Delayed1), r.On(Delayed2);
    var d, e := r.On(SuspendedTasks), r.On(WaitingTermination);
    UnionSize(a, b);
    UnionSize(a + b, c);
    UnionSize(a + b + c, d);
    UnionSize(a + b + c + d, e);
    var all := a + b + c + d + e;
    forall x | x in r.place.Keys ensures x in all {
      var l := r.place[x];
      assert l.Ready? || l == Delayed1 || l == Delayed2 || l == SuspendedTasks || l == WaitingTermination;
    }
    assert r.place.Keys == all;
  }

  lemma AllPrioritiesLow(s: Sched)
    requires s.Core()
    ensures forall x :: x in s.state.place && s.state.place[x].Ready? ==> s.state.place[x].priority < MAX_PRIORITIES
    ensures |s.state.place| == s.numberOfTasks
  {
    assert s.state.place.Keys == s.tcbs.Keys;
    hide Roster.Consistent, Sched.DelaysSorted;
  }

  /** The lengths of the state lists add up to uxCurrentNumberOfTasks. */
  lemma ListsHoldEveryTask(s: Sched)
    requires s.Inv()
    ensures s.numberOfTasks == ReadyLength(s, MAX_PRIORITIES)
                               + |s.state.lists[Delayed1].items| + |s.state.lists[Delayed2].items|
                               + |s.state.lists[SuspendedTasks].items| + |s.state.lists[WaitingTermination].items|
  {
    hide Roster.Consistent, ReadyLength, ReadyBelow, Sched.ReadyListsMatch, Sched.DelaysSorted,
         Sched.EventWaitersBlocked, Roster.On;
    AllPrioritiesLow(s);
    ReadySize(s, MAX_PRIORITIES);
    s.state.ListSize(Delayed1);
    s.state.ListSize(Delayed2);
    s.state.ListSize(SuspendedTasks);
    s.state.ListSize(WaitingTermination);
    EveryTaskSomewhere(s.state, MAX_PRIORITIES);
  }

  // ----- equal shares -----

  /** The tasks chosen by n context switches in a row. */
  ghost function Chosen(s: Sched, n: nat): seq<Task>
    requires s.Core() && s.suspended == 0
    decreases n
  {
    if n == 0 then [] else
      SwitchKeepsCore(s);
      SwitchFrame(s);
      var r := SwitchContext(s);
      [r.current] + Chosen(r, n - 1)
  }

  lemma SwitchStaysOnTop(s: Sched)
    requires s.Core() && s.suspended == 0
    ensures var p, r := FindTop(s, s.topReady), SwitchContext(s);
      && r.Core() && r.suspended == 0 && r.topReady == p && FindTop(r, p) == p
      && r.state.lists[Ready(p)] == s.state.lists[Ready(p)].Advance()
      && s.state.lists[Ready(p)].items != []
      && r.current == s.state.lists[Ready(p)].NextItem()
  {
    SomethingReady(s);
    SwitchKeepsCore(s);
  }

  /** Context switches that follow one another, with nothing else changing, go round the ready tasks of
      the highest priority in list order from wherever the cursor is. */
  lemma {:induction false} ChosenInTurn(s: Sched, n: nat)
    requires s.Core() && s.suspended == 0
    ensures s.state.lists[Ready(FindTop(s, s.topReady))].items != []
    ensures Chosen(s, n) == Reads(s.state.lists[Ready(FindTop(s, s.topReady))], n)
    decreases n
  {
    hide Sched.Core, SwitchContext, FindTop;
    SwitchStaysOnTop(s);
    if n > 0 {
      ChosenInTurn(SwitchContext(s), n - 1);
    }
  }

  /** Of the m ready tasks of the highest priority, m switches choose each exactly once. */
  lemma EqualShares(s: Sched)
    requires s.Core() && s.suspended == 0
    ensures var ready := s.state.lists[Ready(FindTop(s, s.topReady))].items;
      && |Chosen(s, |ready|)| == |ready| && Distinct(Chosen(s, |ready|))
      && forall x :: x in Chosen(s, |ready|) <==> x in ready
  {
    var l := s.state.lists[Ready(FindTop(s, s.topReady))];
    assert l.Valid();
    hide Sched.Core, FindTop, Chosen;
    ChosenInTurn(s, |l.items|);
    RoundRobin(l);
  }
}
