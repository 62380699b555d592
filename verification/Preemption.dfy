/** Preemption, step by step: which steps of the kernel ask for a context switch, and which leave a ready task
    above the running one without asking.  MutexPreemption puts this together over runs. */
module Preemption {
  import opened Ticks
  import opened Rosters
  import opened Scheduler
  import opened SchedulerTime
  import opened SchedulerSuspension
  import opened SchedulerTasks
  import opened SchedulerSafety
  import opened SchedulerRuns

  ghost predicate IsRunnable(s: Sched, x: Task) {
    x in s.tcbs && x in s.state.place && s.state.place[x].Ready?
  }

  /** The running task is ready, and no ready task has a higher priority. */
  ghost predicate OnTop(s: Sched) {
    IsRunnable(s, s.current) && forall x :: IsRunnable(s, x) ==> s.tcbs[x].priority <= s.tcbs[s.current].priority
  }

  /** vTaskPrioritySet yields. */
  predicate PriorityYields(s: Sched, x: Task, newPriority: nat)
    requires x in s.tcbs && s.current in s.tcbs
  {
    var p, base := if newPriority >= MAX_PRIORITIES then MAX_PRIORITIES - 1 else newPriority, s.tcbs[x].basePriority;
    if p > base then x != s.current && p >= s.tcbs[s.current].priority else p < base && x == s.current
  }

  /** The step asks for a context switch: it yields, returns to the application that a yield is required, or
      sets xYieldPending.  A step that takes the running task off the ready lists is followed by a yield.
      What xTaskPriorityDisinherit returns is up to xQueueGenericSend, which may drop it. */
  ghost predicate Asks(s: Sched, a: Action)
    requires Enabled(s, a)
  {
    hide Roster.Consistent, Sched.Core, Sched.Timely, Sched.Settled;
    InvShape(s);
    var running := s.tcbs[s.current].priority;
    match a
    case Tick => s.suspended == 0 && TickStep(s).switchRequired
    case SuspendScheduler => false
    case ResumeScheduler => s.suspended == 1 && ResumeAll(s).yieldPending
    case Switch => s.suspended > 0
    case MissedYield => true
    case Block(_, _) => true
    case Place(_, _) => true
    case PlaceUnordered(_, _, _) => true
    case Remove(e) =>
      EventHead(s, e);
      s.tcbs[s.event.lists[e].items[0]].priority > running
    case RemoveUnordered(x, _) => s.tcbs[x].priority > running
    case SuspendTask(x) => x == s.current
    case ResetUnblock => false
    case ResumeTask(x) => x != s.current && IsSuspended(s, x) && s.tcbs[x].priority >= running
    case ResumeTaskFromISR(x) => IsSuspended(s, x) && s.suspended == 0 && s.tcbs[x].priority >= running
    case Abort(x) => IsWaiting(s, x) && s.tcbs[x].priority > running
    case SetPriority(x, p) => PriorityYields(s, x, p)
    case InheritTo(_) => false
    case HoldMutex => false
    case GiveMutex => false
    case ResetItem => false
    case CheckTimeOut => false
    case TimeOutOn(_, _) => false
    case CreateTask(_, p) => running < if p >= MAX_PRIORITIES then MAX_PRIORITIES - 1 else p
    case DeleteTask(x) => x == s.current
    case CleanUp => false
  }

  /** Task x was not ready and is. */
  ghost predicate Readied(s: Sched, r: Sched, x: Task) { !IsRunnable(s, x) && IsRunnable(r, x) }

  lemma ResumeAsksExactly(s: Sched, x: Task)
    requires s.Inv() && x in s.tcbs
    ensures x != s.current && IsSuspended(s, x) <==> Readied(s, Resume(s, x), x)
    ensures IsSuspended(s, x) && s.suspended == 0 <==> Readied(s, ResumeFromISR(s, x), x)
  {
    hide Roster.Consistent, Sched.ReadyListsMatch, Sched.DelaysSorted, Sched.EventWaitersBlocked, Sched.Timely,
         Sched.Settled, Roster.Move, Roster.PutEnd;
  }

  lemma AbortAsksExactly(s: Sched, x: Task)
    requires s.Inv() && x in s.tcbs
    ensures IsWaiting(s, x) <==> Readied(s, AbortDelay(s, x), x)
  {
    hide Roster.Consistent, Sched.ReadyListsMatch, Sched.DelaysSorted, Sched.EventWaitersBlocked, Sched.Timely,
         Sched.Settled, Roster.Move, Roster.TakeIfPlaced;
  }

  lemma WakeAsksExactly(s: Sched, x: Task, v: Tick)
    requires s.Core() && x in s.event.place
    ensures Readied(s, RemoveFromUnordered(s, x, v), x)
  {
    hide Roster.Consistent, Sched.ReadyListsMatch, Sched.DelaysSorted, Roster.Move, Roster.TakeIfPlaced;
  }

  /** Resuming a suspended task asks for a switch exactly if it readies the task and that is at least of the running
      task's priority. */
  lemma ResumingAsks(s: Sched, a: Action)
    requires Enabled(s, a) && (a.ResumeTask? || a.ResumeTaskFromISR?)
    ensures a.x in s.tcbs && s.current in s.tcbs
    ensures Asks(s, a) <==> Readied(s, Step(s, a), a.x) && s.tcbs[a.x].priority >= s.tcbs[s.current].priority
  {
    hide Sched.Core, Sched.Timely, Sched.Settled, Readied, Resume, ResumeFromISR, IsSuspended;
    InvShape(s);
    ResumeAsksExactly(s, a.x);
  }

  /** Ending a wait asks for a switch exactly if it readies a task above the running one. */
  lemma WakingAsks(s: Sched, a: Action)
    requires Enabled(s, a) && (a.Abort? || a.RemoveUnordered?)
    ensures a.x in s.tcbs && s.current in s.tcbs
    ensures Asks(s, a) <==> Readied(s, Step(s, a), a.x) && s.tcbs[a.x].priority > s.tcbs[s.current].priority
  {
    hide Sched.Core, Sched.Timely, Sched.Settled, Readied, AbortDelay, RemoveFromUnordered, IsWaiting;
    InvShape(s);
    if a.Abort? {
      AbortAsksExactly(s, a.x);
    } else {
      WakeAsksExactly(s, a.x, a.value);
    }
  }

  /** Creating a task asks for a switch exactly if the new task is above the running one. */
  lemma CreatingAsks(s: Sched, a: Action)
    requires Enabled(s, a) && a.CreateTask?
    ensures s.current in s.tcbs && a.x in Step(s, a).tcbs
    ensures Asks(s, a) <==> Step(s, a).tcbs[a.x].priority > s.tcbs[s.current].priority
  {
    hide Roster.Consistent, Sched.ReadyListsMatch, Sched.DelaysSorted, Sched.EventWaitersBlocked, Sched.Timely,
         Sched.Settled, Roster.PutEnd;
  }

  /** Suspending and deleting a task ask for a switch exactly if they take the running task off the ready lists. */
  lemma LeavingAsks(s: Sched, a: Action)
    requires Enabled(s, a) && (a.SuspendTask? || a.DeleteTask?) && IsRunnable(s, s.current)
    ensures Asks(s, a) <==> !IsRunnable(Step(s, a), s.current)
  {
    hide Roster.Consistent, Sched.ReadyListsMatch, Sched.DelaysSorted, Sched.EventWaitersBlocked, Sched.Timely,
         Sched.Settled, Roster.Move, Roster.TakeIfPlaced, Roster.Take;
  }

  /** vTaskPrioritySet yields exactly if it has raised another task's base priority to at least the running priority, or
      lowered the running task's own. */
  lemma PriorityYieldsExactly(s: Sched, x: Task, p: nat)
    requires s.Shape() && x in s.tcbs
    ensures var r := PrioritySet(s, x, p);
      && x in r.tcbs
      && (PriorityYields(s, x, p) <==>
            if x == s.current then r.tcbs[x].basePriority < s.tcbs[x].basePriority
            else s.tcbs[x].basePriority < r.tcbs[x].basePriority
                 && s.tcbs[s.current].priority <= r.tcbs[x].basePriority)
  {
    hide Roster.Consistent, Roster.Move;
  }

  /** The two steps that may leave the running task below a ready one without a word: a timeout raises a ready
      holder above the running task, or lowers the running task itself (which the source excludes by an
      assertion); and the return of the last mutex lowers the running task. */
  ghost predicate Unseats(s: Sched, a: Action)
    requires Enabled(s, a)
  {
    hide Sched.Core, Sched.Shape, Sched.Timely, Sched.Settled;
    InvShape(s);
    s.ListsKnown();
    || (a.TimeOutOn? && UnseatedBy(s, a.x, Max(s.tcbs[a.x].basePriority, a.highestWaiting)))
    || (a.GiveMutex? && UnseatedBy(s, s.current, s.tcbs[s.current].basePriority))
  }

  /** Priority p for the holder x of one mutex would leave a ready task above the running one. */
  ghost predicate UnseatedBy(s: Sched, x: Task, p: nat)
    requires x in s.tcbs && s.current in s.tcbs
  {
    && s.tcbs[x].mutexesHeld == 1
    && if x == s.current then exists y :: y != x && IsRunnable(s, y) && s.tcbs[y].priority > p
       else IsRunnable(s, x) && p > s.tcbs[s.current].priority
  }

  // ----- one task moves -----

  /** Only task x moved; it does not stand above the running task, or it is the running task and was not
      lowered. */
  ghost predicate StaysBelow(s: Sched, r: Sched, x: Task) {
    && r.current == s.current && r.tcbs.Keys <= s.tcbs.Keys + {x} && s.current in s.tcbs
    && if x == s.current then IsRunnable(r, x) && r.tcbs[x].priority >= s.tcbs[x].priority
       else IsRunnable(r, x) ==> r.tcbs[x].priority <= s.tcbs[s.current].priority
  }

  lemma StaysOnTop(s: Sched, r: Sched, x: Task)
    requires OnTop(s) && OnlyMoves(s, r, x) && StaysBelow(s, r, x)
    ensures OnTop(r)
  {
    forall y | y != x && y in s.tcbs
      ensures y in r.tcbs && (IsRunnable(s, y) <==> IsRunnable(r, y)) && r.tcbs[y] == s.tcbs[y]
    {
      assert Untouched(s, r, y);
    }
  }

  lemma NobodyMoved(s: Sched, r: Sched)
    requires OnTop(s) && r.state.place == s.state.place && r.tcbs == s.tcbs && r.current == s.current
    ensures OnTop(r)
  {
  }

  lemma RequeuedBelow(s: Sched, r: Sched, x: Task, tcb: Tcb)
    requires OnTop(s) && x in s.tcbs && x in s.state.place && Requeued(s, r, x, tcb)
    requires if x == s.current then tcb.priority >= s.tcbs[x].priority
             else IsRunnable(s, x) ==> tcb.priority <= s.tcbs[s.current].priority
    ensures StaysBelow(s, r, x)
  {
  }

  // ----- waking -----

  lemma TopIsCurrent(s: Sched, x: Task)
    requires s.Core() && OnTop(s) && x in s.event.place
    ensures x in s.tcbs && x != s.current && x in s.state.place && !IsRunnable(s, x)
  {
    hide Roster.Consistent, Sched.ReadyListsMatch, Sched.DelaysSorted;
  }

  lemma RemoveBelow(s: Sched, e: EventList)
    requires Enabled(s, Remove(e)) && OnTop(s) && !Asks(s, Remove(e))
    ensures OnTop(Step(s, Remove(e)))
  {
    hide Roster.Consistent, Sched.ReadyListsMatch, Sched.DelaysSorted, Sched.EventWaitersBlocked, Sched.Timely,
         Sched.Settled, OnlyMoves, OnTop, Roster.Move;
    EventHead(s, e);
    var x, r := s.event.lists[e].items[0], RemoveFromEventList(s, e);
    RemoveFromEventListSafe(s, e);
    TopIsCurrent(s, x);
    assert r.tcbs == s.tcbs && r.current == s.current;
    StaysOnTop(s, r, x);
  }

  lemma RemoveUnorderedBelow(s: Sched, x: Task, v: Tick)
    requires Enabled(s, RemoveUnordered(x, v)) && OnTop(s) && !Asks(s, RemoveUnordered(x, v))
    ensures OnTop(Step(s, RemoveUnordered(x, v)))
  {
    hide Roster.Consistent, Sched.ReadyListsMatch, Sched.DelaysSorted, Sched.EventWaitersBlocked, Sched.Timely,
         Sched.Settled, OnlyMoves, OnTop, Roster.TakeIfPlaced, MoveTask;
    RemoveFromUnorderedSafe(s, x, v);
    TopIsCurrent(s, x);
    StaysOnTop(s, RemoveFromUnordered(s, x, v), x);
  }

  lemma WakingBelow(s: Sched, a: Action)
    requires Enabled(s, a) && OnTop(s) && !Asks(s, a)
    requires a.SuspendTask? || a.ResumeTask? || a.ResumeTaskFromISR? || a.Abort?
    ensures OnTop(Step(s, a))
  {
    hide Roster.Consistent, Sched.Core, Sched.Timely, Sched.Settled, OnlyMoves, Roster.TakeIfPlaced, Roster.Move,
         Roster.PutEnd;
    InvShape(s);
    EventShape(s);
    match a {
      case SuspendTask(x) => SuspendSafe(s, x);
      case ResumeTask(x) => ResumeSafe(s, x);
      case ResumeTaskFromISR(x) => ResumeFromISRSafe(s, x);
      case Abort(x) => AbortDelaySafe(s, x);
    }
    StaysOnTop(s, Step(s, a), a.x);
  }

  // ----- ranking -----

  lemma SetPriorityBelow(s: Sched, x: Task, p: nat)
    requires Enabled(s, SetPriority(x, p)) && OnTop(s) && !Asks(s, SetPriority(x, p))
    ensures OnTop(Step(s, SetPriority(x, p)))
  {
    hide Roster.Consistent, Requeue, Sched.Core, Sched.Timely, Sched.Settled, OnlyMoves, OnTop, Requeued, StaysBelow;
    InvShape(s);
    TopKnown(s, x);
    var q := if p >= MAX_PRIORITIES then MAX_PRIORITIES - 1 else p;
    var tcb := s.tcbs[x];
    if tcb.basePriority != q {
      var after := tcb.(priority := if tcb.basePriority == tcb.priority then q else tcb.priority, basePriority := q,
                        eventValue := EventValueFor(tcb, q));
      RequeueOnTop(s, x, after);
    }
  }

  lemma TopKnown(s: Sched, x: Task)
    requires OnTop(s)
    ensures s.current in s.tcbs && (IsRunnable(s, x) ==> s.tcbs[x].priority <= s.tcbs[s.current].priority)
  {
  }

  lemma RequeueOnTop(s: Sched, x: Task, tcb: Tcb)
    requires s.Inv() && OnTop(s) && x in s.tcbs && tcb.priority < MAX_PRIORITIES && tcb.basePriority < MAX_PRIORITIES
    requires tcb.wake == s.tcbs[x].wake
    requires if x == s.current then tcb.priority >= s.tcbs[x].priority
             else IsRunnable(s, x) ==> tcb.priority <= s.tcbs[s.current].priority
    ensures OnTop(Requeue(s, x, tcb))
  {
    hide Roster.Consistent, Requeue, Sched.ReadyListsMatch, Sched.DelaysSorted, Sched.EventWaitersBlocked, Sched.Timely,
         Sched.Settled, OnlyMoves, OnTop, Requeued, StaysBelow;
    RequeueSafe(s, x, tcb);
    RequeuedBelow(s, Requeue(s, x, tcb), x, tcb);
    StaysOnTop(s, Requeue(s, x, tcb), x);
  }

  lemma InheritBelow(s: Sched, x: Task)
    requires Enabled(s, InheritTo(x)) && OnTop(s)
    ensures OnTop(Step(s, InheritTo(x)))
  {
    hide Roster.Consistent, Requeue, Sched.Core, Sched.Timely, Sched.Settled, OnTop;
    InvShape(s);
    var tcb, p := s.tcbs[x], s.tcbs[s.current].priority;
    if tcb.priority < p {
      RequeueOnTop(s, x, tcb.(priority := p, eventValue := EventValueFor(tcb, p)));
    }
  }

  lemma RequeuedOnTop(s: Sched, r: Sched, x: Task, tcb: Tcb)
    requires OnTop(s) && x in s.tcbs && x in s.state.place && Requeued(s, r, x, tcb)
    ensures OnTop(r) <==>
            if x == s.current then forall y :: y != x && IsRunnable(s, y) ==> s.tcbs[y].priority <= tcb.priority
            else IsRunnable(s, x) ==> tcb.priority <= s.tcbs[s.current].priority
  {
    assert forall y :: IsRunnable(r, y) <==> IsRunnable(s, y);
    assert forall y :: y != x && y in s.tcbs ==> r.tcbs[y] == s.tcbs[y];
    if x == s.current && OnTop(r) {
      forall y | y != x && IsRunnable(s, y) ensures s.tcbs[y].priority <= tcb.priority {
        assert IsRunnable(r, y);
      }
    }
    if x != s.current && OnTop(r) && IsRunnable(s, x) {
      assert IsRunnable(r, x);
    }
  }

  /** The exact condition for a timeout. */
  lemma TimeOutIsExact(s: Sched, x: Task, highest: nat)
    requires Enabled(s, TimeOutOn(x, highest)) && OnTop(s)
    ensures OnTop(Step(s, TimeOutOn(x, highest))) <==> !Unseats(s, TimeOutOn(x, highest))
  {
    hide Sched.Core, Sched.Shape, Sched.Timely, Sched.Settled, DisinheritAfterTimeout, UnseatedBy, OnTop;
    InvShape(s);
    s.ListsKnown();
    s.TaskKnown(x);
    TimeOutCases(s, x, highest, Step(s, TimeOutOn(x, highest)));
  }

  lemma TimeOutCases(s: Sched, x: Task, highest: nat, r: Sched)
    requires s.Inv() && s.Shape() && OnTop(s) && x in s.tcbs && x in s.state.place && highest < MAX_PRIORITIES
    requires s.tcbs[x].basePriority < MAX_PRIORITIES && s.current in s.tcbs
    requires r == DisinheritAfterTimeout(s, x, highest)
    ensures OnTop(r) <==> !UnseatedBy(s, x, Max(s.tcbs[x].basePriority, highest))
  {
    hide Sched.Inv, Sched.Shape, Requeue, Requeued;
    var p, tcb := Max(s.tcbs[x].basePriority, highest), s.tcbs[x];
    if tcb.mutexesHeld == 1 && p != tcb.priority {
      var after := tcb.(priority := p, eventValue := EventValueFor(tcb, p));
      RequeueSafe(s, x, after);
      RequeuedOnTop(s, r, x, after);
    }
  }

  /** The exact condition for the return of a mutex. */
  lemma DisinheritIsExact(s: Sched)
    requires Enabled(s, GiveMutex) && OnTop(s)
    ensures OnTop(Step(s, GiveMutex)) <==> !Unseats(s, GiveMutex)
  {
    hide Sched.Core, Sched.Shape, Sched.Timely, Sched.Settled, Disinherit, UnseatedBy, OnTop;
    InvShape(s);
    s.ListsKnown();
    s.TaskKnown(s.current);
    DisinheritCases(s);
  }

  lemma DisinheritCases(s: Sched)
    requires s.Inv() && s.Shape() && OnTop(s) && s.current in s.tcbs && s.current in s.state.place
    requires s.tcbs[s.current].mutexesHeld > 0 && s.state.place[s.current].Ready?
    requires s.tcbs[s.current].basePriority < MAX_PRIORITIES
    ensures OnTop(Disinherit(s)) <==> !UnseatedBy(s, s.current, s.tcbs[s.current].basePriority)
  {
    hide Sched.Inv, Sched.Shape, Disinherit, Requeued, OnlyMoves;
    DisinheritSafe(s);
    RequeuedOnTop(s, Disinherit(s), s.current, Disinherited(s.tcbs[s.current]));
  }

  lemma OwnBelow(s: Sched, a: Action)
    requires Enabled(s, a) && OnTop(s) && !Asks(s, a)
    requires a.HoldMutex? || a.ResetItem? || a.CheckTimeOut?
    ensures OnTop(Step(s, a))
  {
    hide Roster.Consistent, Sched.Core, Sched.Timely, Sched.Settled, MoveTask;
    InvShape(s);
    var r := Step(s, a);
    assert r.state == s.state && r.current == s.current && r.tcbs.Keys == s.tcbs.Keys;
    assert forall y :: y in s.tcbs ==> r.tcbs[y].priority == s.tcbs[y].priority;
  }

  // ----- birth, death and the scheduler itself -----

  lemma LifeBelow(s: Sched, a: Action)
    requires Enabled(s, a) && OnTop(s) && !Asks(s, a) && IsBirthOrDeath(a)
    ensures OnTop(Step(s, a))
  {
    hide Roster.Consistent, Sched.Core, Sched.Timely, Sched.Settled, OnlyMoves, OnTop, Roster.TakeIfPlaced, Roster.Take,
         Roster.PutEnd, MoveTask;
    InvShape(s);
    match a {
      case CreateTask(x, p) =>
        CreateSafe(s, x, p);
        StaysOnTop(s, Step(s, a), x);
      case DeleteTask(x) =>
        DeleteSafe(s, x);
        StaysOnTop(s, Step(s, a), x);
      case CleanUp =>
        CleanUpSafe(s);
        StaysOnTop(s, Step(s, a), s.state.lists[WaitingTermination].items[0]);
    }
  }

  lemma BookkeepingBelow(s: Sched, a: Action)
    requires Enabled(s, a) && OnTop(s) && !Asks(s, a) && IsBookkeeping(a)
    ensures OnTop(Step(s, a))
  {
    hide Roster.Consistent, Sched.Timely, Sched.Settled, Sched.ReadyListsMatch, Sched.DelaysSorted,
         Sched.EventWaitersBlocked, SwitchContext, OnTop;
    if a == Switch {
      SwitchOnTop(s);
    } else {
      NobodyMoved(s, Step(s, a));
    }
  }

  /** A context switch puts a task of the highest priority on top. */
  lemma SwitchOnTop(s: Sched)
    requires s.Inv() && s.suspended == 0
    ensures OnTop(SwitchContext(s))
  {
    hide Roster.Consistent, Sched.Timely, Sched.Settled, Sched.ReadyListsMatch, Sched.DelaysSorted,
         Sched.EventWaitersBlocked, SwitchContext;
    SwitchPicksHighest(s);
    SwitchFrame(s);
  }

  // ----- ticks -----

  lemma DueIsBelow(s: Sched, r: Sched)
    requires OnTop(s) && AfterTicks(s, 1, r) && r.current == s.current && forall x :: !Preempting(s, x)
    ensures OnTop(r)
  {
    forall x | IsRunnable(r, x) ensures r.tcbs[x].priority <= r.tcbs[s.current].priority {
      assert !Preempting(s, x);
    }
  }

  lemma TickBelow(s: Sched)
    requires s.Core() && s.Timely() && OnTop(s) && s.suspended == 0 && !TickStep(s).switchRequired
    ensures OnTop(TickStep(s).s) && !s.yieldPending && !TickStep(s).s.yieldPending
  {
    hide Roster.Consistent, Sched.Timely, Sched.Settled, Sched.ReadyListsMatch, Sched.DelaysSorted,
         Sched.EventWaitersBlocked, TickStep, AfterTicks, Preempting, OnTop;
    TickEffect(s);
    TickRequestsSwitch(s);
    DueIsBelow(s, TickStep(s).s);
  }

  // ----- resuming the scheduler -----

  lemma DrainStepBelow(s: Sched)
    requires s.Core() && OnTop(s) && s.event.lists[PendingReady].items != [] && !DrainStep(s).yieldPending
    ensures OnTop(DrainStep(s)) && !s.yieldPending
  {
    hide Roster.Consistent, Sched.Unblock, Sched.ReadyListsMatch, Sched.DelaysSorted, Sched.EventWaitersBlocked;
    DrainStepShrinks(s);
  }

  lemma {:induction false} YieldStaysDrained(s: Sched)
    requires s.Shape() && s.yieldPending
    ensures DrainPending(s).yieldPending
    decreases |s.event.lists[PendingReady].items|
  {
    hide Roster.Consistent, Sched.Unblock;
    if s.event.lists[PendingReady].items != [] {
      DrainStepShrinks(s);
      YieldStaysDrained(DrainStep(s));
    }
  }

  lemma {:induction false} DrainBelow(s: Sched)
    requires s.Core() && OnTop(s) && !DrainPending(s).yieldPending
    ensures OnTop(DrainPending(s)) && !s.yieldPending
    decreases |s.event.lists[PendingReady].items|
  {
    hide Roster.Consistent, DrainStep, OnTop, Sched.ReadyListsMatch, Sched.DelaysSorted, Sched.EventWaitersBlocked;
    if s.event.lists[PendingReady].items != [] {
      DrainStepShrinks(s);
      DrainStepKeepsCore(s);
      if DrainStep(s).yieldPending {
        YieldStaysDrained(DrainStep(s));
      }
      DrainStepBelow(s);
      DrainBelow(DrainStep(s));
    } else if s.yieldPending {
      YieldStaysDrained(s);
    }
  }

  lemma {:induction false} YieldStaysUnwound(s: Sched, n: nat)
    requires s.Core() && s.Timely() && s.suspended == 0 && s.yieldPending
    ensures UnwindTicks(s, n).yieldPending
    decreases n
  {
    hide TickStep, AfterTicks, Sched.ReadyListsMatch, Sched.DelaysSorted, Sched.EventWaitersBlocked, Roster.Consistent,
         Sched.Timely;
    if n > 0 {
      TickEffect(s);
      var t := TickStep(s);
      var u := if t.switchRequired then t.s.(yieldPending := true) else t.s;
      Relabel(t.s, u);
      YieldStaysUnwound(u, n - 1);
    }
  }

  lemma {:induction false} UnwindBelow(s: Sched, n: nat)
    requires s.Core() && s.Timely() && s.suspended == 0 && OnTop(s) && !UnwindTicks(s, n).yieldPending
    ensures OnTop(UnwindTicks(s, n)) && !s.yieldPending
    decreases n
  {
    hide TickStep, AfterTicks, Sched.ReadyListsMatch, Sched.DelaysSorted, Sched.EventWaitersBlocked, Roster.Consistent,
         Sched.Timely, OnTop;
    if s.yieldPending {
      YieldStaysUnwound(s, n);
    }
    if n > 0 {
      TickEffect(s);
      var t := TickStep(s);
      var u := if t.switchRequired then t.s.(yieldPending := true) else t.s;
      Relabel(t.s, u);
      if t.switchRequired {
        YieldStaysUnwound(u, n - 1);
      }
      TickBelow(s);
      UnwindBelow(u, n - 1);
    }
  }

  lemma ResumeBelow(s: Sched)
    requires s.Inv() && s.suspended == 1 && OnTop(s) && !ResumeAll(s).yieldPending
    ensures OnTop(ResumeAll(s))
  {
    hide Roster.Consistent, Sched.ReadyListsMatch, Sched.DelaysSorted, Sched.EventWaitersBlocked, Sched.Timely,
         UnwindTicks, DrainPending, OnTop, Sched.ResetUnblockTime;
    var t := s.(suspended := 0);
    Relabel(s, t);
    NobodyMoved(s, t);
    DeliverEffect(t);
    var d := DeliverPending(t);
    UnwindEffect(d, s.pended);
    if d.yieldPending {
      YieldStaysUnwound(d, s.pended);
    }
    DeliverBelow(t);
    UnwindBelow(d, s.pended);
    NobodyMoved(UnwindTicks(d, s.pended), ResumeAll(s));
  }

  lemma DeliverBelow(s: Sched)
    requires s.Core() && OnTop(s) && !DeliverPending(s).yieldPending
    ensures OnTop(DeliverPending(s))
  {
    hide Roster.Consistent, Sched.ReadyListsMatch, Sched.DelaysSorted, Sched.EventWaitersBlocked, DrainPending, OnTop;
    DrainBelow(s);
    NobodyMoved(DrainPending(s), DeliverPending(s));
  }

  // ----- runs -----

  lemma TimeBelow(s: Sched, a: Action)
    requires Enabled(s, a) && OnTop(s) && !Asks(s, a) && (a.Tick? || a.ResumeScheduler?)
    ensures OnTop(Step(s, a))
  {
    hide Roster.Consistent, Sched.Timely, Sched.Settled, Sched.ReadyListsMatch, Sched.DelaysSorted,
         Sched.EventWaitersBlocked, OnTop, UnwindTicks, DeliverPending;
    if a.Tick? {
      if s.suspended == 0 {
        hide TickStep;
        TickBelow(s);
      } else {
        NobodyMoved(s, TickStep(s).s);
      }
    } else if s.suspended == 1 {
      hide ResumeAll;
      ResumeBelow(s);
    } else {
      NobodyMoved(s, ResumeAll(s));
    }
  }

  /** If the running task is on top and the step asks for nothing, it stays on top, unless the step is one of
      the two above under their exact condition. */
  lemma StepStaysOnTop(s: Sched, a: Action)
    requires Enabled(s, a) && OnTop(s) && !Asks(s, a)
    ensures OnTop(Step(s, a)) <==> !Unseats(s, a)
  {
    hide Sched.Inv, OnTop, Step, Asks, Unseats, Legal;
    if a.TimeOutOn? {
      TimeOutIsExact(s, a.x, a.highestWaiting);
    } else if a.GiveMutex? {
      DisinheritIsExact(s);
    } else {
      OtherwiseSeated(s, a);
      OthersStayOnTop(s, a);
    }
  }

  lemma OtherwiseSeated(s: Sched, a: Action)
    requires Enabled(s, a) && !a.TimeOutOn? && !a.GiveMutex?
    ensures !Unseats(s, a)
  {
    hide Sched.Inv, Legal;
  }

  lemma OthersStayOnTop(s: Sched, a: Action)
    requires Enabled(s, a) && OnTop(s) && !Asks(s, a) && !a.TimeOutOn? && !a.GiveMutex?
    ensures OnTop(Step(s, a))
  {
    hide Sched.Inv, OnTop, Step, Asks, Legal;
    if a.Tick? || a.ResumeScheduler? {
      TimeBelow(s, a);
    } else if IsBookkeeping(a) {
      BookkeepingBelow(s, a);
    } else if IsBirthOrDeath(a) {
      LifeBelow(s, a);
    } else if a.Remove? {
      RemoveBelow(s, a.e);
    } else if a.RemoveUnordered? {
      RemoveUnorderedBelow(s, a.x, a.value);
    } else if IsWaking(a) {
      WakingBelow(s, a);
    } else if a.SetPriority? {
      SetPriorityBelow(s, a.x, a.priority);
    } else if a.InheritTo? {
      InheritBelow(s, a.x);
    } else if IsRanking(a) {
      OwnBelow(s, a);
    } else {
      BlockingAsks(s, a);
    }
  }

  lemma BlockingAsks(s: Sched, a: Action)
    requires Enabled(s, a) && IsBlocking(a)
    ensures Asks(s, a)
  {
    hide Sched.Core, Sched.Timely, Sched.Settled;
  }

  lemma SwitchIsStep(s: Sched)
    requires s.Inv()
    ensures Enabled(s, Switch) && Step(s, Switch) == SwitchContext(s)
  {
    hide Sched.Core, SwitchContext;
  }
}
