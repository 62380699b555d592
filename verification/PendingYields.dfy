/** xYieldPending over runs: a context switch that is asked for while it cannot be made is remembered until one is
    made, and resuming the scheduler or the next tick asks for it again.  Also the note that a delay was aborted,
    and the time of the next unblocking after the scheduler is resumed. */
module PendingYields {
  import opened Ticks
  import opened Rosters
  import opened Scheduler
  import opened SchedulerTime
  import opened SchedulerSuspension
  import opened SchedulerTasks
  import opened SchedulerSafety
  import opened SchedulerRuns

  // ----- what asks for a switch -----

  ghost predicate Outranks(s: Sched, x: Task) {
    x in s.tcbs && s.current in s.tcbs && s.tcbs[x].priority > s.tcbs[s.current].priority
  }

  /** A task whose wakeup was held back is at least of the running task's priority. */
  ghost predicate HeldBackAbove(s: Sched) {
    exists x :: x in s.tcbs && Pending(s, x) && s.current in s.tcbs && s.tcbs[x].priority >= s.tcbs[s.current].priority
  }

  /** Resuming the scheduler finds a reason to switch: a wakeup held back, or one of the ticks held back. */
  ghost predicate ReasonFound(s: Sched)
    requires s.Shape() && s.suspended > 0
  {
    && s.suspended == 1 && s.numberOfTasks > 0
    && (HeldBackAbove(s) || AnySwitch(DeliverPending(SuspendedOff(s)), s.pended))
  }

  function SuspendedOff(s: Sched): (r: Sched)
    requires s.Shape()
    ensures r.Shape()
  {
    s.(suspended := 0)
  }

  /** The step finds that a context switch is due but may not make it. */
  ghost predicate Notes(s: Sched, a: Action)
    requires Enabled(s, a)
  {
    hide Roster.Consistent, Sched.Core, Sched.Timely, Sched.Settled;
    InvShape(s);
    match a
    case Remove(e) => Outranks(s, s.event.lists[e].items[0])
    case RemoveUnordered(x, _) => Outranks(s, x)
    case Abort(x) => IsWaiting(s, x) && Outranks(s, x)
    case Switch => s.suspended > 0
    case MissedYield => true
    case ResumeScheduler => ReasonFound(s)
    case _ => false
  }

  /** A context switch is made. */
  predicate Switches(s: Sched, a: Action) { a.Switch? && s.suspended == 0 }

  lemma {:induction false} DrainNotes(s: Sched)
    requires s.Core()
    ensures DrainPending(s).yieldPending <==> s.yieldPending || HeldBackAbove(s)
    decreases |s.event.lists[PendingReady].items|
  {
    hide Roster.Consistent, DrainStep, Sched.ReadyListsMatch, Sched.DelaysSorted, Sched.EventWaitersBlocked,
         HeldBackAbove;
    if s.event.lists[PendingReady].items != [] {
      DrainStepShrinks(s);
      DrainStepKeepsCore(s);
      DrainNotes(DrainStep(s));
      DrainStepNotes(s);
    } else {
      NobodyHeldBack(s);
    }
  }

  lemma DrainStepNotes(s: Sched)
    requires s.Core() && s.event.lists[PendingReady].items != []
    ensures DrainStep(s).yieldPending || HeldBackAbove(DrainStep(s)) <==> s.yieldPending || HeldBackAbove(s)
  {
    hide Roster.Consistent, Sched.ReadyListsMatch, Sched.DelaysSorted, Sched.EventWaitersBlocked, Sched.Unblock;
    DrainStepShrinks(s);
    var x, r := s.event.lists[PendingReady].items[0], DrainStep(s);
    assert r.tcbs == s.tcbs && r.current == s.current;
    forall y | y in s.tcbs && y != x ensures Pending(r, y) <==> Pending(s, y) {
    }
    assert !Pending(r, x);
    assert r.yieldPending == (s.yieldPending || s.tcbs[x].priority >= s.tcbs[s.current].priority);
  }

  lemma NobodyHeldBack(s: Sched)
    requires s.Shape() && s.event.lists[PendingReady].items == []
    ensures !HeldBackAbove(s)
  {
  }

  lemma DeliverNotes(s: Sched)
    requires s.Core()
    ensures DeliverPending(s).yieldPending <==> s.yieldPending || HeldBackAbove(s)
  {
    hide Roster.Consistent, DrainPending, Sched.ReadyListsMatch, Sched.DelaysSorted, Sched.EventWaitersBlocked,
         HeldBackAbove;
    DrainNotes(s);
  }

  lemma UnwindNotes(s: Sched, n: nat)
    requires s.Shape() && s.suspended == 0
    ensures UnwindTicks(s, n).yieldPending <==> s.yieldPending || AnySwitch(s, n)
  {
    hide UnwindTicks, AnySwitch, RunTicks, Sched.Shape;
    UnwindIsTicks(s, s, n);
  }

  lemma ResumeNotes(s: Sched)
    requires s.Inv() && s.suspended > 0
    ensures ResumeAll(s).yieldPending <==> s.yieldPending || ReasonFound(s)
  {
    hide Roster.Consistent, Sched.ReadyListsMatch, Sched.DelaysSorted, Sched.EventWaitersBlocked, Sched.Timely,
         Sched.Settled, HeldBackAbove, AnySwitch, UnwindTicks, DeliverPending;
    var s1 := s.(suspended := s.suspended - 1);
    if s.suspended == 1 {
      Relabel(s, s1);
      DeliverEffect(s1);
      DeliverNotes(s1);
      SameHeldBack(s, s1);
      UnwindNotes(DeliverPending(s1), s.pended);
    }
  }

  lemma SameHeldBack(s: Sched, t: Sched)
    requires t.event == s.event && t.tcbs == s.tcbs && t.current == s.current
    ensures HeldBackAbove(t) <==> HeldBackAbove(s)
  {
  }

  // ----- every step -----

  /** What a step does to the request that is waiting. */
  ghost predicate KeepsRequests(s: Sched, a: Action)
    requires Enabled(s, a)
  {
    Step(s, a).yieldPending <==> Notes(s, a) || (s.yieldPending && !Switches(s, a))
  }

  lemma BookkeepingNotes(s: Sched, a: Action)
    requires Enabled(s, a) && IsBookkeeping(a)
    ensures KeepsRequests(s, a)
  {
    hide Roster.Consistent, Sched.ReadyListsMatch, Sched.DelaysSorted, Sched.EventWaitersBlocked, Sched.Timely,
         Sched.Settled;
    if a.Switch? && s.suspended == 0 {
      SwitchPicksHighest(s);
    }
    hide FindTop;
  }

  lemma BlockingNotes(s: Sched, a: Action)
    requires Enabled(s, a) && IsBlocking(a)
    ensures KeepsRequests(s, a)
  {
    hide Roster.Consistent, Sched.ReadyListsMatch, Sched.DelaysSorted, Sched.EventWaitersBlocked, Sched.Timely,
         Sched.Settled, Roster.Move, Roster.PutEnd;
    CurrentUnplaced(s);
  }

  lemma WakingNotes(s: Sched, a: Action)
    requires Enabled(s, a) && IsWaking(a)
    ensures KeepsRequests(s, a)
  {
    hide Roster.Consistent, Sched.ReadyListsMatch, Sched.DelaysSorted, Sched.EventWaitersBlocked, Sched.Timely,
         Sched.Settled, Roster.Move, Roster.PutEnd, Roster.TakeIfPlaced;
    if a.Remove? {
      EventHead(s, a.e);
    }
  }

  lemma LendingNotes(s: Sched, a: Action)
    requires Enabled(s, a) && (a.SetPriority? || a.InheritTo? || a.TimeOutOn?)
    ensures KeepsRequests(s, a)
  {
    hide Sched.Core, Sched.Timely, Sched.Settled, Roster.Consistent, Requeue;
    InvShape(s);
    forall x, tcb: Tcb | x in s.tcbs && tcb.priority < MAX_PRIORITIES && tcb.basePriority < MAX_PRIORITIES
      ensures Requeue(s, x, tcb).yieldPending == s.yieldPending
    {
      RequeueNotes(s, x, tcb);
    }
  }

  lemma RequeueNotes(s: Sched, x: Task, tcb: Tcb)
    requires s.Shape() && x in s.tcbs && tcb.priority < MAX_PRIORITIES && tcb.basePriority < MAX_PRIORITIES
    ensures Requeue(s, x, tcb).yieldPending == s.yieldPending
  {
    hide Roster.Consistent, Roster.Move;
  }

  lemma OwnNotes(s: Sched, a: Action)
    requires Enabled(s, a) && IsRanking(a) && !(a.SetPriority? || a.InheritTo? || a.TimeOutOn?)
    ensures KeepsRequests(s, a)
  {
    hide Sched.Core, Sched.Timely, Sched.Settled, Roster.Consistent, Roster.Move;
    InvShape(s);
  }

  lemma BirthNotes(s: Sched, a: Action)
    requires Enabled(s, a) && IsBirthOrDeath(a)
    ensures KeepsRequests(s, a)
  {
    hide Roster.Consistent, Sched.ReadyListsMatch, Sched.DelaysSorted, Sched.EventWaitersBlocked, Sched.Timely,
         Sched.Settled, Roster.Move, Roster.PutEnd, Roster.TakeIfPlaced;
  }

  /** A tick looks at the request but leaves it. */
  lemma TickNotes(s: Sched)
    requires s.Inv()
    ensures TickStep(s).s.yieldPending == s.yieldPending
    ensures s.suspended == 0 && s.yieldPending ==> TickStep(s).switchRequired
  {
    hide Roster.Consistent, Sched.ReadyListsMatch, Sched.DelaysSorted, Sched.EventWaitersBlocked, Sched.Timely,
         Sched.Settled;
    if s.suspended == 0 {
      TickIgnores(s, s);
    }
    hide TickStep;
  }

  /** A request is made by exactly the steps that find a switch due, and dropped by a switch only. */
  lemma StepKeepsRequests(s: Sched, a: Action)
    requires Enabled(s, a)
    ensures KeepsRequests(s, a)
  {
    if IsBookkeeping(a) {
      BookkeepingNotes(s, a);
    } else if IsBlocking(a) {
      BlockingNotes(s, a);
    } else if IsWaking(a) {
      WakingNotes(s, a);
    } else if a.SetPriority? || a.InheritTo? || a.TimeOutOn? {
      LendingNotes(s, a);
    } else if IsRanking(a) {
      OwnNotes(s, a);
    } else if IsBirthOrDeath(a) {
      BirthNotes(s, a);
    } else if a.Tick? {
      hide Sched.Core, Sched.Timely, Sched.Settled, TickStep;
      TickNotes(s);
    } else {
      hide Sched.Core, Sched.Timely, Sched.Settled, ResumeAll, ReasonFound;
      ResumeNotes(s);
    }
  }

  /** No request is lost: once a step has found a switch due, it stays asked for until one is made, the next tick
      and the resumption of the scheduler say so. */
  lemma {:induction false} RequestIsKept(states: seq<Sched>, actions: seq<Action>, i: nat, k: nat)
    requires IsRun(states, actions) && states[0].Inv() && i < k <= |actions|
    requires Enabled(states[i], actions[i]) && Notes(states[i], actions[i])
    requires forall j :: i < j < k ==> !Switches(states[j], actions[j])
    ensures states[k].yieldPending
    ensures states[k].Inv()
    ensures states[k].suspended == 0 ==> TickStep(states[k]).switchRequired
    ensures states[k].suspended > 0 ==> ResumeAll(states[k]).yieldPending
    decreases k
  {
    hide Sched.Inv, Step, Notes, Legal, TickStep, ResumeAll;
    RunStep(states, actions, k - 1);
    if k > i + 1 {
      RequestIsKept(states, actions, i, k - 1);
    }
    StepKeepsRequests(states[k - 1], actions[k - 1]);
    InvariantHolds(states, actions, k);
    Asked(states[k]);
  }

  lemma Asked(s: Sched)
    requires s.Inv() && s.yieldPending
    ensures s.suspended == 0 ==> TickStep(s).switchRequired
    ensures s.suspended > 0 ==> ResumeAll(s).yieldPending
  {
    hide Sched.Core, Sched.Timely, Sched.Settled, TickStep, ResumeAll, ReasonFound;
    TickNotes(s);
    if s.suspended > 0 {
      ResumeNotes(s);
    }
  }

  /** And none is made up: without a step that finds a switch due there is no request. */
  lemma {:induction false} NoRequestUnasked(states: seq<Sched>, actions: seq<Action>, i: nat, k: nat)
    requires IsRun(states, actions) && states[0].Inv() && i <= k <= |actions| && !states[i].yieldPending
    requires forall j :: i <= j < k && Enabled(states[j], actions[j]) ==> !Notes(states[j], actions[j])
    ensures !states[k].yieldPending
    decreases k
  {
    hide Sched.Inv, Step, Notes, Legal;
    if k > i {
      RunStep(states, actions, k - 1);
      NoRequestUnasked(states, actions, i, k - 1);
      StepKeepsRequests(states[k - 1], actions[k - 1]);
    }
  }

  // ----- xNextTaskUnblockTime -----

  /** xNextTaskUnblockTime is the wake time of the first delayed task, or the greatest tick if there is none. */
  ghost predicate UnblockTimeExact(s: Sched)
    requires s.Shape()
  {
    s.nextUnblock == s.ResetUnblockTime().nextUnblock
  }

  lemma {:induction false} ExpireExact(s: Sched, switch: bool)
    requires s.Shape()
    ensures UnblockTimeExact(s.Expire(switch).s)
    decreases |s.state.lists[s.Cur()].items|
  {
    hide Sched.Shape, Roster.Consistent, Sched.Unblock, Sched.Expire;
    s.ListsKnown();
    s.ExpireRound(switch);
    var waiting := s.state.lists[s.Cur()].items;
    if waiting != [] && !(s.tick < s.tcbs[waiting[0]].wake) {
      var x := waiting[0];
      ExpireExact(s.Unblock(x), switch || s.tcbs[x].priority >= s.tcbs[s.current].priority);
    }
  }

  lemma TickExact(s: Sched)
    requires s.Shape() && UnblockTimeExact(s)
    ensures UnblockTimeExact(TickStep(s).s)
  {
    hide Roster.Consistent, Sched.Expire;
    if s.suspended == 0 {
      ExpireExact(AdvanceCount(s), false);
    }
  }

  lemma {:induction false} UnwindExact(s: Sched, n: nat)
    requires s.Shape() && UnblockTimeExact(s)
    ensures UnblockTimeExact(UnwindTicks(s, n))
    decreases n
  {
    hide Roster.Consistent, TickStep;
    if n > 0 {
      TickExact(s);
      var t := TickStep(s);
      UnwindExact(if t.switchRequired then t.s.(yieldPending := true) else t.s, n - 1);
    }
  }

  /** v is the least wake time on the current delayed list. */
  ghost predicate Least(s: Sched, v: Tick) {
    && (forall x :: Delayed(s, x) ==> v <= s.tcbs[x].wake)
    && ((exists x :: Delayed(s, x) && s.tcbs[x].wake == v) || (v == MAX_DELAY && forall x :: !Delayed(s, x)))
  }

  predicate Delayed(s: Sched, x: Task) { x in s.tcbs && x in s.state.place && s.state.place[x] == s.Cur() }

  lemma ExactIsLeast(s: Sched)
    requires s.Core()
    ensures UnblockTimeExact(s) <==> Least(s, s.nextUnblock)
  {
    hide InWakeOrder;
    s.NoEarlierThanHead();
    var waiting := s.state.lists[s.Cur()].items;
    if waiting != [] {
      assert waiting[0] in waiting && Delayed(s, waiting[0]);
    } else {
      assert forall x :: !Delayed(s, x);
    }
  }

  lemma BlockedIsLeast(s: Sched, r: Sched, wake: Tick)
    requires s.current in s.tcbs && s.current in s.state.place && s.state.place[s.current].Ready?
    requires Least(s, s.nextUnblock)
    requires r.state.place == s.state.place[s.current := if wake < s.tick then s.Ovf() else s.Cur()]
    requires r.tcbs == s.tcbs[s.current := s.tcbs[s.current].(delayAborted := false, wake := wake)]
    requires r == s.(state := r.state, tcbs := r.tcbs,
                     nextUnblock := if s.tick <= wake < s.nextUnblock then wake else s.nextUnblock)
    ensures Least(r, r.nextUnblock)
  {
    assert forall x :: x != s.current ==> (Delayed(r, x) <==> Delayed(s, x));
    assert Delayed(r, s.current) <==> s.tick <= wake;
    if x :| Delayed(s, x) && s.tcbs[x].wake == s.nextUnblock {
      assert Delayed(r, x) && r.tcbs[x].wake == s.nextUnblock;
    }
  }

  /** Blocking with a timeout keeps it exact. */
  lemma BlockExact(s: Sched, wake: Tick)
    requires s.Core() && s.state.place[s.current].Ready? && s.current != IDLE && UnblockTimeExact(s)
    ensures UnblockTimeExact(BlockUntil(s, wake))
  {
    hide Sched.Core, Sched.Shape, BlockUntil, UnblockTimeExact, Least;
    s.CoreShape();
    s.ListsKnown();
    BlockUntilFrame(s, wake);
    BlockUntilCore(s, wake);
    ExactIsLeast(s);
    BlockedIsLeast(s, BlockUntil(s, wake), wake);
    ExactIsLeast(BlockUntil(s, wake));
  }

  /** Deleting another task leaves it exact, whether that was delayed or not. */
  lemma DeleteExact(s: Sched, x: Task)
    requires s.Shape() && x in s.tcbs && x != s.current && s.numberOfTasks > 0
    ensures UnblockTimeExact(Delete(s, x))
  {
    hide Roster.Consistent, Forget;
  }

  lemma DeliverExact(s: Sched)
    requires s.Shape() && (s.event.lists[PendingReady].items != [] || UnblockTimeExact(s))
    ensures UnblockTimeExact(DeliverPending(s))
  {
    hide Roster.Consistent, DrainStep;
  }

  /** Resuming the scheduler computes it afresh if a wakeup was held back, so that the wakeup leaves no early
      deadline behind; otherwise it stays exact if it was. */
  lemma ResumeExact(s: Sched)
    requires s.Inv() && s.suspended == 1
    requires s.event.lists[PendingReady].items != [] || UnblockTimeExact(s)
    ensures UnblockTimeExact(ResumeAll(s))
  {
    hide Roster.Consistent, DeliverPending, UnwindTicks, Sched.ReadyListsMatch, Sched.DelaysSorted,
         Sched.EventWaitersBlocked, Sched.Timely, Sched.Settled;
    Live(s);
    DeliverExact(s.(suspended := 0));
    UnwindExact(DeliverPending(s.(suspended := 0)), s.pended);
  }
}
