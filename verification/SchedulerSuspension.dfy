/** vTaskSuspendAll and xTaskResumeAll: ticks and wakeups held back while the scheduler is suspended. */
module SchedulerSuspension {
  import opened Rosters
  import opened Scheduler
  import opened SchedulerTime

  /** vTaskSuspendAll */
  function SuspendAll(s: Sched): Sched {
    s.(suspended := s.suspended + 1)
  }

  /** One round of the loop of xTaskResumeAll over xPendingReadyList. */
  function DrainStep(s: Sched): (r: Sched)
    requires s.Shape() && s.event.lists[PendingReady].items != []
    ensures r.Shape()
    ensures r == s.(state := r.state, event := r.event, topReady := r.topReady, yieldPending := r.yieldPending)
  {
    hide Sched.Shape, Sched.Unblock;
    s.ListsKnown();
    PendingShrinks(s);
    var x := s.event.lists[PendingReady].items[0];
    var u := s.Unblock(x);
    u.ListsKnown();
    var r := u.(yieldPending := s.yieldPending || s.tcbs[x].priority >= s.tcbs[s.current].priority);
    u.NewListsShape(r);
    r
  }

  /** The whole loop. */
  function DrainPending(s: Sched): (r: Sched)
    requires s.Shape()
    ensures r.Shape()
    ensures r == s.(state := r.state, event := r.event, topReady := r.topReady, yieldPending := r.yieldPending)
    decreases |s.event.lists[PendingReady].items|
  {
    if s.event.lists[PendingReady].items == [] then s
    else
      DrainStepShrinks(s);
      DrainPending(DrainStep(s))
  }

  lemma DrainStepShrinks(s: Sched)
    requires s.Shape() && s.event.lists[PendingReady].items != []
    ensures |DrainStep(s).event.lists[PendingReady].items| < |s.event.lists[PendingReady].items|
    ensures var x, r := s.event.lists[PendingReady].items[0], DrainStep(s);
      && x in s.tcbs && Pending(s, x)
      && r.state.place == s.state.place[x := Ready(s.tcbs[x].priority)] && r.event.place == s.event.place - {x}
  {
    hide Roster.Consistent, Roster.Move, Roster.TakeIfPlaced;
    PendingShrinks(s);
  }

  lemma PendingShrinks(s: Sched)
    requires s.Shape() && s.event.lists[PendingReady].items != []
    ensures var x := s.event.lists[PendingReady].items[0];
      && x in s.tcbs && x in s.event.place && s.event.place[x] == PendingReady
      && |s.Unblock(x).event.lists[PendingReady].items| < |s.event.lists[PendingReady].items|
  {
    var x := s.event.lists[PendingReady].items[0];
    assert x in s.event.lists[PendingReady].items;
    hide Roster.Move;
  }

  /** xPendingReadyList drained, and xNextTaskUnblockTime recomputed if anything was in it. */
  function DeliverPending(s: Sched): (r: Sched)
    requires s.Shape()
    ensures r.Shape()
  {
    var d := DrainPending(s);
    if s.event.lists[PendingReady].items != [] then d.ResetUnblockTime() else d
  }

  /** The loop of xTaskResumeAll over xPendedTicks. */
  function UnwindTicks(s: Sched, n: nat): (r: Sched)
    requires s.Shape()
    ensures r.Shape()
    decreases n
  {
    if n == 0 then s
    else
      var t := TickStep(s);
      UnwindTicks(if t.switchRequired then t.s.(yieldPending := true) else t.s, n - 1)
  }

  /** xTaskResumeAll */
  function ResumeAll(s: Sched): (r: Sched)
    requires s.Shape() && s.suspended > 0
    ensures r.Shape()
  {
    hide Sched.Shape, UnwindTicks, DeliverPending;
    s.ListsKnown();
    var s1 := s.(suspended := s.suspended - 1);
    s.NewListsShape(s1);
    if s1.suspended == 0 && s1.numberOfTasks > 0 then
      var u := UnwindTicks(DeliverPending(s1), s.pended);
      u.ListsKnown();
      u.NewListsShape(u.(pended := 0));
      u.(pended := 0)
    else s1
  }

  // ----- what they do -----

  predicate Pending(s: Sched, x: Task) {
    x in s.event.place && s.event.place[x] == PendingReady
  }

  /** Every task held in the pending ready list becomes ready; nobody else moves. */
  ghost predicate DrainedTo(s: Sched, r: Sched)
  {
    && r.state.place.Keys == s.state.place.Keys == s.tcbs.Keys
    && (forall x :: x in s.tcbs ==>
          r.state.place[x] == if Pending(s, x) then Ready(s.tcbs[x].priority) else s.state.place[x])
    && (forall x :: x in r.event.place <==> x in s.event.place && !Pending(s, x))
    && (forall x :: x in r.event.place ==> r.event.place[x] == s.event.place[x])
  }

  lemma PendingIsBlocked(s: Sched)
    requires s.Core() && s.event.lists[PendingReady].items != []
    ensures var x := s.event.lists[PendingReady].items[0];
      x in s.tcbs && x in s.state.place && s.IsBlocked(x)
  {
    PendingShrinks(s);
  }

  lemma DrainStepKeepsCore(s: Sched)
    requires s.Core() && s.event.lists[PendingReady].items != []
    ensures DrainStep(s).Core()
  {
    hide Roster.Move, Roster.Consistent, Roster.TakeIfPlaced, Sched.ReadyListsMatch, Sched.DelaysSorted,
         Sched.EventWaitersBlocked;
    PendingIsBlocked(s);
    var x := s.event.lists[PendingReady].items[0];
    s.UnblockKeepsCore(x);
    s.Unblock(x).CoreOfSameLists(DrainStep(s));
  }

  lemma DrainStepThen(s: Sched, r: Sched)
    requires s.Shape() && s.event.lists[PendingReady].items != [] && DrainedTo(DrainStep(s), r)
    ensures DrainedTo(s, r)
  {
    hide Roster.Consistent, DrainStep;
    DrainStepShrinks(s);
    var x, u := s.event.lists[PendingReady].items[0], DrainStep(s);
    assert forall y :: Pending(s, y) <==> y == x || Pending(u, y);
  }

  lemma NonePending(s: Sched)
    requires s.Shape() && s.event.lists[PendingReady].items == []
    ensures DrainedTo(s, s)
  {
    assert forall x :: !Pending(s, x);
  }

  lemma {:induction false} DrainEffect(s: Sched)
    requires s.Core()
    ensures DrainPending(s).Core() && DrainedTo(s, DrainPending(s))
    decreases |s.event.lists[PendingReady].items|
  {
    hide Sched.ReadyListsMatch, Sched.DelaysSorted, Sched.EventWaitersBlocked, Roster.Consistent, DrainedTo, DrainStep;
    if s.event.lists[PendingReady].items == [] {
      NonePending(s);
    } else {
      DrainStepKeepsCore(s);
      DrainStepShrinks(s);
      DrainEffect(DrainStep(s));
      DrainStepThen(s, DrainPending(s));
    }
  }

  /** The loop over the pended ticks, one tick at a time. */
  lemma {:induction false} UnwindEffect(s: Sched, n: nat)
    requires s.Core() && s.Timely() && s.suspended == 0
    ensures var r := UnwindTicks(s, n);
      && r.Core() && r.Timely()
      && r == s.(state := r.state, event := r.event, topReady := r.topReady, tick := r.tick, overflows := r.overflows,
                 firstIsCurrent := r.firstIsCurrent, nextUnblock := r.nextUnblock, yieldPending := r.yieldPending)
      && AfterTicks(s, n, r)
    decreases n
  {
    hide TickStep, AfterTicks, Sched.ReadyListsMatch, Sched.DelaysSorted, Sched.EventWaitersBlocked,
         Roster.Consistent, Sched.Timely;
    if n == 0 {
      ZeroTicks(s);
    } else {
      TickEffect(s);
      var t := TickStep(s);
      var u := if t.switchRequired then t.s.(yieldPending := true) else t.s;
      Relabel(t.s, u);
      Renamed(s, 1, t.s, u);
      UnwindEffect(u, n - 1);
      TicksThenTicks(s, 1, u, n - 1, UnwindTicks(u, n - 1));
    }
  }

  lemma ZeroTicks(s: Sched)
    requires s.state.place.Keys == s.tcbs.Keys && s.event.place.Keys <= s.tcbs.Keys && s.Timely()
    ensures AfterTicks(s, 0, s)
  {
    TimelyIsFuture(s);
    hide Where, Sched.Timely;
  }

  lemma Renamed(s: Sched, n: nat, t: Sched, u: Sched)
    requires AfterTicks(s, n, t) && u.event == t.event && u.state.place == t.state.place && u.tcbs == t.tcbs
    requires u.firstIsCurrent == t.firstIsCurrent && u.tick == t.tick && u.overflows == t.overflows
    ensures AfterTicks(s, n, u)
  {
    SamePlace(t, u);
    hide Where, Sched.Now;
  }

  /** Suspension depth and pended ticks are no part of Core and Timely. */
  lemma Relabel(s: Sched, t: Sched)
    requires s.Core() && s.Timely()
    requires t == s.(suspended := t.suspended, pended := t.pended, yieldPending := t.yieldPending)
    ensures t.Core() && t.Timely()
  {
    hide Roster.Consistent, Sched.ReadyListsMatch, Sched.DelaysSorted, Sched.EventWaitersBlocked;
    s.CoreOfSameLists(t);
  }

  /** r is s with the held-back wakeups delivered and n ticks processed. */
  ghost predicate ResumedTo(s: Sched, n: nat, r: Sched) {
    && r.Now() == s.Now() + n
    && r.tcbs == s.tcbs && r.state.place.Keys == s.state.place.Keys == s.tcbs.Keys
    && (forall x :: x in s.tcbs ==>
          Where(r, x) ==
            if Pending(s, x) || DueBy(s, x, s.Now() + n) then At(Ready(s.tcbs[x].priority)) else Where(s, x))
    && (forall x :: x in s.tcbs ==>
          (x in r.event.place <==> x in s.event.place && !Pending(s, x) && !DueBy(s, x, s.Now() + n)))
    && (forall x :: x in r.event.place ==> x in s.event.place && r.event.place[x] == s.event.place[x] != PendingReady)
  }

  lemma DrainedWhere(s: Sched, d: Sched)
    requires DrainedTo(s, d) && d.tcbs == s.tcbs
    requires d.firstIsCurrent == s.firstIsCurrent && d.overflows == s.overflows
    ensures forall x :: x in s.tcbs ==>
              Where(d, x) == if Pending(s, x) then At(Ready(s.tcbs[x].priority)) else Where(s, x)
  {
  }

  lemma DrainThenUnwind(s: Sched, d: Sched, n: nat, r: Sched)
    requires d.tcbs == s.tcbs && d.firstIsCurrent == s.firstIsCurrent && d.overflows == s.overflows && d.tick == s.tick
    requires s.event.place.Keys <= s.tcbs.Keys
    requires DrainedTo(s, d) && AfterTicks(d, n, r)
    ensures ResumedTo(s, n, r)
  {
    DrainedWhere(s, d);
    hide Where;
  }

  lemma DrainedIsTimely(s: Sched, d: Sched)
    requires s.Timely() && DrainedTo(s, d) && s.state.place.Keys == s.tcbs.Keys
    requires d.firstIsCurrent == s.firstIsCurrent && d.tick == s.tick && d.nextUnblock == s.nextUnblock
    requires d.tcbs == s.tcbs
    ensures d.Timely()
  {
  }

  /** The unblock time may be recomputed at any moment. */
  lemma ResetKeepsTimely(s: Sched)
    requires s.Core() && s.Timely()
    ensures s.ResetUnblockTime().Core() && s.ResetUnblockTime().Timely()
  {
    s.NoEarlierThanHead();
    hide Sched.Core, Sched.ResetUnblockTime;
  }

  lemma DeliverEffect(s: Sched)
    requires s.Core() && s.Timely()
    ensures var r := DeliverPending(s);
      && r.Core() && r.Timely() && DrainedTo(s, r)
      && r == s.(state := r.state, event := r.event, topReady := r.topReady, yieldPending := r.yieldPending,
                 nextUnblock := r.nextUnblock)
  {
    hide Roster.Consistent, Sched.ReadyListsMatch, Sched.DelaysSorted, Sched.EventWaitersBlocked, Sched.Timely,
         DrainedTo, DrainPending;
    DrainEffect(s);
    var d := DrainPending(s);
    DrainedIsTimely(s, d);
    ResetKeepsTimely(d);
    DrainedReset(s, d, DeliverPending(s));
  }

  /** Resuming the scheduler catches up with everything that happened meanwhile. */
  lemma ResumeEffect(s: Sched)
    requires s.Core() && s.Timely() && s.suspended == 1
    ensures var r := ResumeAll(s);
      && r.Inv() && r.suspended == 0 && r.pended == 0
      && r == s.(state := r.state, event := r.event, topReady := r.topReady, tick := r.tick, overflows := r.overflows,
                 firstIsCurrent := r.firstIsCurrent, nextUnblock := r.nextUnblock, yieldPending := r.yieldPending,
                 suspended := 0, pended := 0)
      && ResumedTo(s, s.pended, r)
  {
    hide Roster.Consistent, Sched.ReadyListsMatch, Sched.DelaysSorted, Sched.EventWaitersBlocked, Sched.Timely,
         AfterTicks, DrainedTo, ResumedTo, UnwindTicks, DeliverPending;
    var s1 := s.(suspended := 0);
    Relabel(s, s1);
    Live(s1);
    DeliverEffect(s1);
    var u := DeliverPending(s1);
    UnwindEffect(u, s.pended);
    var r := UnwindTicks(u, s.pended);
    DrainThenUnwind(s1, u, s.pended, r);
    Relabel(r, r.(pended := 0));
    ResumedRelabel(s, s1, s.pended, r, r.(pended := 0));
    NonePendingAfter(s, s.pended, r.(pended := 0));
  }

  lemma NonePendingAfter(s: Sched, n: nat, r: Sched)
    requires ResumedTo(s, n, r) && r.pended == 0
    ensures r.Settled()
  {
  }

  lemma Live(s: Sched)
    requires s.Core()
    ensures s.numberOfTasks > 0
  {
    assert IDLE in s.tcbs.Keys;
  }

  lemma DrainedReset(s: Sched, d: Sched, u: Sched)
    requires DrainedTo(s, d) && u.state == d.state && u.event == d.event
    ensures DrainedTo(s, u)
  {
  }

  lemma ResumedRelabel(s: Sched, s1: Sched, n: nat, r: Sched, q: Sched)
    requires s1 == s.(suspended := 0) && q == r.(pended := 0) && ResumedTo(s1, n, r)
    ensures ResumedTo(s, n, q)
  {
    SamePlace(r, q);
    SamePlace(s, s1);
    hide Where, Sched.Now;
    assert forall x :: Pending(s, x) == Pending(s1, x);
  }

  // ----- suspension is invisible in the end -----

  /** n ticks in a row. */
  function RunTicks(s: Sched, n: nat): (r: Sched)
    requires s.Shape()
    ensures r.Shape()
    decreases n
  {
    if n == 0 then s else RunTicks(TickStep(s).s, n - 1)
  }

  /** One of the n ticks asks for a context switch. */
  predicate AnySwitch(s: Sched, n: nat)
    requires s.Shape()
    decreases n
  {
    n > 0 && (TickStep(s).switchRequired || AnySwitch(TickStep(s).s, n - 1))
  }

  /** t is s up to the suspension bookkeeping. */
  predicate Like(s: Sched, t: Sched) {
    t == s.(suspended := t.suspended, pended := t.pended, yieldPending := t.yieldPending)
  }

  function As(s: Sched, t: Sched): Sched {
    s.(suspended := t.suspended, pended := t.pended, yieldPending := t.yieldPending)
  }

  lemma LikeShape(s: Sched, t: Sched)
    requires s.Shape() && Like(s, t)
    ensures t.Shape()
  {
    hide Roster.Consistent;
  }

  lemma UnblockIgnores(s: Sched, t: Sched, x: Task)
    requires s.Shape() && t.Shape() && Like(s, t) && x in s.tcbs
    ensures t.Unblock(x) == As(s.Unblock(x), t)
  {
    hide Roster.Consistent;
  }

  /** The loop that readies elapsed tasks does not look at the suspension bookkeeping. */
  lemma {:induction false} ExpireIgnores(s: Sched, t: Sched, switch: bool)
    requires s.Shape() && t.Shape() && Like(s, t)
    ensures t.Expire(switch).s == As(s.Expire(switch).s, t)
    ensures t.Expire(switch).switchRequired == s.Expire(switch).switchRequired
    decreases |s.state.lists[s.Cur()].items|
  {
    hide Sched.Shape, Sched.Unblock, Sched.Expire;
    s.ExpireRound(switch);
    t.ExpireRound(switch);
    var waiting := s.state.lists[s.Cur()].items;
    if waiting != [] {
      var x := waiting[0];
      if s.tick >= s.tcbs[x].wake {
        UnblockIgnores(s, t, x);
        ExpireIgnores(s.Unblock(x), t.Unblock(x), switch || s.tcbs[x].priority >= s.tcbs[s.current].priority);
      }
    }
  }

  lemma TickIgnores(s: Sched, t: Sched)
    requires s.Shape() && t.Shape() && Like(s, t) && s.suspended == t.suspended == 0
    requires s.yieldPending ==> t.yieldPending
    ensures TickStep(t).s == As(TickStep(s).s, t)
    ensures TickStep(t).switchRequired == (TickStep(s).switchRequired || t.yieldPending)
    ensures TickStep(s).s.suspended == 0 && TickStep(s).s.yieldPending == s.yieldPending
  {
    hide Roster.Consistent, Sched.Shape;
    var a, b := AdvanceCount(s), AdvanceCount(t);
    assert Like(a, b);
    ExpireIgnores(a, b, false);
  }

  /** The loop over the pended ticks does what the same ticks do when they are not held back. */
  lemma {:induction false} UnwindIsTicks(s: Sched, t: Sched, n: nat)
    requires s.Shape() && t.Shape() && Like(s, t) && s.suspended == t.suspended == 0
    requires s.yieldPending ==> t.yieldPending
    ensures UnwindTicks(t, n) == RunTicks(s, n).(pended := t.pended, yieldPending := t.yieldPending || AnySwitch(s, n))
    decreases n
  {
    hide Roster.Consistent, Sched.Shape, TickStep;
    if n > 0 {
      TickIgnores(s, t);
      var r := TickStep(t);
      var q := if r.switchRequired then r.s.(yieldPending := true) else r.s;
      LikeShape(r.s, q);
      UnwindIsTicks(TickStep(s).s, q, n - 1);
    }
  }

  /** While the scheduler is suspended a tick is only counted. */
  lemma {:induction false} HeldBack(s: Sched, n: nat)
    requires s.Shape() && s.suspended > 0 && s.pended + n < 0x1_0000_0000
    ensures RunTicks(s, n) == s.(pended := s.pended + n)
    decreases n
  {
    hide Roster.Consistent;
    if n > 0 {
      HeldBack(TickStep(s).s, n - 1);
    }
  }

  /** k nested calls of vTaskSuspendAll, and of xTaskResumeAll. */
  function SuspendTimes(s: Sched, k: nat): (r: Sched)
    requires s.Shape()
    ensures r.Shape() && r == s.(suspended := s.suspended + k)
    decreases k
  {
    if k == 0 then s else
      LikeShape(s, SuspendAll(s));
      hide Sched.Shape;
      SuspendTimes(SuspendAll(s), k - 1)
  }

  function ResumeTimes(s: Sched, k: nat): (r: Sched)
    requires s.Shape() && s.suspended >= k
    ensures r.Shape()
    decreases k
  {
    if k == 0 then s else
      hide Roster.Consistent, Sched.Shape;
      ResumeDepth(s);
      ResumeTimes(ResumeAll(s), k - 1)
  }

  lemma ResumeDepth(s: Sched)
    requires s.Shape() && s.suspended > 0
    ensures s.suspended > 1 ==> ResumeAll(s).suspended == s.suspended - 1
  {
    hide Roster.Consistent, Sched.Shape;
  }

  lemma {:induction false} ResumeNested(s: Sched, k: nat)
    requires s.Shape() && s.suspended == k > 0
    ensures ResumeTimes(s, k) == ResumeAll(s.(suspended := 1))
    decreases k
  {
    hide Roster.Consistent;
    if k > 1 {
      ResumeNested(ResumeAll(s), k - 1);
    } else {
      assert s == s.(suspended := 1);
      assert ResumeTimes(s, k) == ResumeTimes(ResumeAll(s), 0);
    }
  }

  /** n ticks that arrive while the scheduler is suspended, to any depth, leave it after the last
      xTaskResumeAll in exactly the state that the same n ticks would have produced directly: tick and
      overflow counts, delayed lists with their order, ready lists with their order and cursors, event
      lists.  Only the request for a context switch is remembered instead of acted upon. */
  lemma SuspensionIsInvisible(s: Sched, n: nat, depth: nat)
    requires s.Inv() && s.suspended == 0 && n < 0x1_0000_0000 && depth > 0
    ensures RunTicks(SuspendTimes(s, depth), n).suspended == depth
    ensures ResumeTimes(RunTicks(SuspendTimes(s, depth), n), depth) ==
            RunTicks(s, n).(yieldPending := s.yieldPending || AnySwitch(s, n))
  {
    hide Roster.Consistent, Sched.DelaysSorted, Sched.ReadyListsMatch, Sched.EventWaitersBlocked, RunTicks, ResumeTimes,
         ResumeAll;
    var a := SuspendTimes(s, depth);
    HeldBack(a, n);
    ResumeNested(a.(pended := n), depth);
    CatchUp(s, n);
  }

  lemma CatchUp(s: Sched, n: nat)
    requires s.Inv() && s.suspended == 0 && n < 0x1_0000_0000
    ensures s.(pended := n, suspended := 1).Shape()
    ensures ResumeAll(s.(pended := n, suspended := 1)) ==
            RunTicks(s, n).(yieldPending := s.yieldPending || AnySwitch(s, n))
  {
    Live(s);
    hide Roster.Consistent, Sched.DelaysSorted, Sched.ReadyListsMatch, Sched.EventWaitersBlocked;
    LikeShape(s, s.(pended := n, suspended := 1));
    var t := s.(pended := n);
    LikeShape(s, t);
    NothingToDeliver(s);
    assert DeliverPending(t) == t;
    hide DeliverPending, RunTicks, UnwindTicks;
    UnwindIsTicks(s, t, n);
    TicksKeepPended(s, n);
  }

  lemma NothingToDeliver(s: Sched)
    requires s.Shape() && s.Settled() && s.suspended == 0
    ensures s.event.lists[PendingReady].items == []
  {
    if s.event.lists[PendingReady].items != [] {
      PendingShrinks(s);
    }
  }

  lemma {:induction false} TicksKeepPended(s: Sched, n: nat)
    requires s.Shape() && s.suspended == 0
    ensures RunTicks(s, n).pended == s.pended && RunTicks(s, n).suspended == 0
    decreases n
  {
    hide Roster.Consistent, Sched.Shape;
    if n > 0 {
      TicksKeepPended(TickStep(s).s, n - 1);
    }
  }
}
