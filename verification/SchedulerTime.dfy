/** Tick processing, blocking with a timeout, and suspension of the scheduler. */
module SchedulerTime {
  import opened Ticks
  import opened ListValues
  import opened Rosters
  import opened Scheduler

  // ----- what a tick does -----

  /** Where a task is, with wake times as unbounded tick numbers. */
  datatype Place = At(l: StateList) | Until(due: nat)

  /** The current delayed list holds wake times of this epoch, the overflow list those of the next. */
  function Where(s: Sched, x: Task): Place
    requires x in s.state.place && x in s.tcbs
  {
    var l := s.state.place[x];
    if l != Delayed1 && l != Delayed2 then At(l)
    else Until((if l == s.Cur() then s.overflows else s.overflows + 1) * 0x1_0000_0000 + s.tcbs[x].wake)
  }

  predicate DueBy(s: Sched, x: Task, time: nat)
    requires x in s.state.place && x in s.tcbs
  {
    Where(s, x).Until? && Where(s, x).due <= time
  }

  /** Where a task is depends on its list, its wake time and the clock only. */
  lemma SamePlace(s: Sched, t: Sched)
    requires t.state.place == s.state.place && t.tcbs == s.tcbs
    requires t.firstIsCurrent == s.firstIsCurrent && t.tick == s.tick && t.overflows == s.overflows
    ensures t.Now() == s.Now()
    ensures forall x :: x in s.tcbs && x in s.state.place ==> Where(t, x) == Where(s, x)
  {
  }

  /** r is s after n ticks: exactly the tasks due by then are ready and off any event list, and
      everybody else is where they were, waiting for the same tick and the same event. */
  ghost predicate AfterTicks(s: Sched, n: nat, r: Sched) {
    && r.Now() == s.Now() + n
    && r.tcbs == s.tcbs && r.state.place.Keys == s.state.place.Keys == s.tcbs.Keys
    && (forall x :: x in s.tcbs ==>
          Where(r, x) == if DueBy(s, x, s.Now() + n) then At(Ready(s.tcbs[x].priority)) else Where(s, x))
    && (forall x :: x in s.tcbs ==> (x in r.event.place <==> x in s.event.place && !DueBy(s, x, s.Now() + n)))
    && (forall x :: x in r.event.place ==> x in s.event.place && r.event.place[x] == s.event.place[x])
  }

  /** The increment of xTickCount, with taskSWITCH_DELAYED_LISTS when it wraps. */
  function AdvanceCount(s: Sched): (r: Sched)
    requires s.Shape()
    ensures r.Shape()
  {
    var r := s.(tick := Plus(s.tick, 1));
    if r.tick == 0
    then r.(firstIsCurrent := !s.firstIsCurrent, overflows := s.overflows + 1).ResetUnblockTime()
    else r
  }

  /** xTaskIncrementTick */
  function TickStep(s: Sched): (r: Ticked)
    requires s.Shape()
    ensures r.s.Shape()
  {
    if s.suspended != 0 then
      Ticked(s.(pended := Plus(s.pended, 1)), false)
    else
      var a := AdvanceCount(s);
      var e := if a.tick >= a.nextUnblock then a.Expire(false) else Ticked(a, false);
      var timeSlice := |e.s.state.lists[Ready(s.tcbs[s.current].priority)].items| > 1;
      Ticked(e.s, e.switchRequired || timeSlice || s.yieldPending)
  }

  /** Between AdvanceCount and Expire: nobody is overdue by more than the tick being processed. */
  ghost predicate AtTick(s: Sched) {
    forall x :: x in s.tcbs && x in s.state.place && s.state.place[x] == s.Cur() ==>
      s.tick <= s.tcbs[x].wake && s.nextUnblock <= s.tcbs[x].wake
  }

  /** Nobody is due in the past. */
  ghost predicate Future(s: Sched) {
    forall x :: x in s.tcbs && x in s.state.place && Where(s, x).Until? ==> Where(s, x).due > s.Now()
  }

  lemma TimelyIsFuture(s: Sched)
    requires s.Timely()
    ensures Future(s)
  {
  }

  lemma AdvanceEffect(s: Sched)
    requires s.Core() && s.Timely()
    ensures var a := AdvanceCount(s);
      && a.Core() && AtTick(a) && a.Now() == s.Now() + 1
      && a == s.(tick := a.tick, overflows := a.overflows, firstIsCurrent := a.firstIsCurrent,
                 nextUnblock := a.nextUnblock)
      && forall x :: x in s.tcbs ==> Where(a, x) == Where(s, x)
  {
    hide Sched.Core, Sched.Timely, AdvanceCount, Where, AtTick, Sched.Now;
    AdvanceKeepsCore(s);
    s.CoreShape();
    s.ListsKnown();
    CountAdvanced(s, AdvanceCount(s));
  }

  /** What AdvanceCount does to the clock. */
  ghost predicate OneOn(s: Sched, a: Sched) {
    && a == s.(tick := Plus(s.tick, 1), overflows := a.overflows, firstIsCurrent := a.firstIsCurrent,
               nextUnblock := a.nextUnblock)
    && if a.tick == 0 then
         && a.firstIsCurrent == !s.firstIsCurrent && a.overflows == s.overflows + 1
         && forall x :: x in a.tcbs && x in a.state.place && a.state.place[x] == a.Cur() ==>
              a.nextUnblock <= a.tcbs[x].wake
       else
         a.firstIsCurrent == s.firstIsCurrent && a.overflows == s.overflows && a.nextUnblock == s.nextUnblock
  }

  lemma AdvanceKeepsCore(s: Sched)
    requires s.Core()
    ensures AdvanceCount(s).Core() && OneOn(s, AdvanceCount(s))
  {
    hide Sched.Core, Sched.Shape;
    s.CoreShape();
    var r := s.(tick := Plus(s.tick, 1));
    s.CoreOfSameLists(r);
    if r.tick == 0 {
      var w := r.(firstIsCurrent := !s.firstIsCurrent, overflows := s.overflows + 1);
      s.CoreOfSameLists(w);
      w.CoreShape();
      w.NoEarlierThanHead();
    }
  }

  /** Nobody's place in time changes, and nobody is overdue by more than the new tick. */
  lemma CountAdvanced(s: Sched, a: Sched)
    requires s.Timely() && OneOn(s, a) && s.state.place.Keys == s.tcbs.Keys
    ensures AtTick(a) && a.Now() == s.Now() + 1
    ensures forall x :: x in s.tcbs ==> Where(a, x) == Where(s, x)
  {
  }

  /** a is s with the count advanced by one; r is a with the elapsed tasks readied, if it came to that. */
  ghost predicate Advanced(s: Sched, a: Sched, r: Sched) {
    && s.state.place.Keys == s.tcbs.Keys && s.event.place.Keys <= s.tcbs.Keys
    && a == s.(tick := a.tick, overflows := a.overflows, firstIsCurrent := a.firstIsCurrent,
               nextUnblock := a.nextUnblock)
    && AtTick(a) && a.Now() == s.Now() + 1
    && (forall x :: x in s.tcbs ==> Where(a, x) == Where(s, x))
    && if a.tick >= a.nextUnblock then a.ExpiredTo(r) else r == a
  }

  lemma ElapsedMeansDue(s: Sched, a: Sched, r: Sched, x: Task)
    requires Advanced(s, a, r) && x in s.tcbs
    ensures a.Elapsed(x) <==> DueBy(s, x, s.Now() + 1)
    ensures a.tick < a.nextUnblock ==> !a.Elapsed(x)
  {
    hide Sched.ExpiredTo;
  }

  lemma AdvancedIsTicked(s: Sched, a: Sched, r: Sched)
    requires Advanced(s, a, r)
    ensures AfterTicks(s, 1, r)
  {
    forall x | x in s.tcbs
      ensures x in r.tcbs && x in r.state.place && x in s.state.place
      ensures Where(r, x) == if DueBy(s, x, s.Now() + 1) then At(Ready(s.tcbs[x].priority)) else Where(s, x)
      ensures x in r.event.place <==> x in s.event.place && !DueBy(s, x, s.Now() + 1)
    {
      PlaceAfterTick(s, a, r, x);
    }
    hide DueBy, Where, AtTick;
  }

  lemma PlaceAfterTick(s: Sched, a: Sched, r: Sched, x: Task)
    requires Advanced(s, a, r) && x in s.tcbs
    ensures x in r.tcbs && x in r.state.place && x in s.state.place
    ensures Where(r, x) == if DueBy(s, x, s.Now() + 1) then At(Ready(s.tcbs[x].priority)) else Where(s, x)
    ensures x in r.event.place <==> x in s.event.place && !DueBy(s, x, s.Now() + 1)
  {
    ElapsedMeansDue(s, a, r, x);
    hide DueBy, AtTick;
  }

  lemma AdvancedIsTimely(s: Sched, a: Sched, r: Sched)
    requires Advanced(s, a, r)
    ensures r.Timely()
  {
  }

  /** A tick of the running scheduler wakes every task exactly when its time comes. */
  lemma TickEffect(s: Sched)
    requires s.Core() && s.Timely() && s.suspended == 0
    ensures var r := TickStep(s).s;
      && r.Core() && r.Timely()
      && r == s.(state := r.state, event := r.event, topReady := r.topReady, tick := r.tick,
                 overflows := r.overflows, firstIsCurrent := r.firstIsCurrent, nextUnblock := r.nextUnblock)
      && AfterTicks(s, 1, r)
  {
    hide AfterTicks, Where, AtTick, Sched.Core, Sched.ExpiredTo, Sched.Timely, AdvanceCount, Sched.Expire;
    s.CoreShape();
    s.ListsKnown();
    AdvanceEffect(s);
    var a := AdvanceCount(s);
    if a.tick >= a.nextUnblock {
      a.ExpireEffect(false);
    }
    AdvancedIsTicked(s, a, TickStep(s).s);
    AdvancedIsTimely(s, a, TickStep(s).s);
  }

  lemma HeadIsTask(s: Sched)
    requires s.Shape() && s.state.lists[s.Cur()].items != []
    ensures var x := s.state.lists[s.Cur()].items[0];
      && x in s.tcbs && s.state.place[x] == s.Cur()
      && |Without(s.state.lists[s.Cur()].items, x)| < |s.state.lists[s.Cur()].items|
  {
    assert s.state.lists[s.Cur()].items[0] in s.state.lists[s.Cur()].items;
  }

  lemma NobodyLeft(s: Sched, x: Task)
    requires s.Timely() && Plus(s.tick, 1) == 0 && x in s.tcbs && x in s.state.place
    ensures s.state.place[x] != s.Cur()
  {
    var wake := s.tcbs[x].wake;
  }

  /** When the count wraps, the list that is switched away holds nobody (the kernel's own assertion). */
  lemma ListSwitchIsSafe(s: Sched)
    requires s.Shape() && s.Timely() && Plus(s.tick, 1) == 0
    ensures s.state.lists[s.Cur()].items == []
  {
    var items := s.state.lists[s.Cur()].items;
    if items != [] {
      HeadIsTask(s);
      NobodyLeft(s, items[0]);
    }
  }

  /** A task that this tick wakes and that the running task must make way for. */
  ghost predicate Preempting(s: Sched, x: Task)
    requires s.current in s.tcbs
  {
    x in s.tcbs && x in s.state.place && DueBy(s, x, s.Now() + 1) && s.tcbs[x].priority >= s.tcbs[s.current].priority
  }

  /** xTaskIncrementTick asks for a context switch exactly if it woke a task of at least the running
      task's priority, or somebody shares that priority, or a yield was pending. */
  lemma TickRequestsSwitch(s: Sched)
    requires s.Core() && s.Timely() && s.suspended == 0
    ensures var r := TickStep(s);
      r.switchRequired <==>
        || (exists x :: Preempting(s, x))
        || |r.s.state.lists[Ready(s.tcbs[s.current].priority)].items| > 1
        || s.yieldPending
  {
    hide AfterTicks, Where, AtTick, Sched.Core, Sched.ExpiredTo, Sched.Timely, AdvanceCount, Sched.Expire;
    s.CoreShape();
    s.ListsKnown();
    AdvanceEffect(s);
    var a := AdvanceCount(s);
    if a.tick >= a.nextUnblock {
      a.ExpireEffect(false);
    }
    SameSwitch(s, a, TickStep(s).s);
  }

  lemma SameSwitch(s: Sched, a: Sched, r: Sched)
    requires Advanced(s, a, r) && s.current in s.tcbs
    ensures (exists x :: Preempting(s, x)) <==> a.tick >= a.nextUnblock && exists x :: a.Preempts(x)
  {
    forall x | x in s.tcbs
      ensures a.Elapsed(x) <==> DueBy(s, x, s.Now() + 1)
      ensures a.tick < a.nextUnblock ==> !a.Elapsed(x)
    {
      ElapsedMeansDue(s, a, r, x);
    }
    assert forall x :: a.Preempts(x) <==> Preempting(s, x);
  }

  lemma TicksThenTicks(s: Sched, m: nat, t: Sched, n: nat, r: Sched)
    requires AfterTicks(s, m, t) && AfterTicks(t, n, r)
    ensures AfterTicks(s, m + n, r)
  {
    hide Where;
  }

  // ----- blocking -----

  /** The running task is put in wake order on one of the two delayed lists. */
  function BlockUntil(s: Sched, wake: Tick): (r: Sched)
    requires s.Shape()
    ensures r.Shape()
  {
    hide Sched.Shape, Roster.Consistent, Roster.Take, Roster.PutSorted;
    s.ListsKnown();
    var x := s.current;
    var l := if wake < s.tick then s.Ovf() else s.Cur();
    var taken := s.state.Take(x);
    OnListHasTcb(s, taken, l);
    var r := s.(tcbs := s.tcbs[x := s.tcbs[x].(delayAborted := false, wake := wake)],
                state := taken.PutSorted(l, x, wake, Wakes(s.tcbs, taken.lists[l].items)),
                nextUnblock := if s.tick <= wake < s.nextUnblock then wake else s.nextUnblock);
    s.NewBlockShape(r, x);
    r
  }

  /** The running task is put on the list that no tick looks at. */
  function BlockForever(s: Sched): (r: Sched)
    requires s.Shape()
    ensures r.Shape()
  {
    hide Sched.Shape, Roster.Consistent, Roster.Move;
    s.ListsKnown();
    var x := s.current;
    var r := s.(tcbs := s.tcbs[x := s.tcbs[x].(delayAborted := false)], state := s.state.Move(x, SuspendedTasks));
    s.NewBlockShape(r, x);
    r
  }

  /** prvAddCurrentTaskToDelayedList */
  function BlockCurrent(s: Sched, ticksToWait: Tick, canBlockIndefinitely: bool): (r: Sched)
    requires s.Shape()
    ensures r.Shape()
  {
    if ticksToWait == MAX_DELAY && canBlockIndefinitely then BlockForever(s)
    else BlockUntil(s, Plus(s.tick, ticksToWait))
  }

  lemma OnListHasTcb(s: Sched, r: Roster<StateList>, l: StateList)
    requires s.Shape() && r.Consistent() && r.place.Keys <= s.tcbs.Keys && l in r.lists
    ensures forall x :: x in r.lists[l].items ==> x in s.tcbs
  {
  }

  /** The delayed list m after the running task blocked. */
  lemma BlockUntilLists(s: Sched, wake: Tick, m: StateList)
    requires s.Shape() && s.DelaysSorted() && s.state.place[s.current].Ready? && m in {Delayed1, Delayed2}
    ensures var r := BlockUntil(s, wake); InWakeOrder(r.tcbs, r.state.lists[m].items)
  {
    hide InWakeOrder, Roster.Take, Sched.Shape, Roster.Consistent;
    s.ListsKnown();
    NotListed(s, s.current, m);
    var tcb := s.tcbs[s.current].(delayAborted := false, wake := wake);
    var items := s.state.lists[m].items;
    assert s.state.Take(s.current).lists[m] == s.state.lists[m];
    if m == if wake < s.tick then s.Ovf() else s.Cur() {
      InsertedInOrder(s.tcbs, items, s.current, tcb);
    } else {
      ElsewhereInOrder(s.tcbs, items, s.current, tcb);
    }
  }

  lemma NotListed(s: Sched, x: Task, m: StateList)
    requires s.Shape() && x in s.state.place && m in s.state.lists && s.state.place[x] != m
    ensures x !in s.state.lists[m].items
  {
  }

  lemma BlockUntilFrame(s: Sched, wake: Tick)
    requires s.Shape() && s.state.place[s.current].Ready?
    ensures var r, x := BlockUntil(s, wake), s.current;
      && r.state.place == s.state.place[x := if wake < s.tick then s.Ovf() else s.Cur()]
      && r.state.lists[WaitingTermination] == s.state.lists[WaitingTermination]
      && r.tcbs == s.tcbs[x := s.tcbs[x].(delayAborted := false, wake := wake)] && |r.tcbs| == |s.tcbs|
      && r == s.(state := r.state, tcbs := r.tcbs,
                 nextUnblock := if s.tick <= wake < s.nextUnblock then wake else s.nextUnblock)
  {
    hide Roster.Consistent, Roster.Take, Roster.PutSorted;
    ReplacePlace(s.state.place, s.current, if wake < s.tick then s.Ovf() else s.Cur());
    SameSize(s.tcbs, s.current, BlockUntil(s, wake).tcbs[s.current]);
  }

  lemma SameSize<K, V>(m: map<K, V>, x: K, v: V)
    requires x in m
    ensures |m[x := v]| == |m|
  {
    assert m[x := v].Keys == m.Keys;
  }

  lemma BlockUntilCore(s: Sched, wake: Tick)
    requires s.Core() && s.state.place[s.current].Ready? && s.current != IDLE
    ensures BlockUntil(s, wake).Core()
  {
    hide InWakeOrder, Roster.Consistent, Roster.Take, Roster.PutSorted, BlockUntil;
    BlockUntilLists(s, wake, Delayed1);
    BlockUntilLists(s, wake, Delayed2);
    BlockUntilFrame(s, wake);
  }

  /** A task that blocks for 1 <= d < 2^32 ticks at tick N is due at exactly N + d, wherever the wrap
      falls.  Nobody else moves. */
  lemma BlockUntilEffect(s: Sched, d: Tick)
    requires s.Shape() && s.Timely() && s.state.place[s.current].Ready? && d > 0
    ensures var r := BlockUntil(s, Plus(s.tick, d));
      && r.Timely()
      && Where(r, s.current) == Until(s.Now() + d)
      && (forall x :: x in s.tcbs && x != s.current ==> Where(r, x) == Where(s, x))
      && r.event == s.event
  {
    hide BlockUntil, Sched.Shape;
    s.ListsKnown();
    BlockUntilFrame(s, Plus(s.tick, d));
    DelayedUntil(s, BlockUntil(s, Plus(s.tick, d)), d);
  }

  lemma DelayedUntil(s: Sched, r: Sched, d: Tick)
    requires s.current in s.tcbs && s.state.place.Keys == s.tcbs.Keys && s.Timely() && d > 0
    requires var wake, x := Plus(s.tick, d), s.current;
      && r.state.place == s.state.place[x := if wake < s.tick then s.Ovf() else s.Cur()]
      && r.tcbs == s.tcbs[x := s.tcbs[x].(delayAborted := false, wake := wake)]
      && r == s.(state := r.state, tcbs := r.tcbs,
                 nextUnblock := if s.tick <= wake < s.nextUnblock then wake else s.nextUnblock)
    ensures r.Timely() && Where(r, s.current) == Until(s.Now() + d)
    ensures forall x :: x in s.tcbs && x != s.current ==> Where(r, x) == Where(s, x)
  {
  }
}
