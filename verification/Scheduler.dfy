/** The scheduler state of tasks.c as a value, and its operations as functions on that value.
    Each critical section of the source is one operation.  SchedulerRuns proves what every run of
    them keeps; the class Kernel performs them on mutable fields. */
module Scheduler {
  import opened Ticks
  import opened ListValues
  import opened Rosters

  /** configMAX_PRIORITIES */
  const MAX_PRIORITIES: nat := 7

  /** The idle task, which never blocks. */
  const IDLE: Task := 0

  /** taskEVENT_LIST_ITEM_VALUE_IN_USE */
  const VALUE_IN_USE: Tick := 0x8000_0000

  /** The lists that a task's xStateListItem can be on. */
  datatype StateList = Ready(priority: nat) | Delayed1 | Delayed2 | SuspendedTasks | WaitingTermination

  /** The lists that a task's xEventListItem can be on. */
  datatype EventList = PendingReady | Waiting(id: nat)

  datatype Tcb = Tcb(priority: nat, basePriority: nat, mutexesHeld: nat,
                     wake: Tick, eventValue: Tick, delayAborted: bool)

  function Wakes(tcbs: map<Task, Tcb>, items: seq<Task>): (w: seq<Tick>)
    requires forall x :: x in items ==> x in tcbs
    ensures |w| == |items| && forall i :: 0 <= i < |w| ==> w[i] == tcbs[items[i]].wake
  {
    seq(|items|, i requires 0 <= i < |items| => tcbs[items[i]].wake)
  }

  /** The list is in wake order. */
  ghost predicate InWakeOrder(tcbs: map<Task, Tcb>, items: seq<Task>) {
    && (forall x :: x in items ==> x in tcbs)
    && Sorted(Wakes(tcbs, items))
  }

  lemma WithoutInOrder(tcbs: map<Task, Tcb>, items: seq<Task>, x: Task)
    requires InWakeOrder(tcbs, items)
    ensures InWakeOrder(tcbs, Without(items, x))
  {
    if x in items {
      RemovedWakes(tcbs, items, IndexOf(items, x));
    }
  }

  lemma RemovedWakes(tcbs: map<Task, Tcb>, items: seq<Task>, p: nat)
    requires InWakeOrder(tcbs, items) && p < |items|
    ensures InWakeOrder(tcbs, items[..p] + items[p + 1..])
  {
    var w, r := Wakes(tcbs, items), items[..p] + items[p + 1..];
    forall i | 0 <= i < |r| ensures r[i] in tcbs && tcbs[r[i]].wake == w[if i < p then i else i + 1] {
      assert r[i] == items[if i < p then i else i + 1];
    }
  }

  /** Changing the control block of a task that is not on the list does not disturb it. */
  lemma ElsewhereInOrder(tcbs: map<Task, Tcb>, items: seq<Task>, x: Task, tcb: Tcb)
    requires InWakeOrder(tcbs, items) && x !in items
    ensures InWakeOrder(tcbs[x := tcb], items)
  {
    assert Wakes(tcbs[x := tcb], items) == Wakes(tcbs, items);
  }

  lemma InsertedInOrder(tcbs: map<Task, Tcb>, items: seq<Task>, x: Task, tcb: Tcb)
    requires InWakeOrder(tcbs, items) && x !in items
    ensures var p := StepOver(Wakes(tcbs, items), tcb.wake);
      InWakeOrder(tcbs[x := tcb], items[..p] + [x] + items[p..])
  {
    hide StepOver, Sorted;
    var w := Wakes(tcbs, items);
    var p := StepOver(w, tcb.wake);
    InsertSorted(w, tcb.wake);
    InsertedWakes(tcbs, items, x, tcb, p);
  }

  lemma InsertedWakes(tcbs: map<Task, Tcb>, items: seq<Task>, x: Task, tcb: Tcb, p: nat)
    requires (forall y :: y in items ==> y in tcbs) && x !in items && p <= |items|
    ensures var r := items[..p] + [x] + items[p..];
      && (forall y :: y in r ==> y in tcbs[x := tcb])
      && Wakes(tcbs[x := tcb], r) == Wakes(tcbs, items)[..p] + [tcb.wake] + Wakes(tcbs, items)[p..]
  {
    var r := items[..p] + [x] + items[p..];
    forall y | y in r ensures y in tcbs[x := tcb] {
      InsertMembers(items, p, x, y);
    }
    forall i | 0 <= i < |r|
      ensures tcbs[x := tcb][r[i]].wake == (Wakes(tcbs, items)[..p] + [tcb.wake] + Wakes(tcbs, items)[p..])[i]
    {
      InsertedAt(items, p, x, i);
      InsertedAt(Wakes(tcbs, items), p, tcb.wake, i);
    }
  }

  lemma HeadIsEarliest(tcbs: map<Task, Tcb>, items: seq<Task>, x: Task)
    requires InWakeOrder(tcbs, items) && x in items
    ensures tcbs[items[0]].wake <= tcbs[x].wake
  {
    var i :| 0 <= i < |items| && items[i] == x;
    assert i > 0 ==> Wakes(tcbs, items)[0] <= Wakes(tcbs, items)[i];
  }

  function Max(a: nat, b: nat): nat { if a < b then b else a }

  datatype Sched = Sched(
    state: Roster<StateList>,
    event: Roster<EventList>,
    tcbs: map<Task, Tcb>,
    current: Task,
    tick: Tick,
    overflows: nat,
    nextUnblock: Tick,
    firstIsCurrent: bool,
    topReady: nat,
    numberOfTasks: nat,
    deletedTasks: nat,
    suspended: nat,
    pended: Tick,
    yieldPending: bool)
  {
    /** pxDelayedTaskList */
    function Cur(): StateList { if firstIsCurrent then Delayed1 else Delayed2 }

    /** pxOverflowDelayedTaskList */
    function Ovf(): StateList { if firstIsCurrent then Delayed2 else Delayed1 }

    /** The number of ticks processed since the start, of which xTickCount is the low word. */
    function Now(): nat { overflows * 0x1_0000_0000 + tick }

    // ----- invariants -----

    ghost predicate Shape() {
      && state.Consistent() && event.Consistent()
      && (forall p :: 0 <= p < MAX_PRIORITIES ==> Ready(p) in state.lists)
      && Delayed1 in state.lists && Delayed2 in state.lists
      && SuspendedTasks in state.lists && WaitingTermination in state.lists
      && PendingReady in event.lists
      && state.place.Keys == tcbs.Keys
      && event.place.Keys <= tcbs.Keys
      && current in tcbs
      && (forall x :: x in tcbs ==> tcbs[x].priority < MAX_PRIORITIES && tcbs[x].basePriority < MAX_PRIORITIES)
    }

    /** A task in ready list p has priority p, and nothing is ready above uxTopReadyPriority. */
    ghost predicate ReadyListsMatch()
      requires Shape()
    {
      && topReady < MAX_PRIORITIES
      && forall x :: x in state.place && state.place[x].Ready? ==>
           state.place[x].priority == tcbs[x].priority <= topReady
    }

    ghost predicate DelaysSorted()
      requires Shape()
    {
      InWakeOrder(tcbs, state.lists[Delayed1].items) && InWakeOrder(tcbs, state.lists[Delayed2].items)
    }

    predicate IsBlocked(x: Task)
      requires x in state.place
    {
      state.place[x] in {Delayed1, Delayed2, SuspendedTasks}
    }

    /** A task on an event list, or waiting in the pending ready list, is not ready. */
    ghost predicate EventWaitersBlocked() {
      forall x :: x in event.place && x in state.place ==> IsBlocked(x)
    }

    /** What holds of every state, also while a tick is being processed. */
    ghost predicate Core() {
      && Shape() && ReadyListsMatch() && DelaysSorted() && EventWaitersBlocked()
      && IDLE in state.place && state.place[IDLE].Ready?
      && numberOfTasks == |tcbs|
      && deletedTasks == |state.lists[WaitingTermination].items|
    }

    /** Nobody on the current delayed list is overdue or earlier than xNextTaskUnblockTime. */
    ghost predicate Timely() {
      forall x :: x in state.place && x in tcbs && state.place[x] == Cur() ==>
        tick < tcbs[x].wake && nextUnblock <= tcbs[x].wake
    }

    /** With the scheduler running nothing is held back for later. */
    ghost predicate Settled() {
      suspended == 0 ==> pended == 0 && forall x :: x in event.place ==> event.place[x] != PendingReady
    }

    ghost predicate Inv() { Core() && Timely() && Settled() }

    /** Core speaks of the lists and the tasks only. */
    lemma CoreOfSameLists(s: Sched)
      requires Core() && s.state == state && s.event == event && s.tcbs == tcbs && s.current == current
      requires s.topReady == topReady && s.numberOfTasks == numberOfTasks && s.deletedTasks == deletedTasks
      ensures s.Core()
    {
      hide Roster.Consistent, InWakeOrder;
    }

    // ----- moving one task -----

    /** Take the task off its state list and its event list, and prvAddTaskToReadyList. */
    function Unblock(x: Task): (s: Sched)
      requires Shape() && x in tcbs
      ensures s.Shape()
      ensures s.state.place == state.place[x := Ready(tcbs[x].priority)]
      ensures s.event.place == event.place - {x}
      ensures s == this.(state := s.state, event := s.event, topReady := s.topReady)
    {
      hide Shape, Roster.Consistent, Roster.Move, Roster.TakeIfPlaced;
      TaskKnown(x);
      var s := this.(state := state.Move(x, Ready(tcbs[x].priority)), event := event.TakeIfPlaced(x),
                     topReady := Max(topReady, tcbs[x].priority));
      NewListsShape(s);
      s
    }

    lemma TaskKnown(x: Task)
      requires Shape() && x in tcbs
      ensures state.Consistent() && event.Consistent() && x in state.place && Ready(tcbs[x].priority) in state.lists
      ensures tcbs[x].priority < MAX_PRIORITIES && tcbs[x].basePriority < MAX_PRIORITIES
    {
    }

    /** One control block has changed, and items may have moved between the lists. */
    lemma NewBlockShape(s: Sched, x: Task)
      requires Shape() && x in tcbs && x in s.tcbs && s.tcbs == tcbs[x := s.tcbs[x]] && s.current == current
      requires s.tcbs[x].priority < MAX_PRIORITIES && s.tcbs[x].basePriority < MAX_PRIORITIES
      requires s.state.Consistent() && s.state.lists.Keys == state.lists.Keys
      requires s.event.Consistent() && s.event.lists.Keys == event.lists.Keys
      requires s.state.place.Keys == state.place.Keys && s.event.place.Keys <= tcbs.Keys
      ensures s.Shape()
    {
      hide Roster.Consistent;
    }

    lemma ListsKnown()
      requires Shape()
      ensures state.Consistent() && event.Consistent() && current in tcbs && current in state.place
      ensures Delayed1 in state.lists && Delayed2 in state.lists && SuspendedTasks in state.lists
      ensures WaitingTermination in state.lists && PendingReady in event.lists
      ensures state.place.Keys == tcbs.Keys && event.place.Keys <= tcbs.Keys
      ensures tcbs[current].priority < MAX_PRIORITIES && tcbs[current].basePriority < MAX_PRIORITIES
    {
    }

    lemma CoreShape()
      requires Core()
      ensures Shape()
    {
    }

    /** Items have moved between the lists; the lists and the tasks are the same. */
    lemma NewListsShape(s: Sched)
      requires Shape() && s.tcbs == tcbs && s.current == current
      requires s.state.Consistent() && s.state.lists.Keys == state.lists.Keys
      requires s.event.Consistent() && s.event.lists.Keys == event.lists.Keys
      requires s.state.place.Keys == state.place.Keys && s.event.place.Keys <= event.place.Keys
      ensures s.Shape()
    {
      hide Roster.Consistent;
    }

    lemma UnblockLists(x: Task, m: StateList)
      requires Shape() && x in tcbs && m in state.lists && !m.Ready?
      ensures m in Unblock(x).state.lists
      ensures Unblock(x).state.lists[m].items ==
              if m == state.place[x] then Without(state.lists[m].items, x) else state.lists[m].items
    {
      hide Roster.Consistent, Roster.Move, Roster.TakeIfPlaced, Without;
    }

    lemma UnblockKeepsCore(x: Task)
      requires Core() && x in tcbs && state.place[x] != WaitingTermination
      ensures Unblock(x).Core()
    {
      hide Roster.Consistent, Roster.Move, Roster.TakeIfPlaced, InWakeOrder, Without;
      var s := Unblock(x);
      UnblockLists(x, Delayed1);
      UnblockLists(x, Delayed2);
      UnblockLists(x, WaitingTermination);
      WithoutInOrder(tcbs, state.lists[Delayed1].items, x);
      WithoutInOrder(tcbs, state.lists[Delayed2].items, x);
      assert s.DelaysSorted();
    }

    // ----- time -----

    /** prvResetNextTaskUnblockTime */
    function ResetUnblockTime(): (s: Sched)
      requires Shape()
      ensures s.Shape()
    {
      var waiting := state.lists[Cur()].items;
      this.(nextUnblock := if waiting == [] then MAX_DELAY else assert waiting[0] in waiting; tcbs[waiting[0]].wake)
    }

    lemma NoEarlierThanHead()
      requires Core()
      ensures ResetUnblockTime().Core()
      ensures forall x :: x in tcbs && state.place[x] == Cur() ==> ResetUnblockTime().nextUnblock <= tcbs[x].wake
    {
      var items := state.lists[Cur()].items;
      forall x | x in tcbs && state.place[x] == Cur() ensures ResetUnblockTime().nextUnblock <= tcbs[x].wake {
        HeadIsEarliest(tcbs, items, x);
      }
    }

    /** The task's wake time is reached. */
    predicate Elapsed(x: Task)
      requires x in tcbs && x in state.place
    {
      state.place[x] == Cur() && tcbs[x].wake <= tick
    }

    lemma UnblockShrinks()
      requires Shape() && state.lists[Cur()].items != []
      ensures var x := state.lists[Cur()].items[0];
        x in tcbs && |Unblock(x).state.lists[Cur()].items| < |state.lists[Cur()].items|
    {
      var x := state.lists[Cur()].items[0];
      assert x in state.lists[Cur()].items;
      UnblockLists(x, Cur());
      hide Unblock, Roster.Consistent;
    }

    /** The loop of xTaskIncrementTick that readies every task whose wake time is reached. */
    function Expire(switch: bool): (r: Ticked)
      requires Shape()
      ensures r.s.Shape()
      ensures r.s == this.(state := r.s.state, event := r.s.event, topReady := r.s.topReady,
                           nextUnblock := r.s.nextUnblock)
      decreases |state.lists[Cur()].items|
    {
      var waiting := state.lists[Cur()].items;
      if waiting == [] then
        Ticked(this.(nextUnblock := MAX_DELAY), switch)
      else
        var x := waiting[0];
        UnblockShrinks();
        if tick < tcbs[x].wake then Ticked(this.(nextUnblock := tcbs[x].wake), switch)
        else Unblock(x).Expire(switch || tcbs[x].priority >= tcbs[current].priority)
    }

    lemma ExpireRound(switch: bool)
      requires Shape()
      ensures Cur() == (if firstIsCurrent then Delayed1 else Delayed2) && Cur() in state.lists && current in tcbs
      ensures var items := state.lists[Cur()].items;
        if items == [] then Expire(switch) == Ticked(this.(nextUnblock := MAX_DELAY), switch)
        else
          && items[0] in tcbs
          && |Unblock(items[0]).state.lists[Cur()].items| < |items|
          && Expire(switch) ==
               if tick < tcbs[items[0]].wake then Ticked(this.(nextUnblock := tcbs[items[0]].wake), switch)
               else Unblock(items[0]).Expire(switch || tcbs[items[0]].priority >= tcbs[current].priority)
    {
      hide Shape, Roster.Consistent, Unblock;
      ListsKnown();
      if state.lists[Cur()].items != [] {
        UnblockShrinks();
      }
    }

    /** r is this state with exactly the elapsed tasks made ready, and the next wake time known. */
    ghost predicate ExpiredTo(r: Sched) {
      && r == this.(state := r.state, event := r.event, topReady := r.topReady, nextUnblock := r.nextUnblock)
      && r.state.place.Keys == state.place.Keys == tcbs.Keys
      && (forall x :: x in tcbs ==>
            r.state.place[x] == if Elapsed(x) then Ready(tcbs[x].priority) else state.place[x])
      && (forall x :: x in tcbs ==> (x in r.event.place <==> x in event.place && !Elapsed(x)))
      && (forall x :: x in r.event.place ==> x in event.place && r.event.place[x] == event.place[x])
      && (forall x :: x in tcbs && r.state.place[x] == Cur() ==> r.nextUnblock <= tcbs[x].wake)
    }

    /** An elapsed task of at least the running task's priority. */
    ghost predicate Preempts(x: Task)
      requires current in tcbs
    {
      x in tcbs && x in state.place && Elapsed(x) && tcbs[x].priority >= tcbs[current].priority
    }

    lemma UnblockThenExpire(x: Task, r: Sched)
      requires Shape() && x in tcbs && Elapsed(x) && Unblock(x).ExpiredTo(r)
      ensures ExpiredTo(r)
    {
      hide Shape, Unblock, ExpiredTo;
      ListsKnown();
      ThenExpired(x, Unblock(x), r);
    }

    lemma ThenExpired(x: Task, u: Sched, r: Sched)
      requires x in tcbs && state.place.Keys == tcbs.Keys && Elapsed(x) && u.ExpiredTo(r)
      requires u == this.(state := u.state, event := u.event, topReady := u.topReady)
      requires u.state.place == state.place[x := Ready(tcbs[x].priority)] && u.event.place == event.place - {x}
      ensures ExpiredTo(r)
    {
      forall y | y in tcbs ensures Elapsed(y) <==> y == x || u.Elapsed(y) {
      }
    }

    lemma UnblockThenPreempt(x: Task)
      requires Shape() && x in tcbs && Elapsed(x)
      ensures (exists y :: Preempts(y)) <==> Preempts(x) || exists y :: Unblock(x).Preempts(y)
    {
      hide Roster.Consistent, Roster.Move, Roster.TakeIfPlaced;
      assert forall y :: Preempts(y) <==> (y == x && Preempts(x)) || Unblock(x).Preempts(y);
    }

    lemma HeadElapsesFirst()
      requires Core() && state.lists[Cur()].items != []
      ensures var x := state.lists[Cur()].items[0];
        && x in tcbs && state.place[x] == Cur()
        && forall y :: y in tcbs && state.place[y] == Cur() ==> tcbs[x].wake <= tcbs[y].wake
    {
      var waiting := state.lists[Cur()].items;
      assert waiting[0] in waiting;
      forall y | y in tcbs && state.place[y] == Cur() ensures tcbs[waiting[0]].wake <= tcbs[y].wake {
        HeadIsEarliest(tcbs, waiting, y);
      }
    }

    lemma NothingElapsed(v: Tick)
      requires Shape() && forall x :: x in tcbs && state.place[x] == Cur() ==> tick < tcbs[x].wake && v <= tcbs[x].wake
      ensures ExpiredTo(this.(nextUnblock := v))
      ensures forall x :: !Preempts(x)
    {
      hide Roster.Consistent;
    }

    lemma HeadSaysWhen()
      requires Core()
      ensures var items := state.lists[Cur()].items; items != [] ==> items[0] in tcbs
      ensures var items, v := state.lists[Cur()].items, ResetUnblockTime().nextUnblock;
        (items == [] || tick < tcbs[items[0]].wake) ==>
          forall x :: x in tcbs && state.place[x] == Cur() ==> tick < tcbs[x].wake && v <= tcbs[x].wake
    {
      hide InWakeOrder;
      if state.lists[Cur()].items != [] {
        HeadElapsesFirst();
      }
    }

    /** The loop readies exactly the tasks whose wake time is reached, leaves everybody else where
        they were, and returns true exactly if one of them may preempt the running task. */
    lemma {:induction false} ExpireEffect(switch: bool)
      requires Core()
      ensures Expire(switch).s.Core() && ExpiredTo(Expire(switch).s)
      ensures Expire(switch).switchRequired <==> switch || exists x :: Preempts(x)
      decreases |state.lists[Cur()].items|
    {
      hide Roster.Consistent, Roster.Move, Roster.TakeIfPlaced, ExpiredTo, ReadyListsMatch, DelaysSorted,
           EventWaitersBlocked;
      var waiting, v := state.lists[Cur()].items, ResetUnblockTime().nextUnblock;
      HeadSaysWhen();
      if waiting == [] || tick < tcbs[waiting[0]].wake {
        NothingElapsed(v);
        CoreOfSameLists(this.(nextUnblock := v));
        assert Expire(switch).s == this.(nextUnblock := v);
      } else {
        HeadElapsesFirst();
        var x := waiting[0];
        UnblockLists(x, Cur());
        UnblockKeepsCore(x);
        UnblockThenPreempt(x);
        Unblock(x).ExpireEffect(switch || tcbs[x].priority >= tcbs[current].priority);
        UnblockThenExpire(x, Expire(switch).s);
      }
    }
  }

  /** The new state and the value that xTaskIncrementTick returns. */
  datatype Ticked = Ticked(s: Sched, switchRequired: bool)
}
