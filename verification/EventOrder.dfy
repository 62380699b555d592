/** The lists of tasks that wait for an event: in the order of their event items, which stand for priorities, so
    that the first to be woken is one of the highest priority, and of those the one that has waited longest. */
module EventOrder {
  import opened Ticks
  import opened ListValues
  import opened Rosters
  import opened Scheduler
  import opened SchedulerTime
  import opened SchedulerSuspension
  import opened SchedulerTasks
  import opened SchedulerSafety
  import opened SchedulerRuns

  // ----- lists that only get shorter -----

  function Rest(items: seq<Task>, gone: set<Task>): seq<Task> {
    if items == [] then []
    else if items[0] in gone then Rest(items[1..], gone) else [items[0]] + Rest(items[1..], gone)
  }

  lemma {:induction false} RestHolds(items: seq<Task>, gone: set<Task>, x: Task)
    ensures x in Rest(items, gone) <==> x in items && x !in gone
  {
    if items != [] {
      RestHolds(items[1..], gone, x);
      assert items == [items[0]] + items[1..];
    }
  }

  lemma {:induction false} RestTwice(items: seq<Task>, a: set<Task>, b: set<Task>)
    ensures Rest(Rest(items, a), b) == Rest(items, a + b)
  {
    if items != [] {
      RestTwice(items[1..], a, b);
      if items[0] !in a {
        assert ([items[0]] + Rest(items[1..], a))[1..] == Rest(items[1..], a);
      }
    }
  }

  lemma {:induction false} RestOfAll(items: seq<Task>)
    ensures Rest(items, {}) == items
  {
    if items != [] {
      RestOfAll(items[1..]);
    }
  }

  lemma {:induction false} RestOfOthers(items: seq<Task>, x: Task)
    requires x !in items
    ensures Rest(items, {x}) == items
  {
    if items != [] {
      RestOfOthers(items[1..], x);
    }
  }

  lemma WithoutHead(items: seq<Task>)
    requires items != []
    ensures Without(items, items[0]) == items[1..]
  {
    assert IndexOf(items, items[0]) == 0;
  }

  lemma WithoutLater(items: seq<Task>, x: Task)
    requires items != [] && items[0] != x && x in items[1..]
    ensures Without(items, x) == [items[0]] + Without(items[1..], x)
  {
    var i := IndexOf(items[1..], x);
    assert IndexOf(items, x) == i + 1;
    assert items[..i + 1] == [items[0]] + items[1..][..i];
  }

  lemma {:induction false} RestWithout(items: seq<Task>, x: Task)
    requires Distinct(items) && x in items
    ensures Rest(items, {x}) == Without(items, x)
  {
    hide Without;
    var t := items[1..];
    if items[0] == x {
      WithoutHead(items);
      RestOfOthers(t, x);
    } else {
      assert items == [items[0]] + t;
      WithoutLater(items, x);
      RestWithout(t, x);
    }
  }

  /** List e has lost those named. */
  ghost predicate Thinned(s: Sched, r: Sched, e: EventList, gone: set<Task>) {
    e in s.event.lists && e in r.event.lists && r.event.lists[e].items == Rest(s.event.lists[e].items, gone)
  }

  lemma ThinnedTwice(s: Sched, u: Sched, r: Sched, e: EventList, a: set<Task>, b: set<Task>)
    requires Thinned(s, u, e, a) && Thinned(u, r, e, b)
    ensures Thinned(s, r, e, a + b)
  {
    RestTwice(s.event.lists[e].items, a, b);
  }

  lemma SameThinned(s: Sched, r: Sched, e: EventList)
    requires e in s.event.lists && r.event == s.event
    ensures Thinned(s, r, e, {})
  {
    RestOfAll(s.event.lists[e].items);
  }

  lemma TakenThins(v: Roster<EventList>, x: Task, e: EventList)
    requires v.Consistent() && e in v.lists
    ensures e in v.TakeIfPlaced(x).lists && v.TakeIfPlaced(x).lists[e].items == Rest(v.lists[e].items, {x})
  {
    assert v.lists[e].Valid();
    if x in v.lists[e].items {
      RestWithout(v.lists[e].items, x);
    } else {
      RestOfOthers(v.lists[e].items, x);
    }
    hide Rest, Without, Roster.Take, ListView.Valid;
  }

  lemma HeldThins(v: Roster<EventList>, x: Task, e: EventList)
    requires v.Consistent() && e in v.lists && x in v.place && PendingReady in v.lists && e != PendingReady
    ensures var r := v.Move(x, PendingReady); e in r.lists && r.lists[e].items == Rest(v.lists[e].items, {x})
  {
    assert v.lists[e].Valid();
    if x in v.lists[e].items {
      RestWithout(v.lists[e].items, x);
    } else {
      RestOfOthers(v.lists[e].items, x);
    }
    hide Rest, Without, Roster.Move, ListView.Valid;
  }

  lemma UnblockThins(s: Sched, x: Task, e: EventList)
    requires s.Shape() && x in s.tcbs && e in s.event.lists
    ensures Thinned(s, s.Unblock(x), e, {x})
  {
    TakenThins(s.event, x, e);
    hide Roster.Consistent, Roster.Move, Roster.TakeIfPlaced, Rest;
  }

  lemma DropThins(s: Sched, x: Task, e: EventList)
    requires s.Shape() && x in s.tcbs && e in s.event.lists
    ensures Thinned(s, DropEvent(s, x), e, {x})
  {
    TakenThins(s.event, x, e);
    hide Roster.Consistent, Roster.TakeIfPlaced, Rest;
  }

  lemma {:induction false} ExpireThins(s: Sched, switch: bool, e: EventList) returns (gone: set<Task>)
    requires s.Shape() && e in s.event.lists
    ensures Thinned(s, s.Expire(switch).s, e, gone)
    decreases |s.state.lists[s.Cur()].items|
  {
    hide Sched.Shape, Roster.Consistent, Sched.Unblock, Sched.Expire, Rest;
    s.ExpireRound(switch);
    var items := s.state.lists[s.Cur()].items;
    if items == [] || s.tick < s.tcbs[items[0]].wake {
      SameThinned(s, s.Expire(switch).s, e);
      gone := {};
    } else {
      var x := items[0];
      UnblockThins(s, x, e);
      var u := s.Unblock(x);
      var more := switch || s.tcbs[x].priority >= s.tcbs[s.current].priority;
      var rest := ExpireThins(u, more, e);
      ThinnedTwice(s, u, u.Expire(more).s, e, {x}, rest);
      gone := {x} + rest;
    }
  }

  lemma TickThins(s: Sched, e: EventList) returns (gone: set<Task>)
    requires s.Shape() && e in s.event.lists
    ensures Thinned(s, TickStep(s).s, e, gone)
  {
    hide Sched.Shape, Roster.Consistent, Sched.Expire, Rest;
    var a := AdvanceCount(s);
    SameThinned(s, s, e);
    gone := {};
    if s.suspended == 0 && a.tick >= a.nextUnblock {
      gone := ExpireThins(a, false, e);
    }
  }

  lemma {:induction false} DrainThins(s: Sched, e: EventList) returns (gone: set<Task>)
    requires s.Shape() && e in s.event.lists
    ensures Thinned(s, DrainPending(s), e, gone)
    decreases |s.event.lists[PendingReady].items|
  {
    hide Sched.Shape, Roster.Consistent, Sched.Unblock, Rest, DrainStep;
    s.ListsKnown();
    SameThinned(s, s, e);
    gone := {};
    if s.event.lists[PendingReady].items != [] {
      DrainStepShrinks(s);
      DrainStepThins(s, e);
      var x := s.event.lists[PendingReady].items[0];
      var rest := DrainThins(DrainStep(s), e);
      ThinnedTwice(s, DrainStep(s), DrainPending(s), e, {x}, rest);
      gone := {x} + rest;
    }
  }

  lemma DrainStepThins(s: Sched, e: EventList)
    requires s.Shape() && e in s.event.lists && s.event.lists[PendingReady].items != []
    ensures Thinned(s, DrainStep(s), e, {s.event.lists[PendingReady].items[0]})
  {
    PendingShrinks(s);
    UnblockThins(s, s.event.lists[PendingReady].items[0], e);
    hide Sched.Shape, Roster.Consistent, Sched.Unblock, Rest;
  }

  lemma {:induction false} UnwindThins(s: Sched, n: nat, e: EventList) returns (gone: set<Task>)
    requires s.Shape() && e in s.event.lists
    ensures Thinned(s, UnwindTicks(s, n), e, gone)
    decreases n
  {
    hide Sched.Shape, Roster.Consistent, TickStep, Rest;
    SameThinned(s, s, e);
    gone := {};
    if n > 0 {
      var a := TickThins(s, e);
      var t := TickStep(s);
      var u := if t.switchRequired then t.s.(yieldPending := true) else t.s;
      t.s.ListsKnown();
      t.s.NewListsShape(u);
      var b := UnwindThins(u, n - 1, e);
      ThinnedTwice(s, u, UnwindTicks(s, n), e, a, b);
      gone := a + b;
    }
  }

  lemma DeliverThenUnwind(s: Sched, n: nat, e: EventList) returns (gone: set<Task>)
    requires s.Shape() && e in s.event.lists
    ensures Thinned(s, UnwindTicks(DeliverPending(s), n), e, gone)
  {
    hide Sched.Shape, UnwindTicks, DrainPending, Rest;
    var a := DrainThins(s, e);
    var d := DeliverPending(s);
    var b := UnwindThins(d, n, e);
    ThinnedTwice(s, d, UnwindTicks(d, n), e, a, b);
    gone := a + b;
  }

  lemma ResumeThins(s: Sched, e: EventList) returns (gone: set<Task>)
    requires s.Inv() && s.suspended > 0 && e in s.event.lists
    ensures s.Shape() && Thinned(s, ResumeAll(s), e, gone)
  {
    InvShape(s);
    hide Sched.Shape, Roster.Consistent, UnwindTicks, DrainPending, Sched.ReadyListsMatch, Sched.DelaysSorted,
         Sched.EventWaitersBlocked, Sched.Timely, Sched.Settled, Rest;
    SameThinned(s, s, e);
    gone := {};
    if s.suspended == 1 && s.numberOfTasks > 0 {
      s.ListsKnown();
      s.NewListsShape(s.(suspended := 0));
      gone := DeliverThenUnwind(s.(suspended := 0), s.pended, e);
    }
  }

  // ----- every step -----

  lemma RemoveThins(s: Sched, f: EventList, e: EventList) returns (gone: set<Task>)
    requires s.Shape() && f in s.event.lists && s.event.lists[f].items != [] && e in s.event.lists && e.Waiting?
    ensures Thinned(s, RemoveFromEventList(s, f), e, gone)
  {
    hide Roster.Consistent, Sched.Unblock, Rest;
    EventHead(s, f);
    var x := s.event.lists[f].items[0];
    if s.suspended == 0 {
      UnblockThins(s, x, e);
    } else {
      HeldThins(s.event, x, e);
    }
    gone := {x};
  }

  lemma WakingThins(s: Sched, a: Action, e: EventList) returns (gone: set<Task>)
    requires Enabled(s, a) && IsWaking(a) && !a.Remove? && e in s.event.lists && e.Waiting?
    ensures Thinned(s, Step(s, a), e, gone)
  {
    hide Sched.Core, Sched.Shape, Roster.Consistent, Sched.Timely, Sched.Settled, MoveTask, DropEvent, Roster.PutEnd,
         Rest, Thinned;
    InvShape(s);
    EventShape(s);
    s.ListsKnown();
    SameThinned(s, s, e);
    DropThins(s, a.x, e);
    gone := if a.RemoveUnordered? || a.SuspendTask? || (a.Abort? && IsWaiting(s, a.x)) then {a.x} else {};
    SameEventsThin(s, DropEvent(s, a.x), Step(s, a), e, a.x);
    if a.ResumeTaskFromISR? && IsSuspended(s, a.x) && s.suspended != 0 {
      HeldElsewhere(s, a.x, e);
    }
  }

  lemma SameEventsThin(s: Sched, t: Sched, r: Sched, e: EventList, x: Task)
    requires e in s.event.lists && Thinned(s, t, e, {x})
    ensures r.event == t.event ==> Thinned(s, r, e, {x})
    ensures r.event == s.event ==> Thinned(s, r, e, {})
  {
    RestOfAll(s.event.lists[e].items);
  }

  lemma HeldElsewhere(s: Sched, x: Task, e: EventList)
    requires s.Shape() && x !in s.event.place && e in s.event.lists && e.Waiting?
    ensures Thinned(s, s.(event := s.event.PutEnd(PendingReady, x)), e, {})
  {
    RestOfAll(s.event.lists[e].items);
    hide Roster.Consistent;
  }

  lemma BlockingThins(s: Sched, a: Action, e: EventList)
    requires Enabled(s, a) && IsBlocking(a) && e in s.event.lists && (a.Block? || a.e != e)
    ensures Thinned(s, Step(s, a), e, {})
  {
    hide Sched.Core, Sched.Shape, Roster.Consistent, Sched.Timely, Sched.Settled, BlockCurrent, Rest, PlaceOnEventList,
         PlaceOnUnordered;
    InvShape(s);
    CurrentUnplaced(s);
    RestOfAll(s.event.lists[e].items);
    match a {
      case Block(d, indefinite) => BlockKeepsEvents(s, d, indefinite);
      case Place(f, d) => PlaceElsewhere(s, f, d, e);
      case PlaceUnordered(f, v, d) => PlaceUnorderedElsewhere(s, f, v, d, e);
    }
  }

  lemma BlockKeepsEvents(s: Sched, d: Tick, indefinite: bool)
    requires s.Shape()
    ensures BlockCurrent(s, d, indefinite).event == s.event
    ensures var r := BlockCurrent(s, d, indefinite);
      && s.current in s.tcbs && r.tcbs.Keys == s.tcbs.Keys && s.current in r.tcbs
      && r.tcbs[s.current].eventValue == s.tcbs[s.current].eventValue
      && forall x :: x in s.tcbs && x != s.current ==> r.tcbs[x] == s.tcbs[x]
  {
    hide Roster.Consistent, Roster.Take, Roster.PutSorted, Roster.Move;
  }

  lemma PlaceElsewhere(s: Sched, f: EventList, d: Tick, e: EventList)
    requires s.Shape() && f in s.event.lists && s.current !in s.event.place && e in s.event.lists && e != f
    ensures e in PlaceOnEventList(s, f, d).event.lists
    ensures PlaceOnEventList(s, f, d).event.lists[e] == s.event.lists[e]
  {
    hide Roster.Consistent, Roster.PutSorted, BlockCurrent;
    OnEventListHasTcb(s, f);
    var t := s.(event := s.event.PutSorted(f, s.current, s.tcbs[s.current].eventValue,
                                           EventValues(s.tcbs, s.event.lists[f].items)));
    BlockKeepsEvents(t, d, true);
  }

  lemma PlaceUnorderedElsewhere(s: Sched, f: EventList, v: Tick, d: Tick, e: EventList)
    requires s.Shape() && f in s.event.lists && s.current !in s.event.place && e in s.event.lists && e != f
    ensures e in PlaceOnUnordered(s, f, v, d).event.lists
    ensures PlaceOnUnordered(s, f, v, d).event.lists[e] == s.event.lists[e]
  {
    hide Roster.Consistent, Roster.PutEnd, BlockCurrent;
    var t := s.(event := s.event.PutEnd(f, s.current),
                tcbs := s.tcbs[s.current := s.tcbs[s.current].(eventValue := OrInUse(v))]);
    BlockKeepsEvents(t, d, true);
  }

  lemma RankingThins(s: Sched, a: Action, e: EventList)
    requires Enabled(s, a) && (IsRanking(a) || IsBookkeeping(a) || a.CreateTask?) && e in s.event.lists
    ensures Thinned(s, Step(s, a), e, {})
  {
    hide Sched.Core, Sched.Shape, Roster.Consistent, Sched.Timely, Sched.Settled, MoveTask, Roster.PutEnd, Rest;
    InvShape(s);
    RestOfAll(s.event.lists[e].items);
    if a == Switch {
      InvIsCore(s);
      SwitchFrame(s);
      hide SwitchContext;
    } else {
      RankingKeepsEvents(s, a);
      hide Step;
    }
  }

  lemma RankingKeepsEvents(s: Sched, a: Action)
    requires Enabled(s, a) && (IsRanking(a) || IsBookkeeping(a) || a.CreateTask?) && a != Switch
    ensures Step(s, a).event == s.event
  {
    hide Sched.Core, Sched.Shape, Roster.Consistent, Sched.Timely, Sched.Settled, Roster.Move, Roster.PutEnd;
    InvShape(s);
  }

  lemma InvIsCore(s: Sched)
    requires s.Inv()
    ensures s.Core()
  {
  }

  lemma LifeThins(s: Sched, a: Action, e: EventList) returns (gone: set<Task>)
    requires Enabled(s, a) && (a.DeleteTask? || a.CleanUp?) && e in s.event.lists
    ensures Thinned(s, Step(s, a), e, gone)
  {
    hide Sched.Core, Sched.Shape, Sched.Timely, Sched.Settled, Delete, CleanUpOne, Rest;
    InvShape(s);
    InvIsCore(s);
    if a.DeleteTask? {
      ForgetNumbers(s);
      DeleteThins(s, a.x, e);
      gone := {a.x};
    } else {
      CleanUpThins(s, e);
      gone := {s.state.lists[WaitingTermination].items[0]};
    }
  }

  lemma DeleteThins(s: Sched, x: Task, e: EventList)
    requires s.Shape() && x in s.tcbs && s.numberOfTasks > 0 && e in s.event.lists
    ensures Thinned(s, Delete(s, x), e, {x})
  {
    DropThins(s, x, e);
    s.ListsKnown();
    hide Sched.Shape, MoveTask, DropEvent, Forget, Rest;
    if x != s.current {
      ForgetThins(s, x, e);
    }
  }

  lemma ForgetThins(s: Sched, x: Task, e: EventList)
    requires s.Shape() && x in s.tcbs && x != s.current && s.numberOfTasks > 0 && e in s.event.lists
    ensures Thinned(s, Forget(s, x), e, {x})
  {
    TakenThins(s.event, x, e);
    hide Roster.Consistent, Roster.Take, Roster.TakeIfPlaced, Rest;
  }

  lemma CleanUpThins(s: Sched, e: EventList)
    requires s.Core() && s.Shape() && s.current == IDLE && s.deletedTasks > 0 && e in s.event.lists
    ensures s.state.lists[WaitingTermination].items != []
    ensures Thinned(s, CleanUpOne(s), e, {s.state.lists[WaitingTermination].items[0]})
  {
    DeletedHead(s);
    var x := s.state.lists[WaitingTermination].items[0];
    NotIdle(s, x);
    ForgetThins(s, x, e);
    hide Sched.Core, Sched.Shape, Forget, Rest;
  }

  lemma NotIdle(s: Sched, x: Task)
    requires s.Core() && x in s.tcbs && s.state.place[x] == WaitingTermination
    ensures x != IDLE
  {
  }

  /** Every step that does not put the running task on list e leaves it as it was, less those who leave it. */
  lemma StepThins(s: Sched, a: Action, e: EventList) returns (gone: set<Task>)
    requires Enabled(s, a) && e.Waiting? && e in s.event.lists && ((a.Place? || a.PlaceUnordered?) ==> a.e != e)
    ensures Thinned(s, Step(s, a), e, gone)
  {
    hide Sched.Core, Sched.Shape, Sched.Timely, Sched.Settled, Thinned, TickStep, ResumeAll, BlockCurrent,
         PlaceOnEventList, PlaceOnUnordered, SwitchContext, RemoveFromEventList;
    InvShape(s);
    gone := {};
    if a.Tick? {
      gone := TickThins(s, e);
    } else if a.ResumeScheduler? {
      gone := ResumeThins(s, e);
    } else if IsBlocking(a) {
      BlockingThins(s, a, e);
    } else if a.Remove? {
      gone := RemoveThins(s, a.e, e);
    } else if IsWaking(a) {
      gone := WakingThins(s, a, e);
    } else if a.DeleteTask? || a.CleanUp? {
      gone := LifeThins(s, a, e);
    } else {
      RankingThins(s, a, e);
    }
  }

  // ----- the order -----

  /** The list is in the order of its event items. */
  ghost predicate InItemOrder(tcbs: map<Task, Tcb>, items: seq<Task>) {
    && (forall x :: x in items ==> x in tcbs)
    && forall i, j :: 0 <= i < j < |items| ==> tcbs[items[i]].eventValue <= tcbs[items[j]].eventValue
  }

  lemma {:induction false} RestEmbeds(items: seq<Task>, gone: set<Task>, i: nat, j: nat) returns (a: nat, b: nat)
    requires i < j < |Rest(items, gone)|
    ensures a < b < |items| && items[a] == Rest(items, gone)[i] && items[b] == Rest(items, gone)[j]
  {
    var r := Rest(items[1..], gone);
    if items[0] in gone {
      a, b := RestEmbeds(items[1..], gone, i, j);
      a, b := a + 1, b + 1;
    } else if i > 0 {
      a, b := RestEmbeds(items[1..], gone, i - 1, j - 1);
      a, b := a + 1, b + 1;
    } else {
      RestHolds(items[1..], gone, r[j - 1]);
      a := 0;
      b :| 0 < b < |items| && items[b] == r[j - 1];
    }
  }

  lemma RestInOrder(tcbs: map<Task, Tcb>, after: map<Task, Tcb>, items: seq<Task>, gone: set<Task>)
    requires InItemOrder(tcbs, items)
    requires forall x :: x in Rest(items, gone) ==> x in after && x in tcbs && after[x].eventValue == tcbs[x].eventValue
    ensures InItemOrder(after, Rest(items, gone))
  {
    var r := Rest(items, gone);
    forall i, j | 0 <= i < j < |r| ensures after[r[i]].eventValue <= after[r[j]].eventValue {
      var a, b := RestEmbeds(items, gone, i, j);
    }
  }

  /** List e of state s is in order. */
  ghost predicate Ordered(s: Sched, e: EventList) {
    e in s.event.lists && InItemOrder(s.tcbs, s.event.lists[e].items)
  }

  /** Whoever waits on list e before and after has the same event item. */
  ghost predicate ItemsStay(s: Sched, r: Sched, e: EventList) {
    && e in s.event.lists && e in r.event.lists
    && forall x :: x in s.event.lists[e].items && x in r.event.lists[e].items ==>
         x in s.tcbs && x in r.tcbs && r.tcbs[x].eventValue == s.tcbs[x].eventValue
  }

  lemma ThinnedInOrder(s: Sched, r: Sched, e: EventList, gone: set<Task>)
    requires Thinned(s, r, e, gone) && Ordered(s, e) && ItemsStay(s, r, e)
    ensures Ordered(r, e)
  {
    var items := s.event.lists[e].items;
    forall x | x in Rest(items, gone) ensures x in s.event.lists[e].items && x in r.event.lists[e].items {
      RestHolds(items, gone, x);
    }
    RestInOrder(s.tcbs, r.tcbs, items, gone);
  }

  /** The running task joins behind all whose item is no greater, and in front of all others. */
  lemma PlacedInOrder(s: Sched, e: EventList, d: Tick) returns (p: nat)
    requires s.Shape() && e in s.event.lists && s.current !in s.event.place && Ordered(s, e)
    ensures var r, items := PlaceOnEventList(s, e, d), s.event.lists[e].items;
      && Ordered(r, e) && p <= |items| && r.event.lists[e].items == items[..p] + [s.current] + items[p..]
      && (forall i :: 0 <= i < p ==> s.tcbs[items[i]].eventValue <= s.tcbs[s.current].eventValue)
      && (forall i :: p <= i < |items| ==> s.tcbs[items[i]].eventValue > s.tcbs[s.current].eventValue)
  {
    OnEventListHasTcb(s, e);
    CurrentIsTask(s);
    hide PlaceOnEventList, Sched.Shape, StepOver, InItemOrder;
    var items, v := s.event.lists[e].items, s.tcbs[s.current].eventValue;
    p := StepOver(EventValues(s.tcbs, items), v);
    StepsOverEquals(s.tcbs, items, v);
    PlacedItems(s, e, d);
    PlacedBlocks(s, e, d);
    InsertedInItemOrder(s.tcbs, PlaceOnEventList(s, e, d).tcbs, items, s.current, p);
  }

  lemma CurrentIsTask(s: Sched)
    requires s.Shape()
    ensures s.current in s.tcbs
  {
  }

  lemma StepsOverEquals(tcbs: map<Task, Tcb>, items: seq<Task>, v: Tick)
    requires InItemOrder(tcbs, items)
    ensures var p := StepOver(EventValues(tcbs, items), v);
      && (forall i :: 0 <= i < p ==> tcbs[items[i]].eventValue <= v)
      && (forall i :: p <= i < |items| ==> tcbs[items[i]].eventValue > v)
  {
    var values := EventValues(tcbs, items);
    assert Sorted(values);
    InsertSorted(values, v);
    forall i | 0 <= i < |items| ensures values[i] == tcbs[items[i]].eventValue {
    }
    hide StepOver, Sorted;
  }

  lemma PlacedItems(s: Sched, e: EventList, d: Tick)
    requires s.Shape() && e in s.event.lists && s.current !in s.event.place
    requires forall x :: x in s.event.lists[e].items ==> x in s.tcbs
    ensures var r, items := PlaceOnEventList(s, e, d), s.event.lists[e].items;
      && e in r.event.lists
      && var p := StepOver(EventValues(s.tcbs, items), s.tcbs[s.current].eventValue);
         r.event.lists[e].items == items[..p] + [s.current] + items[p..]
  {
    hide Roster.Consistent, BlockCurrent, StepOver;
    var t := s.(event := s.event.PutSorted(e, s.current, s.tcbs[s.current].eventValue,
                                           EventValues(s.tcbs, s.event.lists[e].items)));
    BlockKeepsEvents(t, d, true);
  }

  lemma PlacedBlocks(s: Sched, e: EventList, d: Tick)
    requires s.Shape() && e in s.event.lists && s.current !in s.event.place
    ensures var r := PlaceOnEventList(s, e, d);
      forall x :: x in s.tcbs ==> x in r.tcbs && r.tcbs[x].eventValue == s.tcbs[x].eventValue
  {
    hide Roster.Consistent, BlockCurrent, Roster.PutSorted;
    OnEventListHasTcb(s, e);
    var t := s.(event := s.event.PutSorted(e, s.current, s.tcbs[s.current].eventValue,
                                           EventValues(s.tcbs, s.event.lists[e].items)));
    BlockKeepsEvents(t, d, true);
  }

  lemma InsertedInItemOrder(tcbs: map<Task, Tcb>, after: map<Task, Tcb>, items: seq<Task>, x: Task, p: nat)
    requires InItemOrder(tcbs, items) && x in tcbs && p <= |items|
    requires forall y :: y in tcbs ==> y in after && after[y].eventValue == tcbs[y].eventValue
    requires forall i :: 0 <= i < p ==> tcbs[items[i]].eventValue <= tcbs[x].eventValue
    requires forall i :: p <= i < |items| ==> tcbs[items[i]].eventValue > tcbs[x].eventValue
    ensures InItemOrder(after, items[..p] + [x] + items[p..])
  {
    var r := items[..p] + [x] + items[p..];
    forall y | y in r ensures y in after {
      InsertMembers(items, p, x, y);
    }
    forall i, j | 0 <= i < j < |r| ensures after[r[i]].eventValue <= after[r[j]].eventValue {
      InsertedAt(items, p, x, i);
      InsertedAt(items, p, x, j);
    }
  }

  /** Every step that leaves the event items of those on the list alone, and does not put anybody on it as an event
      group does, keeps it in order. */
  lemma StepKeepsOrder(s: Sched, a: Action, e: EventList)
    requires Enabled(s, a) && e.Waiting? && Ordered(s, e) && !(a.PlaceUnordered? && a.e == e)
    requires ItemsStay(s, Step(s, a), e)
    ensures Ordered(Step(s, a), e)
  {
    hide Sched.Core, Sched.Timely, Sched.Settled, Thinned, Ordered, ItemsStay, PlaceOnEventList, Sched.Shape;
    KnownList(s, e);
    if a.Place? && a.e == e {
      InvShape(s);
      CurrentUnplaced(s);
      var p := PlacedInOrder(s, e, a.ticks);
    } else {
      hide Step, Enabled;
      var gone := StepThins(s, a, e);
      ThinnedInOrder(s, Step(s, a), e, gone);
    }
  }

  lemma KnownList(s: Sched, e: EventList)
    requires Ordered(s, e)
    ensures e in s.event.lists
  {
  }

  ghost predicate LeavesItems(states: seq<Sched>, actions: seq<Action>, e: EventList, k: nat)
    requires k <= |actions| < |states|
  {
    forall j :: 0 <= j < k ==>
      !(actions[j].PlaceUnordered? && actions[j].e == e) && ItemsStay(states[j], states[j + 1], e)
  }

  lemma LeavesBefore(states: seq<Sched>, actions: seq<Action>, e: EventList, k: nat)
    requires 0 < k <= |actions| < |states| && LeavesItems(states, actions, e, k)
    ensures LeavesItems(states, actions, e, k - 1)
    ensures !(actions[k - 1].PlaceUnordered? && actions[k - 1].e == e) && ItemsStay(states[k - 1], states[k], e)
  {
    hide ItemsStay;
  }

  /** In every run in which nobody's event item is rewritten while it is on list e, the list stays in the order of its
      items. */
  lemma {:induction false} OrderedThroughout(states: seq<Sched>, actions: seq<Action>, e: EventList, k: nat)
    requires IsRun(states, actions) && states[0].Inv() && e.Waiting? && Ordered(states[0], e) && k <= |actions|
    requires |states| == |actions| + 1 && LeavesItems(states, actions, e, k)
    ensures Ordered(states[k], e)
    decreases k
  {
    hide Step, Sched.Inv, Legal, Ordered, ItemsStay, LeavesItems;
    if k > 0 {
      LeavesBefore(states, actions, e, k);
      OrderedThroughout(states, actions, e, k - 1);
      RunStep(states, actions, k - 1);
      StepKeepsOrder(states[k - 1], actions[k - 1], e);
    }
  }

  /** While the items stand for priorities, the first on an ordered list, whom xTaskRemoveFromEventList wakes, is of the
      highest priority waiting. */
  lemma HighestFirst(s: Sched, e: EventList, x: Task)
    requires Ordered(s, e) && x in s.event.lists[e].items
    requires forall y :: y in s.event.lists[e].items ==>
               y in s.tcbs && s.tcbs[y].eventValue == MAX_PRIORITIES - s.tcbs[y].priority
    ensures s.event.lists[e].items[0] in s.tcbs
    ensures s.tcbs[s.event.lists[e].items[0]].priority >= s.tcbs[x].priority
  {
    var items := s.event.lists[e].items;
    var i :| 0 <= i < |items| && items[i] == x;
    assert items[0] in items;
    assert i > 0 ==> s.tcbs[items[0]].eventValue <= s.tcbs[items[i]].eventValue;
  }
}
