/** Round robin among tasks of one priority while tasks come and go: no step but a context switch changes the
    order in which the ready tasks of a priority will run, and a task that becomes ready runs after them. */
module ReadyTurns {
  import opened Ticks
  import opened ListValues
  import opened Rosters
  import opened Scheduler
  import opened SchedulerTime
  import opened SchedulerSuspension
  import opened SchedulerTasks
  import opened SchedulerSafety
  import opened SchedulerRuns

  /** At most one item has left, and then news have joined. */
  ghost predicate TurnKept(v: ListView<Task>, w: ListView<Task>, gone: seq<Task>, news: seq<Task>) {
    || (gone == [] && Joined(v, w, news))
    || (|gone| == 1 && gone[0] in v.items && exists u :: Left(v, u, gone[0]) && Joined(u, w, news))
  }

  lemma NothingHappens(r: Roster<StateList>, l: StateList)
    requires r.Consistent() && l in r.lists
    ensures TurnKept(r.lists[l], r.lists[l], [], [])
  {
    assert r.lists[l].Valid();
    NobodyJoined(r.lists[l]);
  }

  /** One item moves from list to list. */
  lemma MoveTurns(r: Roster<StateList>, x: Task, l: StateList, m: StateList)
    requires r.Consistent() && x in r.place && l in r.lists && m in r.lists
    ensures m in r.Move(x, l).lists
    ensures TurnKept(r.lists[m], r.Move(x, l).lists[m], if r.place[x] == m then [x] else [], if l == m then [x] else [])
  {
    var t := r.Take(x);
    r.TakeTurn(x);
    t.PutEndTurn(l, x);
    NothingHappens(r, m);
    NothingHappens(t, m);
    assert t.PutEnd(l, x) == r.Move(x, l);
    hide Roster.Consistent, Roster.Take, Roster.PutEnd, Roster.Move, Joined, Left;
  }

  lemma PutTurns(r: Roster<StateList>, l: StateList, x: Task, m: StateList)
    requires r.Consistent() && x !in r.place && l in r.lists && m in r.lists
    ensures m in r.PutEnd(l, x).lists
    ensures TurnKept(r.lists[m], r.PutEnd(l, x).lists[m], [], if l == m then [x] else [])
  {
    r.PutEndTurn(l, x);
    NothingHappens(r, m);
    hide Roster.Consistent, Roster.PutEnd, Joined;
  }

  lemma TakeTurns(r: Roster<StateList>, x: Task, m: StateList)
    requires r.Consistent() && x in r.place && m in r.lists
    ensures m in r.Take(x).lists
    ensures TurnKept(r.lists[m], r.Take(x).lists[m], if r.place[x] == m then [x] else [], [])
  {
    r.TakeTurn(x);
    NothingHappens(r, m);
    NothingHappens(r.Take(x), m);
    hide Roster.Consistent, Roster.Take, Joined, Left;
  }

  // ----- the operations -----

  /** The turn of priority p in two states. */
  ghost predicate Turns(s: Sched, r: Sched, p: nat, gone: seq<Task>, news: seq<Task>) {
    && Ready(p) in s.state.lists && Ready(p) in r.state.lists
    && TurnKept(s.state.lists[Ready(p)], r.state.lists[Ready(p)], gone, news)
  }

  function If(c: bool, x: Task): seq<Task> { if c then [x] else [] }

  lemma SameTurns(s: Sched, r: Sched, p: nat)
    requires s.Shape() && p < MAX_PRIORITIES && r.state == s.state
    ensures Turns(s, r, p, [], [])
  {
    NothingHappens(s.state, Ready(p));
  }

  lemma MoveTaskTurns(s: Sched, x: Task, l: StateList, tcb: Tcb, p: nat)
    requires s.Shape() && x in s.tcbs && l in s.state.lists && p < MAX_PRIORITIES
    requires tcb.priority < MAX_PRIORITIES && tcb.basePriority < MAX_PRIORITIES
    ensures x in s.state.place
    ensures Turns(s, MoveTask(s, x, l, tcb), p, If(s.state.place[x] == Ready(p), x), If(l == Ready(p), x))
  {
    s.TaskKnown(x);
    MoveTurns(s.state, x, l, Ready(p));
    hide Roster.Consistent, Roster.Move, TurnKept;
  }

  lemma UnblockTurns(s: Sched, x: Task, p: nat)
    requires s.Shape() && x in s.tcbs && p < MAX_PRIORITIES
    ensures x in s.state.place
    ensures Turns(s, s.Unblock(x), p, If(s.state.place[x] == Ready(p), x), If(s.tcbs[x].priority == p, x))
  {
    s.TaskKnown(x);
    MoveTurns(s.state, x, Ready(s.tcbs[x].priority), Ready(p));
    hide Roster.Consistent, Roster.Move, Roster.TakeIfPlaced, TurnKept;
  }

  lemma RequeueTurns(s: Sched, x: Task, tcb: Tcb, p: nat)
    requires s.Shape() && x in s.tcbs && p < MAX_PRIORITIES
    requires tcb.priority < MAX_PRIORITIES && tcb.basePriority < MAX_PRIORITIES
    ensures x in s.state.place
    ensures var moves := s.state.place[x] == Ready(s.tcbs[x].priority);
      Turns(s, Requeue(s, x, tcb), p, If(moves && s.tcbs[x].priority == p, x), If(moves && tcb.priority == p, x))
  {
    hide Sched.Shape, MoveTask, Turns;
    s.TaskKnown(x);
    if s.state.place[x] == Ready(s.tcbs[x].priority) {
      ReadyKnown(s, tcb.priority);
      MoveTaskTurns(s, x, Ready(tcb.priority), tcb, p);
    } else {
      SameTurns(s, Requeue(s, x, tcb), p);
    }
  }

  lemma ReadyKnown(s: Sched, p: nat)
    requires s.Shape() && p < MAX_PRIORITIES
    ensures Ready(p) in s.state.lists
  {
  }

  lemma BlockTurns(s: Sched, d: Tick, indefinite: bool, p: nat)
    requires s.Shape() && p < MAX_PRIORITIES
    ensures s.current in s.state.place
    ensures Turns(s, BlockCurrent(s, d, indefinite), p, If(s.state.place[s.current] == Ready(p), s.current), [])
  {
    s.ListsKnown();
    ReadyKnown(s, p);
    hide Sched.Shape, BlockForever, BlockUntil, Turns;
    if d == MAX_DELAY && indefinite {
      ForeverTurns(s, p);
    } else {
      UntilTurns(s, Plus(s.tick, d), p);
    }
  }

  lemma ForeverTurns(s: Sched, p: nat)
    requires s.Shape() && p < MAX_PRIORITIES && s.current in s.state.place
    ensures Turns(s, BlockForever(s), p, If(s.state.place[s.current] == Ready(p), s.current), [])
  {
    s.ListsKnown();
    MoveTurns(s.state, s.current, SuspendedTasks, Ready(p));
    hide Roster.Consistent, Roster.Move, TurnKept;
  }

  lemma UntilTurns(s: Sched, wake: Tick, p: nat)
    requires s.Shape() && p < MAX_PRIORITIES && s.current in s.state.place
    ensures Turns(s, BlockUntil(s, wake), p, If(s.state.place[s.current] == Ready(p), s.current), [])
  {
    s.ListsKnown();
    ReadyKnown(s, p);
    TakeTurns(s.state, s.current, Ready(p));
    OnListHasTcb(s, s.state.Take(s.current), if wake < s.tick then s.Ovf() else s.Cur());
    hide Sched.Shape, Roster.Consistent, Roster.Take, Roster.PutSorted, TurnKept;
  }

  // ----- several tasks at once -----

  /** Those of priority p, in the order given. */
  function OfPriority(tcbs: map<Task, Tcb>, items: seq<Task>, p: nat): seq<Task>
    requires forall x :: x in items ==> x in tcbs
  {
    if items == [] then []
    else
      assert items[0] in items;
      If(tcbs[items[0]].priority == p, items[0]) + OfPriority(tcbs, items[1..], p)
  }

  /** The leading tasks of a delayed list whose wake time is reached. */
  function Elapsing(tcbs: map<Task, Tcb>, items: seq<Task>, tick: Tick): (r: seq<Task>)
    requires forall x :: x in items ==> x in tcbs
    ensures forall x :: x in r ==> x in items
  {
    if items == [] then []
    else
      assert items[0] in items;
      if tick < tcbs[items[0]].wake then [] else [items[0]] + Elapsing(tcbs, items[1..], tick)
  }

  lemma ListedKnown(s: Sched, l: StateList)
    requires s.Shape() && l in s.state.lists
    ensures forall x :: x in s.state.lists[l].items ==> x in s.tcbs && x in s.state.place && s.state.place[x] == l
  {
    forall x | x in s.state.lists[l].items ensures x in s.tcbs && x in s.state.place && s.state.place[x] == l {
      assert x in s.state.place.Keys;
    }
  }

  lemma HeadTaken<T>(items: seq<T>)
    requires items != []
    ensures Without(items, items[0]) == items[1..]
  {
    assert IndexOf(items, items[0]) == 0;
  }

  lemma OfPriorityHead(tcbs: map<Task, Tcb>, x: Task, rest: seq<Task>, p: nat)
    requires x in tcbs && forall y :: y in rest ==> y in tcbs
    ensures OfPriority(tcbs, [x] + rest, p) == If(tcbs[x].priority == p, x) + OfPriority(tcbs, rest, p)
  {
    assert ([x] + rest)[1..] == rest;
  }

  /** The loop of xTaskIncrementTick makes the elapsed tasks join their ready lists in the order in which they
      were due. */
  lemma {:induction false} ExpireTurns(s: Sched, switch: bool, p: nat)
    requires s.Shape() && p < MAX_PRIORITIES
    ensures s.Cur() in s.state.lists && forall x :: x in s.state.lists[s.Cur()].items ==> x in s.tcbs
    ensures Turns(s, s.Expire(switch).s, p, [],
                  OfPriority(s.tcbs, Elapsing(s.tcbs, s.state.lists[s.Cur()].items, s.tick), p))
    decreases |s.state.lists[s.Cur()].items|
  {
    hide Sched.Shape, Roster.Consistent, Sched.Unblock, Joined, Sched.Expire, OfPriority, Without;
    s.ExpireRound(switch);
    ListedKnown(s, s.Cur());
    ReadyKnown(s, p);
    var items := s.state.lists[s.Cur()].items;
    if items == [] || s.tick < s.tcbs[items[0]].wake {
      NothingHappens2(s, p);
      assert OfPriority(s.tcbs, [], p) == [] by { NoneOfPriority(s.tcbs, p); }
    } else {
      var x := items[0];
      assert x in items;
      s.UnblockLists(x, s.Cur());
      HeadTaken(items);
      UnblockTurns(s, x, p);
      var u, pr := s.Unblock(x), s.tcbs[x].priority;
      ExpireTurns(u, switch || pr >= s.tcbs[s.current].priority, p);
      var rest := Elapsing(s.tcbs, items[1..], s.tick);
      OfPriorityHead(s.tcbs, x, rest, p);
      var r := u.Expire(switch || pr >= s.tcbs[s.current].priority).s;
      JoinedTwice(s.state.lists[Ready(p)], u.state.lists[Ready(p)], r.state.lists[Ready(p)],
                  If(pr == p, x), OfPriority(s.tcbs, rest, p));
    }
  }

  lemma NoneOfPriority(tcbs: map<Task, Tcb>, p: nat)
    ensures OfPriority(tcbs, [], p) == []
  {
  }

  lemma NothingHappens2(s: Sched, p: nat)
    requires s.Shape() && p < MAX_PRIORITIES
    ensures Ready(p) in s.state.lists && Joined(s.state.lists[Ready(p)], s.state.lists[Ready(p)], [])
  {
    NothingHappens(s.state, Ready(p));
  }

  lemma TickTurns(s: Sched, p: nat) returns (news: seq<Task>)
    requires s.Shape() && p < MAX_PRIORITIES
    ensures Turns(s, TickStep(s).s, p, [], news)
  {
    hide Sched.Shape, Roster.Consistent, Joined, Sched.Expire, OfPriority, Elapsing;
    var a := AdvanceCount(s);
    NothingHappens2(s, p);
    news := [];
    if s.suspended == 0 && a.tick >= a.nextUnblock {
      ExpireTurns(a, false, p);
      news := OfPriority(a.tcbs, Elapsing(a.tcbs, a.state.lists[a.Cur()].items, a.tick), p);
    }
  }

  /** Tasks held back during a suspension join in the order in which they were held back. */
  lemma {:induction false} DrainTurns(s: Sched, p: nat)
    requires s.Core() && p < MAX_PRIORITIES
    ensures PendingReady in s.event.lists && forall x :: x in s.event.lists[PendingReady].items ==> x in s.tcbs
    ensures Turns(s, DrainPending(s), p, [], OfPriority(s.tcbs, s.event.lists[PendingReady].items, p))
    decreases |s.event.lists[PendingReady].items|
  {
    hide Sched.Shape, Roster.Consistent, Sched.Unblock, Joined, OfPriority, DrainStep, Sched.ReadyListsMatch,
         Sched.DelaysSorted, Sched.EventWaitersBlocked, Without;
    PendingKnown(s);
    NothingHappens2(s, p);
    NoneOfPriority(s.tcbs, p);
    var items := s.event.lists[PendingReady].items;
    if items != [] {
      var x := items[0];
      DrainStepShrinks(s);
      DrainStepKeepsCore(s);
      PendingIsBlocked(s);
      DrainStepTurns(s, p);
      DrainTurns(DrainStep(s), p);
      assert items == [x] + items[1..];
      OfPriorityHead(s.tcbs, x, items[1..], p);
      JoinedTwice(s.state.lists[Ready(p)], DrainStep(s).state.lists[Ready(p)], DrainPending(s).state.lists[Ready(p)],
                  If(s.tcbs[x].priority == p, x), OfPriority(s.tcbs, items[1..], p));
    }
  }

  lemma PendingKnown(s: Sched)
    requires s.Shape()
    ensures PendingReady in s.event.lists && forall x :: x in s.event.lists[PendingReady].items ==> x in s.tcbs
  {
    forall x | x in s.event.lists[PendingReady].items ensures x in s.tcbs {
      assert x in s.event.place.Keys;
    }
  }

  lemma DrainStepTurns(s: Sched, p: nat)
    requires s.Core() && s.Shape() && p < MAX_PRIORITIES && s.event.lists[PendingReady].items != []
    ensures var x, r := s.event.lists[PendingReady].items[0], DrainStep(s);
      && x in s.tcbs && Turns(s, r, p, [], If(s.tcbs[x].priority == p, x)) && r.tcbs == s.tcbs
      && PendingReady in r.event.lists && r.event.lists[PendingReady].items == s.event.lists[PendingReady].items[1..]
  {
    PendingIsBlocked(s);
    var x := s.event.lists[PendingReady].items[0];
    UnblockTurns(s, x, p);
    PendingHead(s);
    HeadTaken(s.event.lists[PendingReady].items);
    hide Sched.Core, Sched.Shape, Roster.Consistent, Sched.Unblock, Joined;
  }

  lemma PendingHead(s: Sched)
    requires s.Shape() && s.event.lists[PendingReady].items != []
    ensures var items := s.event.lists[PendingReady].items;
      && items[0] in s.tcbs && PendingReady in s.Unblock(items[0]).event.lists
      && s.Unblock(items[0]).event.lists[PendingReady].items == Without(items, items[0])
  {
    PendingShrinks(s);
    hide Roster.Consistent, Roster.Move, Roster.Take;
  }

  lemma {:induction false} UnwindTurns(s: Sched, n: nat, p: nat) returns (news: seq<Task>)
    requires s.Shape() && p < MAX_PRIORITIES
    ensures Turns(s, UnwindTicks(s, n), p, [], news)
    decreases n
  {
    hide Sched.Shape, Roster.Consistent, Joined, TickStep;
    NothingHappens2(s, p);
    news := [];
    if n > 0 {
      news := TickTurns(s, p);
      var t := TickStep(s);
      var u := if t.switchRequired then t.s.(yieldPending := true) else t.s;
      t.s.ListsKnown();
      t.s.NewListsShape(u);
      var more := UnwindTurns(u, n - 1, p);
      JoinedTwice(s.state.lists[Ready(p)], u.state.lists[Ready(p)], UnwindTicks(s, n).state.lists[Ready(p)],
                  news, more);
      news := news + more;
    }
  }

  lemma ResumeTurns(s: Sched, p: nat) returns (news: seq<Task>)
    requires s.Inv() && s.suspended > 0 && p < MAX_PRIORITIES
    ensures s.Shape() && Turns(s, ResumeAll(s), p, [], news)
  {
    InvShape(s);
    hide Sched.Shape, Roster.Consistent, Joined, UnwindTicks, DrainPending, Sched.ReadyListsMatch, Sched.DelaysSorted,
         Sched.EventWaitersBlocked, Sched.Timely, Sched.Settled, OfPriority;
    NothingHappens2(s, p);
    news := [];
    if s.suspended == 1 {
      var t := s.(suspended := 0);
      s.CoreOfSameLists(t);
      DrainTurns(t, p);
      var d := DeliverPending(t);
      var more := UnwindTurns(d, s.pended, p);
      news := OfPriority(t.tcbs, t.event.lists[PendingReady].items, p);
      JoinedTwice(s.state.lists[Ready(p)], d.state.lists[Ready(p)], UnwindTicks(d, s.pended).state.lists[Ready(p)],
                  news, more);
      news := if s.numberOfTasks > 0 then news + more else [];
    }
  }

  // ----- every step -----

  lemma BlockingTurns(s: Sched, a: Action, p: nat)
    requires Enabled(s, a) && IsBlocking(a) && p < MAX_PRIORITIES
    ensures s.Shape() && Turns(s, Step(s, a), p, If(s.state.place[s.current] == Ready(p), s.current), [])
  {
    InvShape(s);
    CurrentUnplaced(s);
    hide Sched.Core, Sched.Shape, Roster.Consistent, Sched.Timely, Sched.Settled, BlockCurrent, Turns,
         PlaceOnEventList, PlaceOnUnordered;
    match a {
      case Block(d, indefinite) => BlockTurns(s, d, indefinite, p);
      case Place(e, d) => PlaceTurns(s, e, d, p);
      case PlaceUnordered(e, v, d) => PlaceUnorderedTurns(s, e, v, d, p);
    }
  }

  lemma PlaceTurns(s: Sched, e: EventList, d: Tick, p: nat)
    requires s.Shape() && p < MAX_PRIORITIES && e in s.event.lists && s.current !in s.event.place
    ensures s.current in s.state.place
    ensures Turns(s, PlaceOnEventList(s, e, d), p, If(s.state.place[s.current] == Ready(p), s.current), [])
  {
    hide Roster.Consistent, Roster.PutSorted, BlockCurrent, TurnKept;
    OnEventListHasTcb(s, e);
    var t := s.(event := s.event.PutSorted(e, s.current, s.tcbs[s.current].eventValue,
                                           EventValues(s.tcbs, s.event.lists[e].items)));
    BlockTurns(t, d, true, p);
  }

  lemma PlaceUnorderedTurns(s: Sched, e: EventList, v: Tick, d: Tick, p: nat)
    requires s.Shape() && p < MAX_PRIORITIES && e in s.event.lists && s.current !in s.event.place
    ensures s.current in s.state.place
    ensures Turns(s, PlaceOnUnordered(s, e, v, d), p, If(s.state.place[s.current] == Ready(p), s.current), [])
  {
    hide Roster.Consistent, Roster.PutEnd, BlockCurrent, TurnKept;
    var t := s.(event := s.event.PutEnd(e, s.current),
                tcbs := s.tcbs[s.current := s.tcbs[s.current].(eventValue := OrInUse(v))]);
    BlockTurns(t, d, true, p);
  }

  lemma RemoveTurns(s: Sched, e: EventList, p: nat) returns (gone: seq<Task>, news: seq<Task>)
    requires s.Shape() && e in s.event.lists && s.event.lists[e].items != [] && p < MAX_PRIORITIES
    ensures Turns(s, RemoveFromEventList(s, e), p, gone, news) && (gone == [] || gone == [s.event.lists[e].items[0]])
  {
    hide Sched.Shape, TurnKept, Sched.Unblock, HoldBack;
    EventHead(s, e);
    var x := s.event.lists[e].items[0];
    if s.suspended == 0 {
      UnblockTurns(s, x, p);
      gone, news := If(s.state.place[x] == Ready(p), x), If(s.tcbs[x].priority == p, x);
    } else {
      SameTurns(s, HoldBack(s, x), p);
      gone, news := [], [];
    }
  }

  lemma DroppedMoves(s: Sched, x: Task, l: StateList, tcb: Tcb, p: nat)
    requires s.Shape() && x in s.tcbs && l in s.state.lists && p < MAX_PRIORITIES
    requires tcb.priority < MAX_PRIORITIES && tcb.basePriority < MAX_PRIORITIES
    ensures x in s.state.place
    ensures Turns(s, MoveTask(DropEvent(s, x), x, l, tcb), p,
                  If(s.state.place[x] == Ready(p), x), If(l == Ready(p), x))
  {
    hide Sched.Shape, DropEvent, MoveTask, TurnKept;
    MoveTaskTurns(DropEvent(s, x), x, l, tcb, p);
  }

  lemma WakingTurns(s: Sched, a: Action, p: nat) returns (gone: seq<Task>, news: seq<Task>)
    requires Enabled(s, a) && IsWaking(a) && !a.Remove? && p < MAX_PRIORITIES
    ensures Turns(s, Step(s, a), p, gone, news) && (gone == [] || gone == [a.x])
  {
    hide Sched.Core, Sched.Shape, Roster.Consistent, Sched.Timely, Sched.Settled, TurnKept, MoveTask, DropEvent,
         Roster.PutEnd;
    InvShape(s);
    EventShape(s);
    s.ListsKnown();
    s.TaskKnown(a.x);
    ReadyKnown(s, p);
    SameTurns(s, s, p);
    gone, news := If(s.state.place[a.x] == Ready(p), a.x), If(s.tcbs[a.x].priority == p, a.x);
    match a {
      case RemoveUnordered(x, v) =>
        DroppedMoves(s, x, Ready(s.tcbs[x].priority), s.tcbs[x].(eventValue := OrInUse(v)), p);
      case SuspendTask(x) =>
        DroppedMoves(s, x, SuspendedTasks, s.tcbs[x], p);
        news := [];
      case ResumeTask(x) =>
        MoveTaskTurns(s, x, Ready(s.tcbs[x].priority), s.tcbs[x], p);
        if x == s.current || !IsSuspended(s, x) { gone, news := [], []; }
      case ResumeTaskFromISR(x) =>
        MoveTaskTurns(s, x, Ready(s.tcbs[x].priority), s.tcbs[x], p);
        if !IsSuspended(s, x) || s.suspended != 0 { gone, news := [], []; }
      case Abort(x) =>
        var tcb := s.tcbs[x].(delayAborted := s.tcbs[x].delayAborted || x in s.event.place);
        DroppedMoves(s, x, Ready(tcb.priority), tcb, p);
        if !IsWaiting(s, x) { gone, news := [], []; }
    }
  }

  lemma RankingTurns(s: Sched, a: Action, p: nat) returns (gone: seq<Task>, news: seq<Task>)
    requires Enabled(s, a) && p < MAX_PRIORITIES && (a.SetPriority? || a.InheritTo? || a.TimeOutOn?)
    ensures Turns(s, Step(s, a), p, gone, news) && (gone == [] || gone == [a.x])
  {
    hide Sched.Core, Sched.Shape, Roster.Consistent, Sched.Timely, Sched.Settled, TurnKept, Requeue;
    InvShape(s);
    s.ListsKnown();
    s.TaskKnown(a.x);
    SameTurns(s, s, p);
    gone, news := [], [];
    var tcb := s.tcbs[a.x];
    var q := match a
             case SetPriority(_, n) => if n >= MAX_PRIORITIES then MAX_PRIORITIES - 1 else n
             case InheritTo(_) => s.tcbs[s.current].priority
             case TimeOutOn(_, h) => if tcb.basePriority < h then h else tcb.basePriority
             case _ => 0;
    var after := if a.SetPriority?
                 then tcb.(priority := if tcb.basePriority == tcb.priority then q else tcb.priority, basePriority := q,
                           eventValue := EventValueFor(tcb, q))
                 else tcb.(priority := q, eventValue := EventValueFor(tcb, q));
    if Step(s, a) != s {
      RequeueTurns(s, a.x, after, p);
      var moves := s.state.place[a.x] == Ready(tcb.priority);
      gone, news := If(moves && tcb.priority == p, a.x), If(moves && after.priority == p, a.x);
    }
  }

  lemma OwnTurns(s: Sched, a: Action, p: nat) returns (gone: seq<Task>, news: seq<Task>)
    requires Enabled(s, a) && p < MAX_PRIORITIES
    requires a.HoldMutex? || a.GiveMutex? || a.ResetItem? || a.CheckTimeOut?
    ensures Turns(s, Step(s, a), p, gone, news) && (gone == [] || gone == [s.current])
  {
    hide Sched.Core, Sched.Shape, Roster.Consistent, Sched.Timely, Sched.Settled, TurnKept, MoveTask;
    InvShape(s);
    s.ListsKnown();
    SameTurns(s, Step(s, a).(state := s.state), p);
    gone, news := [], [];
    var tcb := s.tcbs[s.current].(mutexesHeld := if a.GiveMutex? then s.tcbs[s.current].mutexesHeld - 1 else 0);
    if a.GiveMutex? && tcb.priority != tcb.basePriority && tcb.mutexesHeld == 0 {
      ReadyKnown(s, tcb.basePriority);
      MoveTaskTurns(s, s.current, Ready(tcb.basePriority),
                    tcb.(priority := tcb.basePriority, eventValue := MAX_PRIORITIES - tcb.basePriority), p);
      gone, news := If(s.state.place[s.current] == Ready(p), s.current), If(tcb.basePriority == p, s.current);
    }
  }

  lemma LifeTurns(s: Sched, a: Action, p: nat) returns (gone: seq<Task>, news: seq<Task>)
    requires Enabled(s, a) && p < MAX_PRIORITIES && IsBirthOrDeath(a)
    ensures Turns(s, Step(s, a), p, gone, news) && (forall x :: x in gone ==> Touches(s, a, x))
  {
    hide Sched.Core, Sched.Shape, Sched.Timely, Sched.Settled, TurnKept, Create, Delete, CleanUpOne;
    InvShape(s);
    gone, news := [], [];
    match a {
      case CreateTask(x, n) =>
        news := CreateTurns(s, x, n, p);
      case DeleteTask(x) =>
        ForgetNumbers(s);
        gone := DeleteTurns(s, x, p);
      case CleanUp =>
        CleanUpTurns(s, p);
    }
  }

  lemma CreateTurns(s: Sched, x: Task, n: nat, p: nat) returns (news: seq<Task>)
    requires s.Shape() && x !in s.tcbs && p < MAX_PRIORITIES
    ensures Turns(s, Create(s, x, n), p, [], news)
    ensures news == If(p == (if n >= MAX_PRIORITIES then MAX_PRIORITIES - 1 else n), x)
  {
    var q := if n >= MAX_PRIORITIES then MAX_PRIORITIES - 1 else n;
    assert x !in s.state.place.Keys;
    PutTurns(s.state, Ready(q), x, Ready(p));
    news := If(p == q, x);
    hide Roster.Consistent, Roster.PutEnd, TurnKept;
  }

  lemma ForgetTurns(s: Sched, x: Task, p: nat)
    requires s.Shape() && x in s.tcbs && x != s.current && s.numberOfTasks > 0 && p < MAX_PRIORITIES
    ensures x in s.state.place && Turns(s, Forget(s, x), p, If(s.state.place[x] == Ready(p), x), [])
  {
    s.TaskKnown(x);
    TakeTurns(s.state, x, Ready(p));
    hide Roster.Consistent, Roster.Take, Roster.TakeIfPlaced, TurnKept;
  }

  lemma DeleteTurns(s: Sched, x: Task, p: nat) returns (gone: seq<Task>)
    requires s.Shape() && x in s.tcbs && s.numberOfTasks > 0 && p < MAX_PRIORITIES
    ensures Turns(s, Delete(s, x), p, gone, []) && (gone == [] || gone == [x])
  {
    s.TaskKnown(x);
    s.ListsKnown();
    gone := If(s.state.place[x] == Ready(p), x);
    hide Sched.Shape, MoveTask, DropEvent, Forget, TurnKept;
    if x == s.current {
      DroppedMoves(s, x, WaitingTermination, s.tcbs[x], p);
    } else {
      ForgetTurns(s, x, p);
    }
  }

  lemma CleanUpTurns(s: Sched, p: nat)
    requires s.Core() && s.Shape() && s.current == IDLE && s.deletedTasks > 0 && p < MAX_PRIORITIES
    ensures Turns(s, CleanUpOne(s), p, [], [])
  {
    DeletedHead(s);
    var x := s.state.lists[WaitingTermination].items[0];
    NotDoomed(s, x);
    ForgetTurns(s, x, p);
    hide Sched.Core, Sched.Shape, Forget, TurnKept;
  }

  lemma NotDoomed(s: Sched, x: Task)
    requires s.Core() && x in s.tcbs && s.state.place[x] == WaitingTermination
    ensures x != IDLE
  {
  }

  /** Every step but a context switch that takes place leaves the turn of every priority as it was, except that a
      task the step is about may leave it, and that tasks may join it behind all others. */
  lemma StepKeepsTurns(s: Sched, a: Action, p: nat) returns (gone: seq<Task>, news: seq<Task>)
    requires Enabled(s, a) && p < MAX_PRIORITIES && !(a == Switch && s.suspended == 0)
    ensures Turns(s, Step(s, a), p, gone, news)
    ensures forall x :: x in gone ==> Touches(s, a, x)
  {
    hide Sched.Core, Sched.Shape, Sched.Timely, Sched.Settled, TurnKept, Turns, RemoveFromEventList, TickStep,
         ResumeAll, Sched.ResetUnblockTime, BlockCurrent, PlaceOnEventList, PlaceOnUnordered, SwitchContext;
    InvShape(s);
    gone, news := [], [];
    if a.Tick? {
      news := TickTurns(s, p);
    } else if a.ResumeScheduler? {
      news := ResumeTurns(s, p);
    } else if IsBlocking(a) {
      s.ListsKnown();
      BlockingTurns(s, a, p);
      gone := If(s.state.place[s.current] == Ready(p), s.current);
    } else if a.Remove? {
      gone, news := RemoveTurns(s, a.e, p);
    } else if IsWaking(a) {
      gone, news := WakingTurns(s, a, p);
    } else if a.SetPriority? || a.InheritTo? || a.TimeOutOn? {
      gone, news := RankingTurns(s, a, p);
    } else if IsRanking(a) {
      gone, news := OwnTurns(s, a, p);
    } else if IsBirthOrDeath(a) {
      gone, news := LifeTurns(s, a, p);
    } else {
      BookkeepingTurns(s, a, p);
    }
  }

  lemma BookkeepingTurns(s: Sched, a: Action, p: nat)
    requires Enabled(s, a) && p < MAX_PRIORITIES && IsBookkeeping(a) && !(a == Switch && s.suspended == 0)
    ensures Turns(s, Step(s, a), p, [], [])
  {
    hide Sched.Core, Sched.Shape, Sched.Timely, Sched.Settled, TurnKept, Turns;
    InvShape(s);
    SameTurns(s, Step(s, a), p);
  }

  // ----- who runs first -----

  /** The item that was read last. */
  predicate UnderCursor(l: ListView<Task>, x: Task) {
    0 < l.cursor <= |l.items| && l.items[l.cursor - 1] == x
  }

  lemma LastIsUnderCursor(l: ListView<Task>)
    requires 0 < l.cursor <= |l.items|
    ensures |l.Future()| == |l.items| && UnderCursor(l, l.Future()[|l.items| - 1])
  {
  }

  lemma FutureHolds(l: ListView<Task>, x: Task)
    requires l.cursor <= |l.items|
    ensures x in l.Future() <==> x in l.items
  {
    assert l.items == l.items[..l.cursor] + l.items[l.cursor..];
  }

  lemma WithoutHolds(s: seq<Task>, x: Task, y: Task)
    requires Distinct(s)
    ensures y in Without(s, x) ==> y in s
    ensures y in s && y != x ==> y in Without(s, x)
  {
    if x in s {
      var i := IndexOf(s, x);
      RemoveMembers(s, i, y);
    }
  }

  /** Those who join come after y in the turn. */
  lemma JoinedBehind(u: ListView<Task>, w: ListView<Task>, news: seq<Task>, x: Task, y: Task)
    returns (i: nat, j: nat)
    requires Joined(u, w, news) && y in u.Future() && x !in u.Future() && x in w.Future() && !UnderCursor(w, y)
    ensures i < j < |w.Future()| && w.Future()[i] == y && w.Future()[j] == x
  {
    if u.cursor > 0 {
      LastIsUnderCursor(w);
      FutureLength(u);
      FutureLength(w);
      hide ListView.Future;
      i, j := AheadOfLast(u.Future(), w.Future(), news, x, y);
    } else {
      hide ListView.Future;
      i, j := Ahead(u.Future(), w.Future(), news, x, y);
    }
  }

  lemma Ahead(f: seq<Task>, g: seq<Task>, news: seq<Task>, x: Task, y: Task) returns (i: nat, j: nat)
    requires g == f + news && y in f && x !in f && x in g
    ensures i < j < |g| && g[i] == y && g[j] == x
  {
    i :| 0 <= i < |f| && f[i] == y;
    j :| 0 <= j < |g| && g[j] == x;
  }

  lemma AheadOfLast(f: seq<Task>, g: seq<Task>, news: seq<Task>, x: Task, y: Task) returns (i: nat, j: nat)
    requires f != [] && g == f[..|f| - 1] + news + f[|f| - 1..] && y in f && x !in f && x in g && g[|g| - 1] != y
    ensures i < j < |g| && g[i] == y && g[j] == x
  {
    assert g[|g| - 1] == f[|f| - 1];
    i :| 0 <= i < |f| && f[i] == y;
    j :| 0 <= j < |g| && g[j] == x;
  }

  lemma KeptBehind(v: ListView<Task>, w: ListView<Task>, gone: seq<Task>, news: seq<Task>, x: Task, y: Task)
    returns (i: nat, j: nat)
    requires v.Valid() && TurnKept(v, w, gone, news) && y in v.items && y !in gone && x !in v.items
    requires w.cursor <= |w.items| && x in w.items && !UnderCursor(w, y)
    ensures i < j < |w.Future()| && w.Future()[i] == y && w.Future()[j] == x
  {
    FutureHolds(v, y);
    FutureHolds(v, x);
    FutureHolds(w, x);
    FutureDistinct(v);
    if gone == [] && Joined(v, w, news) {
      i, j := JoinedBehind(v, w, news, x, y);
    } else {
      var u :| Left(v, u, gone[0]) && Joined(u, w, news);
      WithoutHolds(v.Future(), gone[0], x);
      WithoutHolds(v.Future(), gone[0], y);
      i, j := JoinedBehind(u, w, news, x, y);
    }
  }

  lemma ListValid(s: Sched, p: nat)
    requires s.Shape() && Ready(p) in s.state.lists
    ensures s.state.lists[Ready(p)].Valid()
  {
  }

  /** A task that becomes ready at the highest priority is chosen after every task that was ready there already
      and is not the one that was chosen last. */
  lemma ReadiedWaitsItsTurn(s: Sched, a: Action, p: nat, x: Task, y: Task) returns (i: nat, j: nat)
    requires Enabled(s, a) && !(a == Switch && s.suspended == 0) && p < MAX_PRIORITIES
    requires var r := Step(s, a);
      r.Inv() && r.suspended == 0 && r.Shape() && FindTop(r, r.topReady) == p
    requires s.Shape() && Ready(p) in s.state.lists && Ready(p) in Step(s, a).state.lists
    requires var v, w := s.state.lists[Ready(p)].items, Step(s, a).state.lists[Ready(p)].items;
      y in v && !Touches(s, a, y) && x !in v && x in w
    requires !UnderCursor(Step(s, a).state.lists[Ready(p)], y)
    ensures var r := Step(s, a); var turn := Chosen(r, |r.state.lists[Ready(p)].items|);
      i < j < |turn| && turn[i] == y && turn[j] == x
  {
    hide Sched.Core, Sched.Shape, Sched.Timely, Sched.Settled, TurnKept, Step, Enabled, Touches, Chosen, FindTop,
         UnderCursor;
    var gone, news := StepKeepsTurns(s, a, p);
    var r := Step(s, a);
    ListValid(s, p);
    ListValid(r, p);
    i, j := KeptBehind(s.state.lists[Ready(p)], r.state.lists[Ready(p)], gone, news, x, y);
    var n := |r.state.lists[Ready(p)].items|;
    ChosenInTurn(r, n);
    ReadsPrefix(r.state.lists[Ready(p)], n);
  }
}
