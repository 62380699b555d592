/** Giving a mutex wakes its first waiter, and a mutex that is free while tasks wait for it has a task that was
    woken for it. */
module MutexWakeups {
  import opened Ticks
  import opened ListValues
  import opened Rosters
  import opened Scheduler
  import opened SchedulerTime
  import opened SchedulerSuspension
  import opened SchedulerTasks
  import opened SchedulerSafety
  import opened SchedulerRuns
  import opened Mutexes
  import opened MutexRuns

  // ----- one give -----

  lemma HeadTaken<T>(items: seq<T>)
    requires items != []
    ensures Without(items, items[0]) == items[1..]
  {
    assert IndexOf(items, items[0]) == 0;
  }

  /** Waking the head of an event list takes it off, and every other list but the pending one stays. */
  lemma HeadLeaves(s: Sched, e: EventList)
    requires s.Shape() && e.Waiting? && e in s.event.lists && s.event.lists[e].items != []
    ensures var r := RemoveFromEventList(s, e);
      && e in r.event.lists && r.event.lists[e].items == s.event.lists[e].items[1..]
      && forall f :: f in s.event.lists && f != e && f != PendingReady ==>
           f in r.event.lists && r.event.lists[f].items == s.event.lists[f].items
  {
    EventHead(s, e);
    HeadTaken(s.event.lists[e].items);
    var x := s.event.lists[e].items[0];
    if s.suspended == 0 {
      UnblockedLists(s, x, e);
    } else {
      HeldBackLists(s, x, e);
    }
    hide Roster.Consistent, Sched.Unblock, HoldBack;
  }

  lemma UnblockedLists(s: Sched, x: Task, e: EventList)
    requires s.Shape() && x in s.tcbs && x in s.event.place && s.event.place[x] == e && e in s.event.lists
    ensures var r := s.Unblock(x);
      && r.event.lists.Keys == s.event.lists.Keys && r.event.lists[e].items == Without(s.event.lists[e].items, x)
      && forall f :: f in s.event.lists && f != e ==> r.event.lists[f].items == s.event.lists[f].items
  {
    hide Roster.Consistent, Roster.Move, Roster.Take;
  }

  lemma HeldBackLists(s: Sched, x: Task, e: EventList)
    requires s.Shape() && x in s.event.place && s.event.place[x] == e && e in s.event.lists && e != PendingReady
    ensures var r := HoldBack(s, x);
      && r.event.lists.Keys == s.event.lists.Keys && r.event.lists[e].items == Without(s.event.lists[e].items, x)
      && forall f :: f in s.event.lists && f != e && f != PendingReady ==>
           r.event.lists[f].items == s.event.lists[f].items
  {
    hide Roster.Consistent, Roster.Move;
  }

  /** x has been woken: it is ready at its priority and on no event list, or held back, still blocked as it was,
      if the scheduler is suspended. */
  ghost predicate Woken(s: Sched, r: Sched, x: Task) {
    && x in s.tcbs && x in r.tcbs && r.tcbs[x] == s.tcbs[x] && x in s.state.place && x in r.state.place
    && if s.suspended == 0 then r.state.place[x] == Ready(s.tcbs[x].priority) && x !in r.event.place
       else Pending(r, x) && Where(r, x) == Where(s, x)
  }

  lemma HeadWoken(s: Sched, e: EventList)
    requires s.Inv() && s.Shape() && e in s.event.lists && s.event.lists[e].items != []
    ensures var x, r := s.event.lists[e].items[0], RemoveFromEventList(s, e);
      && Woken(s, r, x) && r.Inv() && OnlyMoves(s, r, x) && r.tcbs == s.tcbs && r.current == s.current
  {
    hide Sched.Inv, Sched.Shape, RemoveFromEventList, OnlyMoves, Where;
    RemoveFromEventListSafe(s, e);
    WakeFrame(s, e);
  }

  lemma GiverLowered(s: Sched)
    requires s.Inv() && s.Shape() && Running(s) && s.tcbs[s.current].mutexesHeld > 0
    ensures var r := Disinherit(s);
      && r.Inv() && r.Shape() && OnlyMoves(s, r, s.current) && r.event == s.event && r.current == s.current
      && r.suspended == s.suspended && r.tcbs.Keys == s.tcbs.Keys && s.current !in s.event.place
  {
    hide Sched.Inv, Sched.Shape, Disinherit, OnlyMoves;
    RunningFacts(s);
    DisinheritSafe(s);
    InvShape(Disinherit(s));
  }

  lemma UntouchedTwice(s: Sched, g: Sched, r: Sched, y: Task)
    requires Untouched(s, g, y) && Untouched(g, r, y)
    ensures Untouched(s, r, y)
  {
    hide Where;
  }

  /** Everybody but x and y stays as and where they were. */
  ghost predicate OnlyTwoMove(s: Sched, r: Sched, x: Task, y: Task) {
    forall z :: z in s.tcbs && z != x && z != y ==> Untouched(s, r, z)
  }

  lemma TwoMoves(s: Sched, g: Sched, r: Sched, x: Task, y: Task)
    requires OnlyMoves(s, g, x) && OnlyMoves(g, r, y) && g.tcbs.Keys == s.tcbs.Keys
    ensures OnlyTwoMove(s, r, x, y)
  {
    forall z | z in s.tcbs && z != x && z != y ensures Untouched(s, r, z) {
      assert Untouched(s, g, z) && Untouched(g, r, z);
      UntouchedTwice(s, g, r, z);
    }
  }

  /** What giving mutex m does to the tasks: the first waiter, whatever its priority, is woken and is off the
      list, which otherwise stays as it was; apart from it and the giver nobody moves. */
  ghost predicate WakesFirst(s: Sched, r: Sched, m: nat) {
    && Waiting(m) in s.event.lists && Waiting(m) in r.event.lists
    && r.current == s.current && s.current !in r.event.place && r.tcbs.Keys == s.tcbs.Keys
    && var waiters := s.event.lists[Waiting(m)].items;
       if waiters == [] then OnlyMoves(s, r, s.current) && r.event == s.event
       else
         && Woken(s, r, waiters[0]) && r.event.lists[Waiting(m)].items == waiters[1..]
         && OnlyTwoMove(s, r, s.current, waiters[0])
  }

  lemma WokenAfter(s: Sched, g: Sched, r: Sched, x: Task)
    requires Untouched(s, g, x) && Woken(g, r, x) && g.suspended == s.suspended
    ensures Woken(s, r, x)
  {
    hide Where;
  }

  lemma GiveWakes(sys: System, m: nat)
    requires Accounted(sys) && Running(sys.s) && m in sys.mutexes && sys.mutexes[m].holder == HeldBy(sys.s.current)
    ensures sys.s.Shape() && sys.s.tcbs[sys.s.current].mutexesHeld > 0 && Waiting(m) in sys.s.event.lists
    ensures WakesFirst(sys.s, Give(sys, m).s, m)
  {
    hide Accounted, Sched.Inv, Sched.Shape, Disinherit, RemoveFromEventList, OnlyMoves, Woken, Untouched, Running,
         OnlyTwoMove;
    HolderFacts(sys, m);
    AccountedInv(sys);
    GiverLowered(sys.s);
    var s, g, e := sys.s, Disinherit(sys.s), Waiting(m);
    if s.event.lists[e].items != [] {
      var x := s.event.lists[e].items[0];
      EventHead(s, e);
      HeadLeaves(g, e);
      HeadWoken(g, e);
      OthersUntouched(s, g, s.current, x);
      StillOffEvents(g, RemoveFromEventList(g, e), x);
      WokenAfter(s, g, RemoveFromEventList(g, e), x);
      TwoMoves(s, g, RemoveFromEventList(g, e), s.current, x);
    }
  }

  lemma StillOffEvents(g: Sched, r: Sched, x: Task)
    requires OnlyMoves(g, r, x) && g.current !in g.event.place && g.current in g.tcbs && x in g.event.place
    ensures g.current !in r.event.place
  {
    assert Untouched(g, r, g.current);
  }

  lemma OthersUntouched(s: Sched, g: Sched, c: Task, x: Task)
    requires OnlyMoves(s, g, c) && x != c && x in s.tcbs
    ensures Untouched(s, g, x)
  {
  }

  /** Of nested gives the last one wakes in the same way, and no other. */
  lemma GiveNestedWakes(sys: System, m: nat)
    requires Accounted(sys) && Running(sys.s) && m in sys.mutexes
    requires sys.mutexes[m].holder == HeldBy(sys.s.current) && sys.mutexes[m].recursion > 0
    ensures sys.s.Shape() && sys.s.tcbs[sys.s.current].mutexesHeld > 0 && Waiting(m) in sys.s.event.lists
    ensures if sys.mutexes[m].recursion == 1 then WakesFirst(sys.s, GiveNested(sys, m).s, m)
            else GiveNested(sys, m).s == sys.s
  {
    hide Accounted, Sched.Inv, Sched.Shape, Give, Running, WakesFirst;
    HolderFacts(sys, m);
    RecursionKeepsAccounts(sys, m, sys.mutexes[m].recursion - 1);
    if sys.mutexes[m].recursion == 1 {
      GiveWakes(sys.(mutexes := sys.mutexes[m := sys.mutexes[m].(recursion := 0)]), m);
    }
  }

  // ----- steps -----

  ghost predicate WaitsOn(s: Sched, m: nat, x: Task) {
    x in s.event.place && s.event.place[x] == Waiting(m)
  }

  ghost predicate IsFree(sys: System, m: nat) {
    m in sys.mutexes && sys.mutexes[m].holder == Nobody
  }

  /** Nobody waits for a mutex that is free. */
  ghost predicate NobodyWaits(sys: System, m: nat) {
    forall x :: !WaitsOn(sys.s, m, x)
  }

  lemma ListTellsWaiters(s: Sched, m: nat)
    requires s.Shape() && Waiting(m) in s.event.lists
    ensures s.event.lists[Waiting(m)].items == [] <==> forall x :: !WaitsOn(s, m, x)
  {
    var items := s.event.lists[Waiting(m)].items;
    if items != [] {
      EventHead(s, Waiting(m));
      assert WaitsOn(s, m, items[0]);
    }
    if x :| WaitsOn(s, m, x) {
      assert x in items;
    }
  }

  lemma NewcomerOff(s: Sched, a: Action, m: nat, x: Task)
    requires Enabled(s, a) && x !in s.tcbs && x in Step(s, a).tcbs
    ensures !WaitsOn(Step(s, a), m, x)
  {
    Newcomers(s, a, x);
    CreatedByStep(s, a);
    hide Enabled, Step, Create, Sched.Shape;
    Created(s, x, a.priority);
  }

  lemma TargetStaysOff(sys: System, a: Action, m: nat, x: Task)
    requires m in sys.mutexes && Allowed(sys, a) && !WaitsOn(sys.s, m, x)
    requires Enabled(sys.s, a) && TargetOk(sys.s, a, Step(sys.s, a), x) && x in Step(sys.s, a).tcbs
    ensures !WaitsOn(Step(sys.s, a), m, x)
  {
    hide Enabled, Step, RankOk;
  }

  lemma KernelStaysOff(sys: System, a: Action, m: nat, x: Task)
    requires Accounted(sys) && Enabled(sys.s, a) && Allowed(sys, a) && m in sys.mutexes && !WaitsOn(sys.s, m, x)
    ensures !WaitsOn(Step(sys.s, a), m, x)
  {
    hide Accounted, Enabled, Step, Touches, TargetOk, Allowed, Undisturbed, Sched.Inv;
    EveryStepGood(sys.s, a);
    if x !in Step(sys.s, a).tcbs {
      GoneIsOff(Step(sys.s, a), m, x);
    } else if x !in sys.s.tcbs {
      NewcomerOff(sys.s, a, m, x);
    } else if Touches(sys.s, a, x) {
      TouchedOk(sys, a, x);
      TargetStaysOff(sys, a, m, x);
    } else {
      UndisturbedOff(sys.s, Step(sys.s, a), m, x);
    }
  }

  lemma UndisturbedOff(s: Sched, r: Sched, m: nat, x: Task)
    requires Undisturbed(s, r, x) && !WaitsOn(s, m, x)
    ensures !WaitsOn(r, m, x)
  {
    hide Where, Sched.Now;
  }

  lemma GoneIsOff(s: Sched, m: nat, x: Task)
    requires s.Inv() && x !in s.tcbs
    ensures !WaitsOn(s, m, x)
  {
    InvShape(s);
    assert x !in s.tcbs.Keys;
  }

  lemma QueueingStaysOff(s: Sched, n: nat, d: Tick, m: nat, x: Task)
    requires s.Inv() && Running(s) && Waiting(n) in s.event.lists && s.current !in s.event.place && s.Shape()
    requires n != m && !WaitsOn(s, m, x)
    ensures !WaitsOn(PlaceOnEventList(s, Waiting(n), d), m, x)
  {
    hide Roster.Consistent, Roster.PutSorted, BlockCurrent, Sched.Core, Sched.Timely, Sched.Settled;
    OnEventListHasTcb(s, Waiting(n));
    var e := s.event.PutSorted(Waiting(n), s.current, s.tcbs[s.current].eventValue,
                               EventValues(s.tcbs, s.event.lists[Waiting(n)].items));
    BlockFrame(s.(event := e), d, true);
  }

  lemma TwoMovesOff(s: Sched, r: Sched, n: nat, m: nat, x: Task)
    requires WakesFirst(s, r, n) && s.Shape() && r.Inv() && r.Shape() && s.current !in s.event.place
    requires !WaitsOn(s, m, x)
    ensures !WaitsOn(r, m, x)
  {
    hide Where, Sched.Inv, Sched.Shape;
    if x !in s.tcbs {
      GoneIsOff(r, m, x);
    } else if s.event.lists[Waiting(n)].items != [] && x != s.current && x != s.event.lists[Waiting(n)].items[0] {
      assert Untouched(s, r, x);
    }
  }

  /** While mutex m is free, nobody joins those who wait for it. */
  lemma StaysOff(sys: System, a: SysAction, m: nat, x: Task)
    requires SysEnabled(sys, a) && IsFree(sys, m) && !WaitsOn(sys.s, m, x)
    ensures !WaitsOn(SysStep(sys, a).s, m, x)
  {
    hide Accounted, Sched.Inv, Sched.Shape, Step, Legal, Allowed, Inherit, DisinheritAfterTimeout, IncrementHeld,
         PlaceOnEventList, Give, Running, WaitsOn, NothingLent, HighestWaiting;
    AccountedInv(sys);
    InvShape(sys.s);
    HolderFacts(sys, m);
    match a {
      case KernelStep(k) => KernelStaysOff(sys, k, m, x);
      case TakeMutex(n) => TakingStaysOff(sys, m, x);
      case LendFor(n) => LendingStaysOff(sys, n, m, x);
      case QueueUpFor(n, d) =>
        HolderFacts(sys, n);
        RunningFacts(sys.s);
        QueueingStaysOff(sys.s, n, d, m, x);
      case GiveUpOn(n) => GivingUpStaysOff(sys, n, m, x);
      case GiveBack(n) => GivingStaysOff(sys, n, m, x);
      case TakeRecursively(n) => TakingStaysOff(sys, m, x);
      case GiveRecursively(n) =>
        HolderFacts(sys, n);
        GivingNestedStaysOff(sys, n, m, x);
      case CreateMutex(n) =>
    }
  }

  lemma TakingStaysOff(sys: System, m: nat, x: Task)
    requires sys.s.Shape() && !WaitsOn(sys.s, m, x)
    ensures !WaitsOn(IncrementHeld(sys.s), m, x)
  {
    IncrementedOnly(sys.s);
    hide Sched.Shape, IncrementHeld;
  }

  lemma LendingStaysOff(sys: System, n: nat, m: nat, x: Task)
    requires SysEnabled(sys, LendFor(n)) && !WaitsOn(sys.s, m, x)
    ensures !WaitsOn(SysStep(sys, LendFor(n)).s, m, x)
  {
    hide Accounted, Sched.Inv, Sched.Shape, Inherit, Running;
    AccountedInv(sys);
    HolderFacts(sys, n);
    InheritChanged(sys.s, sys.mutexes[n].holder.task);
  }

  lemma GivingUpStaysOff(sys: System, n: nat, m: nat, x: Task)
    requires SysEnabled(sys, GiveUpOn(n)) && !WaitsOn(sys.s, m, x)
    ensures !WaitsOn(SysStep(sys, GiveUpOn(n)).s, m, x)
  {
    hide Accounted, Sched.Inv, Sched.Shape, DisinheritAfterTimeout, Running, NothingLent, HighestWaiting;
    AccountedInv(sys);
    HolderFacts(sys, n);
    WaitersHavePriorities(sys, n);
    if sys.mutexes[n].holder.HeldBy? {
      GiveUpChanged(sys.s, sys.mutexes[n].holder.task, HighestWaiting(sys, n));
    }
  }

  lemma GivingStaysOff(sys: System, n: nat, m: nat, x: Task)
    requires SysEnabled(sys, GiveBack(n)) && !WaitsOn(sys.s, m, x)
    ensures !WaitsOn(SysStep(sys, GiveBack(n)).s, m, x)
  {
    hide Accounted, Sched.Inv, Sched.Shape, Give, Running, WakesFirst, WaitsOn;
    AccountedInv(sys);
    HolderFacts(sys, n);
    RunningFacts(sys.s);
    GiveAccounts(sys, n);
    AccountedInv(Give(sys, n));
    InvShape(Give(sys, n).s);
    GiveWakes(sys, n);
    TwoMovesOff(sys.s, Give(sys, n).s, n, m, x);
  }

  lemma GivingNestedStaysOff(sys: System, n: nat, m: nat, x: Task)
    requires SysEnabled(sys, GiveRecursively(n)) && !WaitsOn(sys.s, m, x)
    ensures !WaitsOn(SysStep(sys, GiveRecursively(n)).s, m, x)
  {
    hide Accounted, Sched.Inv, Sched.Shape, GiveNested, Running, WakesFirst, WaitsOn;
    AccountedInv(sys);
    HolderFacts(sys, n);
    RunningFacts(sys.s);
    GiveNestedAccounts(sys, n);
    AccountedInv(GiveNested(sys, n));
    InvShape(GiveNested(sys, n).s);
    GiveNestedWakes(sys, n);
    if sys.mutexes[n].recursion == 1 {
      TwoMovesOff(sys.s, GiveNested(sys, n).s, n, m, x);
    }
  }

  predicate FreesMutex(sys: System, a: SysAction, m: nat) {
    m in sys.mutexes && (a == GiveBack(m) || (a == GiveRecursively(m) && sys.mutexes[m].recursion == 1))
  }

  /** A mutex becomes free by being made or by being given. */
  lemma BecomesFree(sys: System, a: SysAction, m: nat)
    requires SysEnabled(sys, a) && !IsFree(sys, m) && IsFree(SysStep(sys, a), m)
    ensures m in sys.mutexes ==> FreesMutex(sys, a, m)
    ensures m !in sys.mutexes ==>
              Waiting(m) in sys.s.event.lists && sys.s.event.lists[Waiting(m)].items == [] && SysStep(sys, a).s == sys.s
  {
    hide Accounted, Sched.Inv, Sched.Shape, Step, Legal, Allowed, Inherit, DisinheritAfterTimeout, IncrementHeld,
         PlaceOnEventList, Disinherit, RemoveFromEventList, Running, NothingLent, HighestWaiting;
  }

  // ----- runs -----

  /** Step j gave mutex m and woke x, the first to wait for it; nobody has taken the mutex since, and x has not
      gone back to waiting. */
  ghost predicate Heir(states: seq<System>, actions: seq<SysAction>, j: nat, k: nat, m: nat, x: Task) {
    && j < k <= |actions| && |states| == |actions| + 1
    && FreesMutex(states[j], actions[j], m)
    && Waiting(m) in states[j].s.event.lists && states[j].s.event.lists[Waiting(m)].items != []
    && x == states[j].s.event.lists[Waiting(m)].items[0] && Woken(states[j].s, states[j + 1].s, x)
    && forall i :: j < i <= k ==> IsFree(states[i], m) && !WaitsOn(states[i].s, m, x)
  }

  lemma WokenIsOff(s: Sched, r: Sched, m: nat, x: Task)
    requires Woken(s, r, x)
    ensures !WaitsOn(r, m, x)
  {
    hide Where;
  }

  lemma GiverWakes(sys: System, a: SysAction, m: nat)
    requires SysEnabled(sys, a) && FreesMutex(sys, a, m)
    ensures WakesFirst(sys.s, SysStep(sys, a).s, m)
  {
    hide Accounted, Sched.Inv, Sched.Shape, Give, GiveNested, Running, WakesFirst;
    if a.GiveBack? {
      GiveWakes(sys, m);
    } else {
      GiveNestedWakes(sys, m);
    }
  }

  lemma FirstHeir(states: seq<System>, actions: seq<SysAction>, j: nat, m: nat)
    requires j < |actions| && |states| == |actions| + 1
    requires SysEnabled(states[j], actions[j]) && states[j + 1] == SysStep(states[j], actions[j])
    requires FreesMutex(states[j], actions[j], m) && IsFree(states[j + 1], m)
    requires Waiting(m) in states[j + 1].s.event.lists && states[j + 1].s.event.lists[Waiting(m)].items != []
    ensures Waiting(m) in states[j].s.event.lists && states[j].s.event.lists[Waiting(m)].items != []
    ensures Heir(states, actions, j, j + 1, m, states[j].s.event.lists[Waiting(m)].items[0])
  {
    hide *;
    GiverWakes(states[j], actions[j], m);
    FirstIsWoken(states[j].s, states[j + 1].s, m);
    WokenIsOff(states[j].s, states[j + 1].s, m, states[j].s.event.lists[Waiting(m)].items[0]);
    HeirNow(states, actions, j, m);
  }

  lemma FirstIsWoken(s: Sched, r: Sched, m: nat)
    requires WakesFirst(s, r, m) && Waiting(m) in r.event.lists && r.event.lists[Waiting(m)].items != []
    ensures Waiting(m) in s.event.lists && s.event.lists[Waiting(m)].items != []
    ensures Woken(s, r, s.event.lists[Waiting(m)].items[0])
  {
    hide Woken, OnlyMoves, OnlyTwoMove;
  }

  lemma HeirNow(states: seq<System>, actions: seq<SysAction>, j: nat, m: nat)
    requires j < |actions| && |states| == |actions| + 1
    requires FreesMutex(states[j], actions[j], m) && IsFree(states[j + 1], m)
    requires Waiting(m) in states[j].s.event.lists && states[j].s.event.lists[Waiting(m)].items != []
    requires var x := states[j].s.event.lists[Waiting(m)].items[0];
      Woken(states[j].s, states[j + 1].s, x) && !WaitsOn(states[j + 1].s, m, x)
    ensures Heir(states, actions, j, j + 1, m, states[j].s.event.lists[Waiting(m)].items[0])
  {
    hide FreesMutex, IsFree, Woken, WaitsOn;
  }

  lemma HeirRemains(states: seq<System>, actions: seq<SysAction>, j: nat, k: nat, m: nat, x: Task)
    requires Heir(states, actions, j, k, m, x) && k < |actions|
    requires SysEnabled(states[k], actions[k]) && states[k + 1] == SysStep(states[k], actions[k])
    requires IsFree(states[k + 1], m)
    ensures Heir(states, actions, j, k + 1, m, x)
  {
    hide SysStep, SysEnabled, FreesMutex, Woken, WaitsOn, IsFree;
    StaysOff(states[k], actions[k], m, x);
  }

  /** A free mutex without waiters gets none. */
  lemma NobodyJoins(sys: System, a: SysAction, m: nat)
    requires SysEnabled(sys, a) && IsFree(sys, m) && NobodyWaits(sys, m)
    ensures NobodyWaits(SysStep(sys, a), m)
  {
    hide SysStep, SysEnabled, WaitsOn, IsFree;
    forall x ensures !WaitsOn(SysStep(sys, a).s, m, x) {
      StaysOff(sys, a, m, x);
    }
  }

  lemma WaitersKnown(sys: System, m: nat)
    requires Accounted(sys) && m in sys.mutexes
    ensures Waiting(m) in sys.s.event.lists
    ensures sys.s.event.lists[Waiting(m)].items == [] <==> NobodyWaits(sys, m)
  {
    hide Sched.Inv, Accounted;
    HolderFacts(sys, m);
    ListTellsWaiters(sys.s, m);
  }

  /** In every run that starts with nobody waiting for a mutex that is free: whenever a mutex is free while tasks
      wait for it, the last give has woken the first of those who then waited, and that task, though it has
      not taken the mutex yet, is off the list. */
  lemma {:induction false} FreeMutexHasHeir(states: seq<System>, actions: seq<SysAction>, k: nat, m: nat)
    returns (j: nat, x: Task)
    requires IsSysRun(states, actions) && Accounted(states[0]) && k <= |actions|
    requires forall n :: IsFree(states[0], n) ==> NobodyWaits(states[0], n)
    requires IsFree(states[k], m) && !NobodyWaits(states[k], m)
    ensures Heir(states, actions, j, k, m, x)
    decreases k
  {
    hide Accounted, SysStep, SysLegal, NobodyWaits, IsFree, Heir, FreesMutex;
    j, x := 0, 0;
    AccountedThroughout(states, actions, k);
    if k > 0 {
      SysRunStep(states, actions, k - 1);
      var sys, a := states[k - 1], actions[k - 1];
      FreeKnown(states[k], m);
      if IsFree(sys, m) {
        if NobodyWaits(sys, m) {
          NobodyJoins(sys, a, m);
        }
        j, x := FreeMutexHasHeir(states, actions, k - 1, m);
        HeirRemains(states, actions, j, k - 1, m, x);
      } else {
        BecomesFree(sys, a, m);
        FreesKnown(sys, a, m);
        FirstHeir(states, actions, k - 1, m);
        j, x := k - 1, sys.s.event.lists[Waiting(m)].items[0];
      }
    }
  }

  lemma FreeKnown(sys: System, m: nat)
    requires Accounted(sys) && IsFree(sys, m)
    ensures m in sys.mutexes && Waiting(m) in sys.s.event.lists
    ensures sys.s.event.lists[Waiting(m)].items == [] <==> NobodyWaits(sys, m)
  {
    hide Accounted;
    WaitersKnown(sys, m);
  }

  /** A new mutex has no waiters. */
  lemma FreesKnown(sys: System, a: SysAction, m: nat)
    requires SysEnabled(sys, a) && IsFree(SysStep(sys, a), m) && !IsFree(sys, m)
    requires !NobodyWaits(SysStep(sys, a), m)
    ensures FreesMutex(sys, a, m)
  {
    hide Accounted, SysStep, SysLegal, NobodyWaits, IsFree, FreesMutex;
    BecomesFree(sys, a, m);
    SysStepAccounts(sys, a);
    FreeKnown(SysStep(sys, a), m);
  }
}
