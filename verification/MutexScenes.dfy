/** Three runs in which the code does not do what one would expect of it: a timeout that puts the holder of a
    mutex below a task that waits for it, and a timeout and a give after which a ready task of higher
    priority is left above the running one. */
module MutexScenes {
  import opened Ticks
  import opened ListValues
  import opened Rosters
  import opened Scheduler
  import opened SchedulerTasks
  import opened SchedulerSafety
  import opened SchedulerRuns
  import opened InitialLists
  import opened Preemption
  import opened Mutexes
  import opened MutexRuns
  import opened MutexPriorities
  import opened MutexPreemption

  // ----- five tasks and two mutexes -----

  /** The idle task is ready at priority 0, task 2 at q and task 1 at p; tasks 3 and 4 are blocked. */
  function Spot(p: nat, q: nat, x: Task): StateList {
    if x == IDLE then Ready(0) else if x == 1 then Ready(p) else if x == 2 then Ready(q) else SuspendedTasks
  }

  function Items(p: nat, q: nat, l: StateList): seq<Task> {
    if l == Ready(p) then (if q == p then [2, 1] else [1])
    else if l == Ready(0) then (if q == 0 then [IDLE, 2] else [IDLE])
    else if l == Ready(q) then [2]
    else if l == SuspendedTasks then [3, 4]
    else []
  }

  lemma SpotsAndItems(p: nat, q: nat, l: StateList, x: Task)
    requires p > 0
    ensures x in Items(p, q, l) <==> x < 5 && Spot(p, q, x) == l
    ensures Distinct(Items(p, q, l))
  {
  }

  function Places(p: nat, q: nat): Roster<StateList> {
    hide StateLists;
    Roster(map l | l in StateLists() :: ListView(Items(p, q, l), 0), map x | x in {IDLE, 1, 2, 3, 4} :: Spot(p, q, x))
  }

  lemma PlacesAgree(p: nat, q: nat)
    requires 0 < p < MAX_PRIORITIES && q < MAX_PRIORITIES
    ensures Places(p, q).Consistent()
  {
    hide StateLists, Items, Spot;
    EveryListMade();
    var r := Places(p, q);
    forall l, x | l in r.lists ensures x in r.lists[l].items <==> x in r.place && r.place[x] == l {
      SpotsAndItems(p, q, l, x);
    }
    forall l | l in r.lists ensures r.lists[l].Valid() {
      SpotsAndItems(p, q, l, 0);
    }
    forall x | x in r.place ensures r.place[x] in r.lists {
      SpotIsMade(p, q, x);
    }
  }

  lemma SpotIsMade(p: nat, q: nat, x: Task)
    requires p < MAX_PRIORITIES && q < MAX_PRIORITIES
    ensures Spot(p, q, x) in StateLists()
  {
    hide StateLists;
    EveryListMade();
  }

  /** Task 3 waits for mutex 0 and task 4 for mutex 1. */
  function Events(): Roster<EventList> {
    Roster(map[PendingReady := EmptyList<Task>(), Waiting(0) := ListView([3], 0), Waiting(1) := ListView([4], 0)],
           map[3 := Waiting(0), 4 := Waiting(1)])
  }

  lemma EventsAgree()
    ensures Events().Consistent()
  {
  }

  function Blocks(one: Tcb, two: Tcb, three: Tcb, four: Tcb): (m: map<Task, Tcb>)
    ensures m.Keys == {IDLE, 1, 2, 3, 4} && |m| == 5
    ensures m[IDLE] == Tcb(0, 0, 0, 0, 7, false) && m[1] == one && m[2] == two && m[3] == three && m[4] == four
  {
    var m := map[IDLE := Tcb(0, 0, 0, 0, 7, false), 1 := one, 2 := two, 3 := three, 4 := four];
    assert m.Keys == {IDLE, 1, 2, 3, 4};
    m
  }

  function Scene(one: Tcb, two: Tcb, three: Tcb, four: Tcb): Sched
    requires 0 < one.priority < MAX_PRIORITIES && two.priority <= one.priority
  {
    Sched(Places(one.priority, two.priority), Events(), Blocks(one, two, three, four), 1, 0, 0, MAX_DELAY, true,
          one.priority, 5, 0, 0, 0, false)
  }

  /** A control block of a task that holds n mutexes. */
  predicate Fits(tcb: Tcb, n: nat) {
    && tcb.mutexesHeld == n && (n == 0 ==> tcb.priority == tcb.basePriority)
    && tcb.priority < MAX_PRIORITIES && tcb.basePriority < MAX_PRIORITIES
    && tcb.eventValue == MAX_PRIORITIES - tcb.priority
  }

  predicate AllFit(one: Tcb, two: Tcb, three: Tcb, four: Tcb, onlyOne: bool) {
    && Fits(one, if onlyOne then 2 else 1) && Fits(two, 0) && Fits(three, if onlyOne then 0 else 1) && Fits(four, 0)
    && 0 < one.priority && two.priority <= one.priority
  }

  lemma PlacesKnown(p: nat, q: nat)
    requires 0 < p < MAX_PRIORITIES && q < MAX_PRIORITIES
    ensures var r := Places(p, q);
      && r.Consistent() && r.place.Keys == {IDLE, 1, 2, 3, 4}
      && (forall i :: 0 <= i < MAX_PRIORITIES ==> Ready(i) in r.lists)
      && Delayed1 in r.lists && Delayed2 in r.lists && SuspendedTasks in r.lists && WaitingTermination in r.lists
      && r.lists[Delayed1].items == [] && r.lists[Delayed2].items == [] && r.lists[WaitingTermination].items == []
      && r.place[IDLE] == Ready(0) && r.place[1] == Ready(p) && r.place[2] == Ready(q)
      && r.place[3] == SuspendedTasks && r.place[4] == SuspendedTasks
      && (q == p ==> r.lists[Ready(p)] == ListView([2, 1], 0))
  {
    PlacesAgree(p, q);
    PlaceOfEach(p, q);
    ItemsOfSome(p, q);
    hide Roster.Consistent, Places;
  }

  lemma PlaceOfEach(p: nat, q: nat)
    ensures var place := Places(p, q).place;
      && place.Keys == {IDLE, 1, 2, 3, 4} && place[IDLE] == Ready(0) && place[1] == Ready(p) && place[2] == Ready(q)
      && place[3] == SuspendedTasks && place[4] == SuspendedTasks
  {
    hide StateLists, Items;
    assert Places(p, q).place.Keys == {IDLE, 1, 2, 3, 4};
  }

  lemma ItemsOfSome(p: nat, q: nat)
    requires 0 < p < MAX_PRIORITIES && q < MAX_PRIORITIES
    ensures var lists := Places(p, q).lists;
      && (forall i :: 0 <= i < MAX_PRIORITIES ==> Ready(i) in lists)
      && Delayed1 in lists && Delayed2 in lists && SuspendedTasks in lists && WaitingTermination in lists
      && lists[Delayed1].items == [] && lists[Delayed2].items == [] && lists[WaitingTermination].items == []
      && (q == p ==> lists[Ready(p)] == ListView([2, 1], 0))
  {
    hide StateLists, Spot;
    EveryListMade();
  }

  lemma SceneShape(one: Tcb, two: Tcb, three: Tcb, four: Tcb, b: bool)
    requires AllFit(one, two, three, four, b)
    ensures var s := Scene(one, two, three, four);
      && s.Shape() && s.DelaysSorted() && s.EventWaitersBlocked() && s.ReadyListsMatch()
  {
    hide Roster.Consistent, Places, Events, Blocks, InWakeOrder;
    PlacesKnown(one.priority, two.priority);
    EventsKnown();
    NobodyInOrder(Blocks(one, two, three, four));
  }

  lemma EventsKnown()
    ensures var r := Events();
      && r.Consistent() && r.place == map[3 := Waiting(0), 4 := Waiting(1)]
      && PendingReady in r.lists && Waiting(0) in r.lists && Waiting(1) in r.lists
      && r.lists[Waiting(0)].items == [3] && r.lists[Waiting(1)].items == [4]
  {
    EventsAgree();
    hide Roster.Consistent;
  }

  lemma SceneInv(one: Tcb, two: Tcb, three: Tcb, four: Tcb, b: bool)
    requires AllFit(one, two, three, four, b)
    ensures Scene(one, two, three, four).Inv()
  {
    hide Sched.Core, Sched.Timely, Sched.Settled, Places, Events, Blocks, AllFit;
    SceneCore(one, two, three, four, b);
    SceneTimely(one, two, three, four, b);
  }

  lemma SceneCore(one: Tcb, two: Tcb, three: Tcb, four: Tcb, b: bool)
    requires AllFit(one, two, three, four, b)
    ensures Scene(one, two, three, four).Core()
  {
    hide Roster.Consistent, Places, Events, Blocks, Sched.Shape, Sched.DelaysSorted, Sched.EventWaitersBlocked,
         Sched.ReadyListsMatch, AllFit;
    SceneShape(one, two, three, four, b);
    NobodyDoomed(one, two, three, four, b);
  }

  lemma SceneTimely(one: Tcb, two: Tcb, three: Tcb, four: Tcb, b: bool)
    requires AllFit(one, two, three, four, b)
    ensures Scene(one, two, three, four).Timely() && Scene(one, two, three, four).Settled()
  {
    hide Places, Events, Blocks, AllFit;
    PlaceOfEach(one.priority, two.priority);
    EventsKnown();
  }

  lemma NobodyDoomed(one: Tcb, two: Tcb, three: Tcb, four: Tcb, b: bool)
    requires AllFit(one, two, three, four, b)
    ensures var s := Scene(one, two, three, four);
      WaitingTermination in s.state.lists && s.state.lists[WaitingTermination].items == [] && |s.tcbs| == 5
      && IDLE in s.state.place && s.state.place[IDLE].Ready?
  {
    hide Places, Events, Blocks;
    ItemsOfSome(one.priority, two.priority);
    PlaceOfEach(one.priority, two.priority);
  }

  lemma SceneOnTop(one: Tcb, two: Tcb, three: Tcb, four: Tcb, b: bool)
    requires AllFit(one, two, three, four, b)
    ensures OnTop(Scene(one, two, three, four))
  {
    hide Places, Events, Blocks;
    PlaceOfEach(one.priority, two.priority);
  }

  function HeldBoth(a: Task, b: Task): map<nat, Mutex> {
    map[0 := Mutex(0, HeldBy(a), 0), 1 := Mutex(0, HeldBy(b), 0)]
  }

  lemma HeldCount(a: Task, b: Task, x: Task)
    ensures |Holds(HeldBoth(a, b), x)| == (if a == x then 1 else 0) + (if b == x then 1 else 0)
  {
    if a == x && b == x {
      assert Holds(HeldBoth(a, b), x) == {0, 1};
    } else if a == x {
      assert Holds(HeldBoth(a, b), x) == {0};
    } else if b == x {
      assert Holds(HeldBoth(a, b), x) == {1};
    } else {
      assert Holds(HeldBoth(a, b), x) == {};
    }
  }

  /** Task 1 holds mutex 0, and mutex 1 is held by it too or by task 3. */
  function SceneOf(one: Tcb, two: Tcb, three: Tcb, four: Tcb, onlyOne: bool): System
    requires AllFit(one, two, three, four, onlyOne)
  {
    System(Scene(one, two, three, four), HeldBoth(1, if onlyOne then 1 else 3))
  }

  function HeldBySome(onlyOne: bool, x: Task): nat {
    if x == 1 then (if onlyOne then 2 else 1) else if x == 3 && !onlyOne then 1 else 0
  }

  lemma BlockFits(one: Tcb, two: Tcb, three: Tcb, four: Tcb, b: bool, x: Task)
    requires AllFit(one, two, three, four, b) && x in {IDLE, 1, 2, 3, 4}
    ensures x in Blocks(one, two, three, four) && Fits(Blocks(one, two, three, four)[x], HeldBySome(b, x))
  {
  }

  lemma NobodyTerminated(p: nat, q: nat, x: Task)
    ensures x in Places(p, q).place ==> Places(p, q).place[x] != WaitingTermination
  {
    PlaceOfEach(p, q);
  }

  lemma SceneTask(one: Tcb, two: Tcb, three: Tcb, four: Tcb, b: bool, x: Task)
    requires AllFit(one, two, three, four, b) && x in {IDLE, 1, 2, 3, 4}
    ensures x in SceneOf(one, two, three, four, b).s.tcbs
    ensures TaskAccounted(SceneOf(one, two, three, four, b), x)
    ensures Good(ItemFollows, SceneOf(one, two, three, four, b).s.tcbs[x])
  {
    hide Holds, Places, Events, Blocks, HeldBoth, AllFit;
    HeldCount(1, if b then 1 else 3, x);
    NobodyTerminated(one.priority, two.priority, x);
    BlockFits(one, two, three, four, b, x);
  }

  lemma SceneCounts(one: Tcb, two: Tcb, three: Tcb, four: Tcb, b: bool)
    requires AllFit(one, two, three, four, b)
    ensures CountsMatch(SceneOf(one, two, three, four, b))
  {
    hide Places, Events, Blocks, Fits;
    EventsKnown();
  }

  lemma SceneAccounted(one: Tcb, two: Tcb, three: Tcb, four: Tcb, b: bool)
    requires AllFit(one, two, three, four, b)
    ensures Accounted(SceneOf(one, two, three, four, b))
    ensures AllGood(ItemFollows, SceneOf(one, two, three, four, b).s) && OnTop(SceneOf(one, two, three, four, b).s)
  {
    SceneInv(one, two, three, four, b);
    SceneOnTop(one, two, three, four, b);
    SceneCounts(one, two, three, four, b);
    hide Sched.Inv, TaskAccounted, Places, Events, Blocks, Good, OnTop, CountsMatch, AllFit, HeldBoth;
    var sys := SceneOf(one, two, three, four, b);
    forall x | x in sys.s.tcbs ensures TaskAccounted(sys, x) && Good(ItemFollows, sys.s.tcbs[x]) {
      SceneTask(one, two, three, four, b, x);
    }
  }

  // ----- a priority is set, the time slice ends, a wait for mutex 0 times out -----

  function Ranked(tcb: Tcb, p: nat): Tcb {
    tcb.(priority := if tcb.basePriority == tcb.priority then p else tcb.priority, basePriority := p,
         eventValue := MAX_PRIORITIES - Clamped(p))
  }

  /** A blocked task gets another base priority. */
  lemma SetBlocked(s: Sched, x: Task, p: nat)
    requires s.Shape() && x in s.tcbs && x in s.state.place && !s.state.place[x].Ready? && p < MAX_PRIORITIES
    requires s.tcbs[x].basePriority != p && s.tcbs[x].eventValue < VALUE_IN_USE
    ensures PrioritySet(s, x, p) == s.(tcbs := s.tcbs[x := Ranked(s.tcbs[x], p)])
  {
    hide Sched.Shape;
    s.TaskKnown(x);
  }

  lemma BlocksRanked(one: Tcb, two: Tcb, three: Tcb, four: Tcb, t: Tcb)
    ensures Blocks(one, two, three, four)[3 := t] == Blocks(one, two, t, four)
  {
  }

  /** After the first step. */
  function Reranked(one: Tcb, two: Tcb, three: Tcb, four: Tcb, p: nat): System
    requires AllFit(one, two, three, four, false)
  {
    SceneOf(one, two, three, four, false)
    .(s := Scene(one, two, three, four).(tcbs := Blocks(one, two, Ranked(three, p), four)))
  }

  lemma FirstStep(one: Tcb, two: Tcb, three: Tcb, four: Tcb, p: nat)
    requires AllFit(one, two, three, four, false) && p < MAX_PRIORITIES && three.basePriority != p
    ensures var sys, a := SceneOf(one, two, three, four, false), KernelStep(SetPriority(3, p));
      SysEnabled(sys, a) && SysStep(sys, a) == Reranked(one, two, three, four, p)
  {
    hide Accounted, Sched.Inv, Sched.Shape, Places, Events, Blocks, HeldBoth, PrioritySet, Holds, Ranked;
    var sys := SceneOf(one, two, three, four, false);
    SceneAccounted(one, two, three, four, false);
    AccountedInv(sys);
    PlaceOfEach(one.priority, two.priority);
    SetPriorityStep(sys.s, 3, p);
    SetBlocked(sys.s, 3, p);
    BlocksRanked(one, two, three, four, Ranked(three, p));
  }

  /** The next task of the highest priority. */
  lemma NextOf(s: Sched, p: nat)
    requires s.Core() && s.Shape() && s.suspended == 0 && OnTop(s) && s.tcbs[s.current].priority == p
    requires Ready(p) in s.state.lists && s.state.lists[Ready(p)] == ListView([2, 1], 0)
    requires s.state.place[s.current] == Ready(p)
    ensures var r := SwitchContext(s);
      && r.current == 2 && r.tcbs == s.tcbs && r.event == s.event && r.state.place == s.state.place
  {
    hide Sched.Core, SwitchContext, Roster.Consistent;
    SwitchPicksHighest(s);
    SwitchFrame(s);
    var y := SwitchContext(s).current;
    assert y in s.state.place.Keys;
    assert IsRunnable(s, y) && IsRunnable(s, s.current);
  }

  lemma RerankedOnTop(one: Tcb, two: Tcb, three: Tcb, four: Tcb, p: nat)
    requires AllFit(one, two, three, four, false)
    ensures OnTop(Reranked(one, two, three, four, p).s)
  {
    hide Places, Events, Blocks, Ranked;
    PlaceOfEach(one.priority, two.priority);
  }

  lemma SecondStep(one: Tcb, two: Tcb, three: Tcb, four: Tcb, p: nat)
    requires AllFit(one, two, three, four, false) && p < MAX_PRIORITIES && three.basePriority != p
    requires one.priority == two.priority
    ensures var sys := Reranked(one, two, three, four, p);
      && SysEnabled(sys, KernelStep(Switch))
      && var r := SysStep(sys, KernelStep(Switch));
         && r.mutexes == HeldBoth(1, 3) && r.s.current == 2 && r.s.event == Events()
         && r.s.tcbs == Blocks(one, two, Ranked(three, p), four)
         && r.s.state.place == Places(one.priority, two.priority).place
  {
    hide Accounted, Sched.Inv, Sched.Shape, Sched.Core, Places, Events, Blocks, HeldBoth, SwitchContext, Holds,
         Ranked, OnTop;
    FirstStep(one, two, three, four, p);
    SysStepAccounts(SceneOf(one, two, three, four, false), KernelStep(SetPriority(3, p)));
    var sys := Reranked(one, two, three, four, p);
    AccountedInv(sys);
    SwitchIsStep(sys.s);
    RerankedOnTop(one, two, three, four, p);
    PlaceOfEach(one.priority, two.priority);
    ItemsOfSome(one.priority, two.priority);
    InvParts(sys.s);
    NextOf(sys.s, one.priority);
  }

  lemma InvParts(s: Sched)
    requires s.Inv()
    ensures s.Core() && s.Shape()
  {
    hide Sched.Shape, Sched.ReadyListsMatch, Sched.DelaysSorted, Sched.EventWaitersBlocked;
  }

  ghost predicate TimesOut(sys: System, one: Tcb, two: Tcb, three: Tcb, four: Tcb) {
    && Accounted(sys) && sys.mutexes == HeldBoth(1, 3) && sys.s.current == 2 && sys.s.event == Events()
    && sys.s.tcbs == Blocks(one, two, three, four)
    && sys.s.state.place == Places(one.priority, two.priority).place
  }

  /** Task 3 is the first to wait for mutex 0. */
  lemma FirstInLine(sys: System, one: Tcb, two: Tcb, three: Tcb, four: Tcb)
    requires TimesOut(sys, one, two, three, four)
    ensures sys.s.Inv() && sys.s.Shape() && Waiting(0) in sys.s.event.lists
    ensures HighestWaiting(sys, 0) == MAX_PRIORITIES - three.eventValue && FirstWaiter(sys, 0) == three.priority
  {
    hide Accounted, Sched.Inv, Sched.Shape, Places, Events, Blocks;
    AccountedInv(sys);
    InvShape(sys.s);
    EventsKnown();
  }

  /** Task 2 was waiting for mutex 0. */
  lemma ThirdStep(sys: System, one: Tcb, two: Tcb, three: Tcb, four: Tcb)
    requires TimesOut(sys, one, two, three, four) && Fits(one, 1)
    requires 0 < three.eventValue <= MAX_PRIORITIES
    ensures SysEnabled(sys, GiveUpOn(0)) && sys.s.Shape() && Waiting(0) in sys.s.event.lists
    ensures HighestWaiting(sys, 0) == MAX_PRIORITIES - three.eventValue && FirstWaiter(sys, 0) == three.priority
    ensures var r := SysStep(sys, GiveUpOn(0));
      1 in r.s.tcbs && r.s.tcbs[1].priority == Max(one.basePriority, MAX_PRIORITIES - three.eventValue)
  {
    hide Accounted, Sched.Inv, Sched.Shape, Places, Events, Blocks, GiveUp, Holds, HighestWaiting, FirstWaiter;
    HeldBothIs();
    FirstInLine(sys, one, two, three, four);
    PlaceOfEach(one.priority, two.priority);
    GiveUpAccounts(sys, 0);
  }

  lemma HeldBothIs()
    ensures 0 in HeldBoth(1, 3) && HeldBoth(1, 3)[0] == Mutex(0, HeldBy(1), 0)
  {
  }

  /** The whole run. */
  lemma Timeline(one: Tcb, two: Tcb, three: Tcb, four: Tcb, p: nat)
    returns (states: seq<System>, actions: seq<SysAction>)
    requires AllFit(one, two, three, four, false) && p < MAX_PRIORITIES && three.basePriority != p
    requires one.priority == two.priority
    ensures actions == [KernelStep(SetPriority(3, p)), KernelStep(Switch), GiveUpOn(0)]
    ensures IsSysRun(states, actions) && |states| == 4 && states[0] == SceneOf(one, two, three, four, false)
    ensures TimesOut(states[2], one, two, Ranked(three, p), four)
    ensures SysEnabled(states[2], GiveUpOn(0)) && states[3] == SysStep(states[2], GiveUpOn(0))
  {
    hide Accounted, Places, Events, Blocks, HeldBoth, SysStep, SysLegal, Ranked, AllFit, SceneOf, Reranked;
    actions := [KernelStep(SetPriority(3, p)), KernelStep(Switch), GiveUpOn(0)];
    var s0, s1 := SceneOf(one, two, three, four, false), Reranked(one, two, three, four, p);
    FirstStep(one, two, three, four, p);
    SecondStep(one, two, three, four, p);
    var s2 := SysStep(s1, KernelStep(Switch));
    SysStepAccounts(s1, KernelStep(Switch));
    FitsOne(one, two, three, four);
    RankedItem(three, p);
    ThirdStep(s2, one, two, Ranked(three, p), four);
    states := [s0, s1, s2, SysStep(s2, GiveUpOn(0))];
  }

  lemma FitsOne(one: Tcb, two: Tcb, three: Tcb, four: Tcb)
    requires AllFit(one, two, three, four, false)
    ensures Fits(one, 1)
  {
  }

  lemma RankedItem(tcb: Tcb, p: nat)
    requires p < MAX_PRIORITIES
    ensures Ranked(tcb, p).eventValue == MAX_PRIORITIES - p
  {
  }

  // ----- an item that misleads -----

  /** Task 1 of base priority 1 holds mutex 0 and runs on priority 5, which task 2 has lent it; task 2 has just
      timed out.  Task 3 of base priority 2 waits for mutex 0, on priority 5 too, since it holds mutex 1,
      for which task 4 waits.  Task 1 sets the base priority of task 3 to 3: task 3 goes on at priority 5, but
      its event item now stands for 3.  Then task 2 runs and gives up: task 1 drops to 3, below task 3, which
      still waits for it at 5. */
  lemma ItemMisleads() returns (states: seq<System>, actions: seq<SysAction>)
    ensures actions == [KernelStep(SetPriority(3, 3)), KernelStep(Switch), GiveUpOn(0)]
    ensures IsSysRun(states, actions) && |states| == 4
    ensures Accounted(states[0]) && AllGood(ItemFollows, states[0].s) && OnTop(states[0].s)
    ensures SysSpoils(ItemFollows, states[0], actions[0])
    ensures 0 in states[2].mutexes && states[2].mutexes[0].holder == HeldBy(1) && states[2].s.current == 2
    ensures states[2].s.Shape() && Waiting(0) in states[2].s.event.lists && FirstWaiter(states[2], 0) == 5
    ensures 1 in states[3].s.tcbs && states[3].s.tcbs[1].priority == 3
  {
    hide Accounted, Places, Events, Blocks, HeldBoth, SysStep, SysLegal, IsSysRun, OnTop, AllGood;
    var one, two := Tcb(5, 1, 1, 0, 2, false), Tcb(5, 5, 0, 0, 2, false);
    var three, four := Tcb(5, 2, 1, 0, 2, false), Tcb(5, 5, 0, 0, 2, false);
    SceneAccounted(one, two, three, four, false);
    states, actions := Timeline(one, two, three, four, 3);
    HeldBothIs();
    ThirdStep(states[2], one, two, Ranked(three, 3), four);
  }

  // ----- a timeout after which nobody asks for a switch -----

  /** Task 1 of base priority 1 holds mutex 0 and runs on priority 2, which task 2 has lent it; task 2 has just
      timed out.  Task 3 waits for the mutex at priority 1.  Task 1 sets the priority of task 3 to 5, which
      asks for a switch.  Then task 2 runs and gives up: task 1 gets priority 5 and is ready, and nobody asks for
      task 2 to make way. */
  lemma TimeoutIsOverlooked() returns (states: seq<System>, actions: seq<SysAction>)
    ensures actions == [KernelStep(SetPriority(3, 5)), KernelStep(Switch), GiveUpOn(0)]
    ensures IsSysRun(states, actions) && |states| == 4
    ensures Accounted(states[0]) && OnTop(states[0].s)
    ensures SysEnabled(states[2], GiveUpOn(0)) && !SysAsks(states[2], GiveUpOn(0)) && OnTop(states[2].s)
    ensures states[2].s.current == states[3].s.current == 2 && !OnTop(states[3].s)
    ensures 0 in states[2].mutexes && TimeoutOverlooks(states[2], 0)
  {
    hide Accounted, Places, Events, Blocks, HeldBoth, SysStep, SysLegal, IsSysRun, OnTop, TimeoutOverlooks;
    var one, two := Tcb(2, 1, 1, 0, 5, false), Tcb(2, 2, 0, 0, 5, false);
    var three, four := Tcb(1, 1, 1, 0, 6, false), Tcb(1, 1, 0, 0, 6, false);
    SceneAccounted(one, two, three, four, false);
    states, actions := Timeline(one, two, three, four, 5);
    HeldBothIs();
    ThirdStep(states[2], one, two, Ranked(three, 5), four);
    TimesOutOnTop(states[2], one, two, Ranked(three, 5), four);
    HolderIsRaised(states[2], one, two, Ranked(three, 5), four);
    GiveUpIsExact(states[2], 0);
    GiveUpKeepsCurrent(states[2], 0);
  }

  lemma TimesOutOnTop(sys: System, one: Tcb, two: Tcb, three: Tcb, four: Tcb)
    requires TimesOut(sys, one, two, three, four) && one.priority == two.priority
    ensures OnTop(sys.s)
  {
    hide Accounted, Places, Events, Blocks;
    PlaceOfEach(one.priority, two.priority);
  }

  lemma HolderIsRaised(sys: System, one: Tcb, two: Tcb, three: Tcb, four: Tcb)
    requires TimesOut(sys, one, two, three, four) && Fits(one, 1)
    requires 0 < three.eventValue <= MAX_PRIORITIES && MAX_PRIORITIES - three.eventValue > two.priority
    ensures 0 in sys.mutexes && TimeoutOverlooks(sys, 0)
  {
    hide Accounted, Sched.Inv, Sched.Shape, Places, Events, Blocks, HighestWaiting, FirstWaiter, HeldBoth;
    HeldBothIs();
    FirstInLine(sys, one, two, three, four);
    PlaceOfEach(one.priority, two.priority);
  }

  lemma GiveUpKeepsCurrent(sys: System, m: nat)
    requires SysEnabled(sys, GiveUpOn(m))
    ensures SysStep(sys, GiveUpOn(m)).s.current == sys.s.current
  {
    hide Accounted, Sched.Inv, DisinheritAfterTimeout, HighestWaiting, Running, NothingLent;
    HolderFacts(sys, m);
    AccountedInv(sys);
    WaitersHavePriorities(sys, m);
    if sys.mutexes[m].holder.HeldBy? {
      GiveUpChanged(sys.s, sys.mutexes[m].holder.task, HighestWaiting(sys, m));
    }
  }

  // ----- a give after which nobody asks for a switch -----

  lemma WakeLeaves(s: Sched, e: EventList, f: EventList)
    requires s.Shape() && e in s.event.lists && s.event.lists[e].items != [] && f in s.event.lists && f != e
    requires s.suspended == 0
    ensures var r, x := RemoveFromEventList(s, e), s.event.lists[e].items[0];
      && x in s.tcbs && s.current in s.tcbs && f in r.event.lists && r.event.lists[f] == s.event.lists[f]
      && r.tcbs == s.tcbs && r.current == s.current && r.suspended == 0
      && r.state.place == s.state.place[x := Ready(s.tcbs[x].priority)]
      && r.yieldPending == (s.yieldPending || s.tcbs[x].priority > s.tcbs[s.current].priority)
  {
    EventHead(s, e);
    hide Roster.Consistent, Roster.Move;
  }

  lemma DisinheritLeaves(s: Sched)
    requires s.Inv() && s.Shape() && Running(s) && s.tcbs[s.current].mutexesHeld > 0
    requires s.tcbs[s.current].basePriority < MAX_PRIORITIES
    ensures var r := Disinherit(s);
      && r.event == s.event && r.current == s.current && r.suspended == s.suspended && r.yieldPending == s.yieldPending
      && s.current in s.state.place && r.tcbs == s.tcbs[s.current := Disinherited(s.tcbs[s.current])]
      && r.state.place == s.state.place[s.current := Ready(Disinherited(s.tcbs[s.current]).priority)]
  {
    hide Sched.Inv, Sched.Shape, Disinherit, OnlyMoves;
    DisinheritSafe(s);
  }

  /** Task 1 of base priority 1 holds both mutexes; task 3 of priority 5 waits for mutex 0 and has lent it its
      priority; task 4 of priority 0 waits for mutex 1. */
  function Nested(): System {
    SceneOf(Tcb(5, 1, 2, 0, 2, false), Tcb(0, 0, 0, 0, 7, false), Tcb(5, 5, 0, 0, 2, false), Tcb(0, 0, 0, 0, 7, false),
            true)
  }

  /** What the first give leaves of that. */
  ghost predicate Given(sys: System) {
    && Accounted(sys) && OnTop(sys.s) && Running(sys.s) && sys.s.current == 1 && !sys.s.yieldPending
    && sys.s.suspended == 0
    && 1 in sys.mutexes && sys.mutexes[1].holder == HeldBy(1)
    && sys.s.tcbs == Blocks(Tcb(5, 1, 1, 0, 2, false), Tcb(0, 0, 0, 0, 7, false), Tcb(5, 5, 0, 0, 2, false),
                            Tcb(0, 0, 0, 0, 7, false))
    && IsRunnable(sys.s, 3)
    && Waiting(1) in sys.s.event.lists && sys.s.event.lists[Waiting(1)].items == [4]
  }

  lemma NestedParts()
    ensures var sys, s := Nested(), Nested().s;
      && Accounted(sys) && OnTop(s) && s.Inv() && s.Shape() && Running(s) && s.current == 1 && !s.yieldPending
      && s.suspended == 0 && s.event == Events() && sys.mutexes == HeldBoth(1, 1)
      && s.tcbs == Blocks(Tcb(5, 1, 2, 0, 2, false), Tcb(0, 0, 0, 0, 7, false), Tcb(5, 5, 0, 0, 2, false),
                          Tcb(0, 0, 0, 0, 7, false))
      && 3 in s.state.place && 1 in s.state.place && s.state.place[1] == Ready(5)
  {
    hide Accounted, OnTop, Sched.Inv, Sched.Shape, Places, Events, Blocks, HeldBoth;
    SceneAccounted(Tcb(5, 1, 2, 0, 2, false), Tcb(0, 0, 0, 0, 7, false), Tcb(5, 5, 0, 0, 2, false),
                   Tcb(0, 0, 0, 0, 7, false), true);
    PlaceOfEach(5, 0);
    AccountedInv(Nested());
    InvShape(Nested().s);
  }

  lemma BothHeldByOne(m: nat)
    requires m == 0 || m == 1
    ensures m in HeldBoth(1, 1) && HeldBoth(1, 1)[m] == Mutex(0, HeldBy(1), 0)
  {
  }

  lemma BlockOfOne(two: Tcb, three: Tcb, four: Tcb, one: Tcb, t: Tcb)
    ensures Blocks(one, two, three, four)[1 := t] == Blocks(t, two, three, four)
  {
  }

  /** Giving mutex 0 wakes task 3; task 1 keeps priority 5, since it holds mutex 1. */
  lemma FirstGive()
    ensures SysEnabled(Nested(), GiveBack(0)) && !SysAsks(Nested(), GiveBack(0))
    ensures Given(SysStep(Nested(), GiveBack(0)))
  {
    hide Accounted, OnTop, Sched.Inv, Sched.Shape, Nested, Events, Blocks, HeldBoth, Running, RemoveFromEventList,
         Disinherit;
    var sys := Nested();
    NestedParts();
    BothHeldByOne(0);
    BothHeldByOne(1);
    EventsKnown();
    DisinheritLeaves(sys.s);
    WakeLeaves(Disinherit(sys.s), Waiting(0), Waiting(1));
    BlockOfOne(Tcb(0, 0, 0, 0, 7, false), Tcb(5, 5, 0, 0, 2, false), Tcb(0, 0, 0, 0, 7, false),
               Tcb(5, 1, 2, 0, 2, false), Tcb(5, 1, 1, 0, 2, false));
    SysStepAccounts(sys, GiveBack(0));
    GiveIsExact(sys, 0);
    StillRunning(SysStep(sys, GiveBack(0)).s);
  }

  lemma StillRunning(s: Sched)
    requires s.current in s.state.place && s.state.place[s.current].Ready?
    ensures Running(s)
  {
  }

  /** Giving mutex 1 takes task 1 down to priority 1 and wakes task 4, which is why nobody asks for it to make way
      for task 3. */
  lemma SecondGive(sys: System)
    requires Given(sys)
    ensures SysEnabled(sys, GiveBack(1)) && sys.s.Shape() && GiveOverlooks(sys, 1)
    ensures var r := SysStep(sys, GiveBack(1));
      && r.s.current == 1 && !r.s.yieldPending && 1 in r.s.tcbs && r.s.tcbs[1].priority == 1
      && IsRunnable(r.s, 3) && r.s.tcbs[3].priority == 5
  {
    hide Accounted, OnTop, Sched.Inv, Sched.Shape, Events, Blocks, Running, RemoveFromEventList, Disinherit;
    HolderFacts(sys, 1);
    AccountedInv(sys);
    DisinheritLeaves(sys.s);
    WakeLeaves(Disinherit(sys.s), Waiting(1), PendingReady);
    assert IsRunnable(sys.s, 3);
  }

  /** Task 1 gives mutex 0, which wakes task 3 but leaves task 1 on priority 5, and then mutex 1: it drops to 1,
      but since task 4 waits and has no higher priority, nothing asks for a switch to task 3. */
  lemma GiveIsOverlooked() returns (states: seq<System>, actions: seq<SysAction>)
    ensures actions == [GiveBack(0), GiveBack(1)] && IsSysRun(states, actions) && |states| == 3
    ensures Accounted(states[0]) && OnTop(states[0].s)
    ensures SysEnabled(states[0], GiveBack(0)) && !SysAsks(states[0], GiveBack(0))
    ensures SysEnabled(states[1], GiveBack(1)) && !SysAsks(states[1], GiveBack(1)) && OnTop(states[1].s)
    ensures states[2].s.current == 1 && !states[2].s.yieldPending
    ensures 1 in states[2].s.tcbs && states[2].s.tcbs[1].priority == 1
    ensures IsRunnable(states[2].s, 3) && states[2].s.tcbs[3].priority == 5
  {
    hide Accounted, OnTop, Sched.Inv, Sched.Shape, Nested, SysStep, SysLegal, Give, GiveAsks, GiveOverlooks, Blocks;
    NestedParts();
    FirstGive();
    var s1 := SysStep(Nested(), GiveBack(0));
    SecondGive(s1);
    GiveIsExact(s1, 1);
    actions := [GiveBack(0), GiveBack(1)];
    states := [Nested(), s1, SysStep(s1, GiveBack(1))];
  }
}
