/** Mutexes with priority inheritance: queue.c on top of the scheduler. */
module Mutexes {
  import opened Ticks
  import opened Rosters
  import opened Scheduler
  import opened SchedulerTime
  import opened SchedulerTasks
  import opened SchedulerSafety

  datatype Holder = Nobody | HeldBy(task: Task)

  /** A queue of type queueQUEUE_IS_MUTEX: uxMessagesWaiting, xMutexHolder and uxRecursiveCallCount. */
  datatype Mutex = Mutex(count: nat, holder: Holder, recursion: nat)

  /** Mutex m keeps its waiting tasks on the event list Waiting(m). */
  datatype System = System(s: Sched, mutexes: map<nat, Mutex>)

  /** The mutexes that name task x as their holder. */
  function Holds(mutexes: map<nat, Mutex>, x: Task): (h: set<nat>)
    ensures forall m :: m in h <==> m in mutexes && mutexes[m].holder == HeldBy(x)
  {
    set m | m in mutexes && mutexes[m].holder == HeldBy(x)
  }

  ghost predicate CountsMatch(sys: System) {
    forall m :: m in sys.mutexes ==>
      && Waiting(m) in sys.s.event.lists
      && sys.mutexes[m].count == (if sys.mutexes[m].holder == Nobody then 1 else 0)
      && (sys.mutexes[m].holder.HeldBy? ==> sys.mutexes[m].holder.task in sys.s.tcbs)
  }

  /** The event item value is free, and then it follows a priority, or in use by an event group. */
  predicate ValueInRange(v: Tick) { 1 <= v <= MAX_PRIORITIES || v >= VALUE_IN_USE }

  ghost predicate TaskAccounted(sys: System, x: Task)
    requires x in sys.s.tcbs
  {
    var tcb := sys.s.tcbs[x];
    && tcb.mutexesHeld == |Holds(sys.mutexes, x)|
    && (tcb.mutexesHeld == 0 ==> tcb.priority == tcb.basePriority)
    && (x in sys.s.state.place && sys.s.state.place[x] == WaitingTermination ==> tcb.mutexesHeld == 0)
    && ValueInRange(tcb.eventValue)
    && (x in sys.s.event.place && sys.s.event.place[x].Waiting? && sys.s.event.place[x].id in sys.mutexes ==>
          tcb.eventValue <= MAX_PRIORITIES)
  }

  /** A count of 0 goes with a recorded holder; the holder's count of mutexes is the number of mutexes
      that name it; whoever holds none runs at its base priority. */
  ghost predicate Accounted(sys: System) {
    && sys.s.Inv() && CountsMatch(sys)
    && forall x :: x in sys.s.tcbs ==> TaskAccounted(sys, x)
  }

  // ----- the operations -----

  /** xQueueSemaphoreTake of a mutex that is available. */
  function Take(sys: System, m: nat): System
    requires sys.s.Shape() && m in sys.mutexes && sys.mutexes[m].count > 0
  {
    System(IncrementHeld(sys.s),
           sys.mutexes[m := sys.mutexes[m].(count := sys.mutexes[m].count - 1, holder := HeldBy(sys.s.current))])
  }

  /** The part of xQueueSemaphoreTake that lends the running task's priority to the holder and blocks,
      with the scheduler suspended and the queue locked. */
  function BlockOn(sys: System, m: nat, d: Tick): System
    requires sys.s.Shape() && m in sys.mutexes && Waiting(m) in sys.s.event.lists
    requires sys.mutexes[m].holder.HeldBy? ==> sys.mutexes[m].holder.task in sys.s.tcbs
    requires sys.s.current !in sys.s.event.place
  {
    var h := sys.mutexes[m].holder;
    var lent := if h.HeldBy? then Inherit(sys.s, h.task) else sys.s;
    InheritKeepsEvents(sys.s, h);
    sys.(s := PlaceOnEventList(lent, Waiting(m), d))
  }

  lemma InheritKeepsEvents(s: Sched, h: Holder)
    requires s.Shape() && (h.HeldBy? ==> h.task in s.tcbs)
    ensures h.HeldBy? ==> Inherit(s, h.task).event == s.event && Inherit(s, h.task).current == s.current
  {
    hide Roster.Consistent, Roster.Move;
  }

  /** prvGetDisinheritPriorityAfterTimeout */
  function HighestWaiting(sys: System, m: nat): int
    requires sys.s.Shape() && Waiting(m) in sys.s.event.lists
  {
    var waiters := sys.s.event.lists[Waiting(m)].items;
    if waiters == [] then IDLE_PRIORITY
    else
      EventHead(sys.s, Waiting(m));
      MAX_PRIORITIES - sys.s.tcbs[waiters[0]].eventValue
  }

  /** tskIDLE_PRIORITY */
  const IDLE_PRIORITY: nat := 0

  /** The end of xQueueSemaphoreTake after a timeout, when the wait had lent a priority. */
  function GiveUp(sys: System, m: nat): System
    requires sys.s.Shape() && m in sys.mutexes && Waiting(m) in sys.s.event.lists
    requires sys.mutexes[m].holder.HeldBy? ==> sys.mutexes[m].holder.task in sys.s.tcbs
    requires 0 <= HighestWaiting(sys, m) < MAX_PRIORITIES
  {
    var h := sys.mutexes[m].holder;
    if h.HeldBy? then sys.(s := DisinheritAfterTimeout(sys.s, h.task, HighestWaiting(sys, m))) else sys
  }

  /** xQueueGenericSend of a mutex by its holder: prvCopyDataToQueue, then wake the first waiter. */
  function Give(sys: System, m: nat): System
    requires sys.s.Shape() && m in sys.mutexes && Waiting(m) in sys.s.event.lists
    requires sys.mutexes[m].holder == HeldBy(sys.s.current) && sys.s.tcbs[sys.s.current].mutexesHeld > 0
  {
    var given := Disinherit(sys.s);
    DisinheritKeepsEvents(sys.s);
    var woken := if given.event.lists[Waiting(m)].items != [] then RemoveFromEventList(given, Waiting(m)) else given;
    System(woken, sys.mutexes[m := sys.mutexes[m].(count := sys.mutexes[m].count + 1, holder := Nobody)])
  }

  /** Whether xQueueGenericSend then yields: if somebody waits, only if the first waiter outranks the giver;
      that xTaskPriorityDisinherit asked for it counts only if nobody waits. */
  predicate GiveAsks(sys: System, m: nat)
    requires sys.s.Shape() && m in sys.mutexes && Waiting(m) in sys.s.event.lists
    requires sys.s.tcbs[sys.s.current].mutexesHeld > 0
  {
    var given, x := Disinherit(sys.s), sys.s.current;
    DisinheritKeepsEvents(sys.s);
    var waiters := given.event.lists[Waiting(m)].items;
    if waiters != [] then
      EventHead(given, Waiting(m));
      given.tcbs[waiters[0]].priority > given.tcbs[x].priority
    else given.tcbs[x].priority != sys.s.tcbs[x].priority
  }

  /** Whether a give asks for a switch does not depend on how often the mutex was taken. */
  lemma SameGive(sys: System, r: System, m: nat)
    requires sys.s.Shape() && m in sys.mutexes && m in r.mutexes && Waiting(m) in sys.s.event.lists && r.s == sys.s
    requires sys.s.tcbs[sys.s.current].mutexesHeld > 0
    ensures GiveAsks(sys, m) == GiveAsks(r, m)
  {
    hide Sched.Shape, Disinherit;
  }

  lemma DisinheritKeepsEvents(s: Sched)
    requires s.Shape() && s.tcbs[s.current].mutexesHeld > 0
    ensures Disinherit(s).event == s.event && Disinherit(s).current == s.current
  {
    hide Roster.Consistent, Roster.Move;
  }

  // ----- accounting -----

  lemma SamePlaceIfSameWhere(s: Sched, r: Sched, x: Task)
    requires x in s.tcbs && x in s.state.place && x in r.tcbs && x in r.state.place && Where(r, x) == Where(s, x)
    ensures r.state.place[x] == WaitingTermination <==> s.state.place[x] == WaitingTermination
  {
  }

  lemma UntouchedAccounted(sys: System, r: System, x: Task)
    requires x in sys.s.tcbs && x in r.s.tcbs && TaskAccounted(sys, x) && Untouched(sys.s, r.s, x)
    requires Holds(r.mutexes, x) == Holds(sys.mutexes, x) && r.mutexes.Keys == sys.mutexes.Keys
    ensures TaskAccounted(r, x)
  {
    SamePlaceIfSameWhere(sys.s, r.s, x);
    hide Where, Holds;
  }

  /** Everybody but x is untouched, x is accounted for: then the system is. */
  lemma AllAccounted(sys: System, r: System, x: Task)
    requires Accounted(sys) && r.s.Inv() && OnlyMoves(sys.s, r.s, x) && CountsMatch(r)
    requires r.s.tcbs.Keys == sys.s.tcbs.Keys && x in r.s.tcbs && TaskAccounted(r, x)
    requires forall y :: y in r.s.tcbs && y != x ==> Holds(r.mutexes, y) == Holds(sys.mutexes, y)
    requires r.mutexes.Keys == sys.mutexes.Keys
    ensures Accounted(r)
  {
    hide Holds, TaskAccounted, CountsMatch, Sched.Inv, Untouched, Where, Sched.Now;
    forall y | y in r.s.tcbs ensures TaskAccounted(r, y) {
      if y != x {
        UntouchedAccounted(sys, r, y);
      }
    }
  }

  ghost predicate Running(s: Sched) {
    s.current in s.state.place && s.state.place[s.current].Ready?
  }

  lemma RunningFacts(s: Sched)
    requires s.Inv() && Running(s)
    ensures s.current in s.tcbs && s.current !in s.event.place && s.state.place[s.current] != WaitingTermination
  {
    ReadyIsMatched(s, s.current);
  }

  lemma IncrementedOnly(s: Sched)
    requires s.Shape()
    ensures var x, tcb := s.current, s.tcbs[s.current];
      IncrementHeld(s) == s.(tcbs := s.tcbs[x := tcb.(mutexesHeld := tcb.mutexesHeld + 1)])
  {
    hide Roster.Consistent;
  }

  lemma TakeHolds(mutexes: map<nat, Mutex>, m: nat, x: Task, n: Mutex)
    requires m in mutexes && mutexes[m].holder == Nobody && n.holder == HeldBy(x)
    ensures Holds(mutexes[m := n], x) == Holds(mutexes, x) + {m} && m !in Holds(mutexes, x)
    ensures forall y :: y != x ==> Holds(mutexes[m := n], y) == Holds(mutexes, y)
  {
  }

  lemma GiveHolds(mutexes: map<nat, Mutex>, m: nat, x: Task, n: Mutex)
    requires m in mutexes && mutexes[m].holder == HeldBy(x) && n.holder == Nobody
    ensures Holds(mutexes[m := n], x) == Holds(mutexes, x) - {m} && m in Holds(mutexes, x)
    ensures forall y :: y != x ==> Holds(mutexes[m := n], y) == Holds(mutexes, y)
  {
  }

  /** What accounting needs to know about the scheduler state, for the one task that changed. */
  ghost predicate Changed(s: Sched, r: Sched, x: Task, tcb: Tcb) {
    && OnlyMoves(s, r, x) && r.Inv() && x in s.tcbs && x in s.state.place && x in r.state.place
    && r.tcbs == s.tcbs[x := tcb] && r.event.lists.Keys == s.event.lists.Keys
    && (r.state.place[x] == WaitingTermination ==> s.state.place[x] == WaitingTermination)
  }

  lemma ChangedCounts(sys: System, r: System, x: Task, tcb: Tcb)
    requires CountsMatch(sys) && Changed(sys.s, r.s, x, tcb) && r.mutexes == sys.mutexes
    ensures CountsMatch(r) && r.s.tcbs.Keys == sys.s.tcbs.Keys
  {
    hide OnlyMoves, Sched.Inv;
  }

  lemma ChangedAccounts(sys: System, r: System, x: Task, tcb: Tcb)
    requires Accounted(sys) && Changed(sys.s, r.s, x, tcb) && r.mutexes == sys.mutexes && TaskAccounted(r, x)
    ensures Accounted(r)
  {
    ChangedCounts(sys, r, x, tcb);
    hide Holds, TaskAccounted, CountsMatch, Sched.Inv, OnlyMoves;
    AllAccounted(sys, r, x);
  }

  lemma TakenCounts(sys: System, m: nat, r: System)
    requires CountsMatch(sys) && m in sys.mutexes && sys.mutexes[m].count > 0 && sys.s.current in sys.s.tcbs
    requires var mutex := sys.mutexes[m];
      r.mutexes == sys.mutexes[m := mutex.(count := mutex.count - 1, holder := HeldBy(sys.s.current))]
    requires r.s.tcbs.Keys == sys.s.tcbs.Keys && r.s.event == sys.s.event
    ensures CountsMatch(r) && sys.mutexes[m].holder == Nobody && r.mutexes.Keys == sys.mutexes.Keys
  {
  }

  lemma TakeAccounts(sys: System, m: nat)
    requires Accounted(sys) && Running(sys.s) && m in sys.mutexes && sys.mutexes[m].count > 0
    ensures Accounted(Take(sys, m)) && Take(sys, m).mutexes[m].holder == HeldBy(sys.s.current)
  {
    hide Holds, Sched.Inv, CountsMatch, IncrementHeld, OnlyMoves, Running;
    InvShape(sys.s);
    var r, x := Take(sys, m), sys.s.current;
    RunningFacts(sys.s);
    IncrementHeldSafe(sys.s);
    IncrementedOnly(sys.s);
    TakenCounts(sys, m, r);
    TakeHolds(sys.mutexes, m, x, r.mutexes[m]);
    assert TaskAccounted(sys, x);
    AllAccounted(sys, r, x);
  }

  // ----- giving -----

  lemma DisinheritChanged(s: Sched)
    requires s.Inv() && s.tcbs[s.current].mutexesHeld > 0 && Running(s)
    ensures Changed(s, Disinherit(s), s.current, Disinherited(s.tcbs[s.current]))
    ensures Disinherit(s).event == s.event && Disinherit(s).current == s.current && Running(Disinherit(s))
  {
    hide Sched.Core, Sched.Timely, Sched.Settled, OnlyMoves, Disinherit;
    DisinheritSafe(s);
    InvShape(s);
    DisinheritKeepsEvents(s);
  }

  lemma GivenCounts(sys: System, m: nat, r: System)
    requires CountsMatch(sys) && m in sys.mutexes && sys.mutexes[m].holder == HeldBy(sys.s.current)
    requires r.mutexes == sys.mutexes[m := sys.mutexes[m].(count := sys.mutexes[m].count + 1, holder := Nobody)]
    requires r.s.tcbs.Keys == sys.s.tcbs.Keys && r.s.event.lists.Keys == sys.s.event.lists.Keys
    ensures CountsMatch(r) && r.mutexes.Keys == sys.mutexes.Keys
  {
  }

  /** The first half of giving: the mutex is free and its giver's priority is put right. */
  function Release(sys: System, m: nat): System
    requires sys.s.Shape() && m in sys.mutexes && sys.s.tcbs[sys.s.current].mutexesHeld > 0
  {
    System(Disinherit(sys.s), sys.mutexes[m := sys.mutexes[m].(count := sys.mutexes[m].count + 1, holder := Nobody)])
  }

  lemma ReleasedTask(sys: System, m: nat, r: System)
    requires var x := sys.s.current;
      && sys.s.Shape() && x in sys.s.state.place && TaskAccounted(sys, x)
      && sys.s.state.place[x] != WaitingTermination && x !in sys.s.event.place
      && m in Holds(sys.mutexes, x) && Holds(r.mutexes, x) == Holds(sys.mutexes, x) - {m}
      && sys.s.tcbs[x].mutexesHeld > 0 && r.s.event == sys.s.event
      && Changed(sys.s, r.s, x, Disinherited(sys.s.tcbs[x]))
    ensures TaskAccounted(r, sys.s.current)
  {
    hide Roster.Consistent, Holds, OnlyMoves, Sched.Inv;
  }

  /** Everything AllAccounted asks for, from what giving changes. */
  lemma ReleaseParts(sys: System, m: nat, r: System)
    requires CountsMatch(sys) && sys.s.Shape() && m in sys.mutexes && sys.mutexes[m].holder == HeldBy(sys.s.current)
    requires sys.s.tcbs[sys.s.current].mutexesHeld > 0
    requires Changed(sys.s, r.s, sys.s.current, Disinherited(sys.s.tcbs[sys.s.current]))
    requires r.mutexes == sys.mutexes[m := sys.mutexes[m].(count := sys.mutexes[m].count + 1, holder := Nobody)]
    ensures CountsMatch(r) && r.mutexes.Keys == sys.mutexes.Keys
    ensures r.s.tcbs.Keys == sys.s.tcbs.Keys && r.s.Inv() && OnlyMoves(sys.s, r.s, sys.s.current)
    ensures Holds(r.mutexes, sys.s.current) == Holds(sys.mutexes, sys.s.current) - {m}
    ensures m in Holds(sys.mutexes, sys.s.current)
    ensures forall y :: y != sys.s.current ==> Holds(r.mutexes, y) == Holds(sys.mutexes, y)
  {
    hide Sched.Inv, OnlyMoves, Holds, Roster.Consistent, Disinherited;
    GivenCounts(sys, m, r);
    GiveHolds(sys.mutexes, m, sys.s.current, r.mutexes[m]);
  }

  lemma ReleaseAccounts(sys: System, m: nat)
    requires Accounted(sys) && Running(sys.s) && m in sys.mutexes && sys.mutexes[m].holder == HeldBy(sys.s.current)
    ensures sys.s.tcbs[sys.s.current].mutexesHeld > 0
    ensures var r := Release(sys, m); Accounted(r) && r.s.current == sys.s.current && r.s.event == sys.s.event
  {
    hide Holds, Sched.Inv, Sched.Shape, CountsMatch, Disinherit, OnlyMoves, Running, Disinherited, Changed;
    InvShape(sys.s);
    var x := sys.s.current;
    RunningFacts(sys.s);
    assert TaskAccounted(sys, x);
    HolderHolds(sys, m);
    hide TaskAccounted;
    DisinheritChanged(sys.s);
    var r := Release(sys, m);
    ReleaseParts(sys, m, r);
    ReleasedTask(sys, m, r);
    AllAccounted(sys, r, x);
  }

  lemma HolderHolds(sys: System, m: nat)
    requires m in sys.mutexes && sys.mutexes[m].holder.HeldBy?
    ensures |Holds(sys.mutexes, sys.mutexes[m].holder.task)| > 0
  {
    assert m in Holds(sys.mutexes, sys.mutexes[m].holder.task);
  }

  lemma WakeChanged(s: Sched, e: EventList)
    requires s.Inv() && e in s.event.lists && s.event.lists[e].items != []
    ensures var x, r := s.event.lists[e].items[0], RemoveFromEventList(s, e);
      && x in s.tcbs && Changed(s, r, x, s.tcbs[x])
      && (x in r.event.place ==> r.event.place[x] == PendingReady)
  {
    RemoveFromEventListSafe(s, e);
    WakeFrame(s, e);
    hide Sched.Core, Sched.Timely, Sched.Settled, OnlyMoves, RemoveFromEventList;
    var x := s.event.lists[e].items[0];
    TcbUnchanged(s.tcbs, x);
  }

  lemma TcbUnchanged(tcbs: map<Task, Tcb>, x: Task)
    requires x in tcbs
    ensures tcbs[x := tcbs[x]] == tcbs
  {
  }

  lemma WakeFrame(s: Sched, e: EventList)
    requires s.Inv() && e in s.event.lists && s.event.lists[e].items != []
    ensures var x, r := s.event.lists[e].items[0], RemoveFromEventList(s, e);
      && r.tcbs == s.tcbs && r.event.lists.Keys == s.event.lists.Keys && x in s.state.place && x in r.state.place
      && r.current == s.current && r.state.place[x] != WaitingTermination
      && (x in r.event.place ==> r.event.place[x] == PendingReady)
  {
    hide Roster.Consistent, Roster.Take, Sched.ReadyListsMatch, Sched.DelaysSorted, Sched.EventWaitersBlocked,
         Sched.Timely, Sched.Settled, Sched.Unblock, Roster.Move;
    EventHead(s, e);
    WaiterIsBlocked(s, s.event.lists[e].items[0]);
    UnblockEventKeys(s, s.event.lists[e].items[0]);
  }

  lemma UnblockEventKeys(s: Sched, x: Task)
    requires s.Shape() && x in s.tcbs
    ensures s.Unblock(x).event.lists.Keys == s.event.lists.Keys
  {
    hide Roster.Consistent, Roster.Move;
  }

  lemma WokenTask(sys: System, r: System, x: Task)
    requires sys.s.Shape() && x in sys.s.tcbs && TaskAccounted(sys, x) && Changed(sys.s, r.s, x, sys.s.tcbs[x])
    requires r.mutexes == sys.mutexes && (x in r.s.event.place ==> r.s.event.place[x] == PendingReady)
    ensures TaskAccounted(r, x)
  {
    hide Roster.Consistent, Holds, OnlyMoves, Sched.Inv;
  }

  lemma WakeAccounts(sys: System, m: nat)
    requires Accounted(sys) && Waiting(m) in sys.s.event.lists && sys.s.event.lists[Waiting(m)].items != []
    ensures Accounted(sys.(s := RemoveFromEventList(sys.s, Waiting(m))))
  {
    hide Holds, Sched.Inv, CountsMatch, OnlyMoves, RemoveFromEventList, Changed;
    InvShape(sys.s);
    WakeChanged(sys.s, Waiting(m));
    var x, r := sys.s.event.lists[Waiting(m)].items[0], sys.(s := RemoveFromEventList(sys.s, Waiting(m)));
    assert TaskAccounted(sys, x);
    hide TaskAccounted;
    WokenTask(sys, r, x);
    ChangedAccounts(sys, r, x, sys.s.tcbs[x]);
  }

  /** Giving frees the mutex, restores the giver's base priority with its last mutex, and wakes the first
      waiter if there is one. */
  lemma GiveAccounts(sys: System, m: nat)
    requires Accounted(sys) && Running(sys.s) && m in sys.mutexes && sys.mutexes[m].holder == HeldBy(sys.s.current)
    ensures Waiting(m) in sys.s.event.lists && sys.s.tcbs[sys.s.current].mutexesHeld > 0
    ensures var r, x := Give(sys, m), sys.s.current;
      && Accounted(r) && r.mutexes[m].holder == Nobody && r.mutexes[m].count == 1 && x in r.s.tcbs
      && (r.s.tcbs[x].mutexesHeld == 0 ==> r.s.tcbs[x].priority == r.s.tcbs[x].basePriority)
  {
    assert CountsMatch(sys);
    ReleaseAccounts(sys, m);
    hide Sched.Inv, Disinherit, OnlyMoves, Running, RemoveFromEventList, Holds, CountsMatch;
    InvShape(sys.s);
    DisinheritKeepsEvents(sys.s);
    var g := Release(sys, m);
    if g.s.event.lists[Waiting(m)].items != [] {
      WakeAccounts(g, m);
      WakeKeepsTasks(g.s, Waiting(m));
    }
    GiverCounted(Give(sys, m), sys.s.current, m);
  }

  lemma WakeKeepsTasks(s: Sched, e: EventList)
    requires s.Inv() && e in s.event.lists && s.event.lists[e].items != []
    ensures RemoveFromEventList(s, e).tcbs == s.tcbs
  {
    WakeFrame(s, e);
  }

  lemma GiverCounted(r: System, x: Task, m: nat)
    requires Accounted(r) && x in r.s.tcbs && m in r.mutexes && r.mutexes[m].holder == Nobody
    ensures r.mutexes[m].count == 1
    ensures r.s.tcbs[x].mutexesHeld == 0 ==> r.s.tcbs[x].priority == r.s.tcbs[x].basePriority
  {
    assert TaskAccounted(r, x);
  }

  // ----- blocking on a mutex, and giving up -----

  /** The holder's control block at a different priority. */
  ghost predicate AtPriority(before: Tcb, after: Tcb) {
    && after == before.(priority := after.priority, eventValue := after.eventValue)
    && (ValueInRange(before.eventValue) ==> ValueInRange(after.eventValue))
    && (before.eventValue < VALUE_IN_USE ==> after.eventValue < VALUE_IN_USE)
  }

  lemma HolderTask(sys: System, r: System, x: Task, tcb: Tcb)
    requires sys.s.Shape() && x in sys.s.tcbs && TaskAccounted(sys, x) && Changed(sys.s, r.s, x, tcb)
    requires r.mutexes == sys.mutexes && r.s.event == sys.s.event
    requires AtPriority(sys.s.tcbs[x], tcb) && sys.s.tcbs[x].mutexesHeld > 0
    ensures TaskAccounted(r, x)
  {
    hide Roster.Consistent, Holds, OnlyMoves, Sched.Inv;
  }

  lemma InheritChanged(s: Sched, h: Task)
    requires s.Inv() && h in s.tcbs
    ensures var r := Inherit(s, h);
      && h in r.tcbs && Changed(s, r, h, r.tcbs[h]) && AtPriority(s.tcbs[h], r.tcbs[h])
      && r.event == s.event && r.current == s.current
      && r.tcbs[h].priority == Max(s.tcbs[h].priority, s.tcbs[s.current].priority)
      && (Running(s) ==> Running(r))
  {
    InheritSafe(s, h);
    InvShape(s);
    InheritFrame(s, h);
    hide Sched.Core, Sched.Timely, Sched.Settled, OnlyMoves, Inherit;
  }

  /** The bits of Changed that concern maps. */
  ghost predicate Reranked(s: Sched, r: Sched, h: Task) {
    && h in s.tcbs && h in s.state.place && h in r.tcbs && h in r.state.place
    && r.tcbs == s.tcbs[h := r.tcbs[h]] && AtPriority(s.tcbs[h], r.tcbs[h])
    && (r.state.place[h] == WaitingTermination ==> s.state.place[h] == WaitingTermination)
    && (s.current in s.state.place && s.state.place[s.current].Ready? ==>
          s.current in r.state.place && r.state.place[s.current].Ready?)
  }

  lemma RequeuedReranks(s: Sched, r: Sched, h: Task, tcb: Tcb)
    requires h in s.tcbs && h in s.state.place && Requeued(s, r, h, tcb) && AtPriority(s.tcbs[h], tcb)
    ensures Reranked(s, r, h)
  {
  }

  lemma SameReranks(s: Sched, h: Task)
    requires h in s.tcbs && h in s.state.place
    ensures Reranked(s, s, h)
  {
    TcbUnchanged(s.tcbs, h);
  }

  lemma InheritFrame(s: Sched, h: Task)
    requires s.Inv() && h in s.tcbs
    ensures Reranked(s, Inherit(s, h), h)
  {
    hide Roster.Consistent, Requeue, Requeued, Reranked, OnlyMoves, Sched.ReadyListsMatch, Sched.DelaysSorted,
         Sched.EventWaitersBlocked, Sched.Timely, Sched.Settled;
    SameReranks(s, h);
    var tcb, p := s.tcbs[h], s.tcbs[s.current].priority;
    var after := tcb.(priority := p, eventValue := EventValueFor(tcb, p));
    RequeueSafe(s, h, after);
    RequeuedReranks(s, Requeue(s, h, after), h, after);
  }

  lemma LendAccounts(sys: System, h: Task)
    requires Accounted(sys) && h in sys.s.tcbs && |Holds(sys.mutexes, h)| > 0
    ensures Accounted(sys.(s := Inherit(sys.s, h)))
  {
    hide Holds, Sched.Inv, CountsMatch, OnlyMoves, Inherit, Changed, AtPriority;
    InvShape(sys.s);
    InheritChanged(sys.s, h);
    assert TaskAccounted(sys, h);
    var r := sys.(s := Inherit(sys.s, h));
    HolderTask(sys, r, h, r.s.tcbs[h]);
    hide TaskAccounted;
    ChangedAccounts(sys, r, h, r.s.tcbs[h]);
  }

  /** What blocking does to the running task's control block. */
  ghost predicate SameRank(before: Tcb, after: Tcb) {
    && after.priority == before.priority && after.basePriority == before.basePriority
    && after.mutexesHeld == before.mutexesHeld && after.eventValue == before.eventValue
  }

  lemma PlacedChanged(s: Sched, m: nat, d: Tick)
    requires s.Inv() && Running(s) && s.current != IDLE && d > 0 && Waiting(m) in s.event.lists
    ensures s.current !in s.event.place
    ensures var r, x := PlaceOnEventList(s, Waiting(m), d), s.current;
      x in r.tcbs && Changed(s, r, x, r.tcbs[x]) && SameRank(s.tcbs[x], r.tcbs[x]) && r.current == s.current
  {
    PlaceOnEventListSafe(s, Waiting(m), d);
    PlacedFrame(s, m, d);
    hide Sched.Core, Sched.Timely, Sched.Settled, OnlyMoves, PlaceOnEventList;
  }

  lemma BlockFrame(s: Sched, d: Tick, indefinite: bool)
    requires s.Shape()
    ensures var r, x := BlockCurrent(s, d, indefinite), s.current;
      && x in r.tcbs && r.tcbs == s.tcbs[x := r.tcbs[x]] && SameRank(s.tcbs[x], r.tcbs[x]) && r.event == s.event
      && r.current == s.current && x in r.state.place && r.state.place[x] in {Delayed1, Delayed2, SuspendedTasks}
  {
    hide Roster.Consistent, Roster.Take, Roster.PutSorted, Roster.Move;
  }

  lemma PlacedFrame(s: Sched, m: nat, d: Tick)
    requires s.Inv() && Running(s) && Waiting(m) in s.event.lists && s.current !in s.event.place
    ensures var r, x := PlaceOnEventList(s, Waiting(m), d), s.current;
      && x in r.tcbs && r.tcbs == s.tcbs[x := r.tcbs[x]] && SameRank(s.tcbs[x], r.tcbs[x]) && r.current == s.current
      && r.event.lists.Keys == s.event.lists.Keys && x in r.state.place && r.state.place[x] != WaitingTermination
      && x in s.state.place
  {
    InvShape(s);
    OnEventListHasTcb(s, Waiting(m));
    hide Roster.Consistent, Roster.PutSorted, BlockCurrent, Sched.Core, Sched.Timely, Sched.Settled, SameRank;
    var e := s.event.PutSorted(Waiting(m), s.current, s.tcbs[s.current].eventValue,
                               EventValues(s.tcbs, s.event.lists[Waiting(m)].items));
    BlockFrame(s.(event := e), d, true);
  }

  lemma WaiterTask(sys: System, r: System, x: Task, tcb: Tcb)
    requires sys.s.Shape() && x in sys.s.tcbs && TaskAccounted(sys, x) && Changed(sys.s, r.s, x, tcb)
    requires r.mutexes == sys.mutexes && SameRank(sys.s.tcbs[x], tcb)
    requires sys.s.tcbs[x].eventValue < VALUE_IN_USE
    ensures TaskAccounted(r, x)
  {
    hide Roster.Consistent, Holds, OnlyMoves, Sched.Inv;
  }

  lemma QueueUpAccounts(sys: System, m: nat, d: Tick)
    requires Accounted(sys) && Running(sys.s) && sys.s.current != IDLE && d > 0 && Waiting(m) in sys.s.event.lists
    requires sys.s.tcbs[sys.s.current].eventValue < VALUE_IN_USE
    ensures sys.s.current !in sys.s.event.place
    ensures Accounted(sys.(s := PlaceOnEventList(sys.s, Waiting(m), d)))
  {
    hide Holds, Sched.Inv, CountsMatch, OnlyMoves, PlaceOnEventList, Changed, SameRank, Running;
    InvShape(sys.s);
    PlacedChanged(sys.s, m, d);
    var x, r := sys.s.current, sys.(s := PlaceOnEventList(sys.s, Waiting(m), d));
    assert TaskAccounted(sys, x);
    WaiterTask(sys, r, x, r.s.tcbs[x]);
    hide TaskAccounted;
    ChangedAccounts(sys, r, x, r.s.tcbs[x]);
  }

  lemma HolderKeepsUp(s: Sched, lent: Sched, r: Sched, h: Task)
    requires s.current in s.tcbs && h in s.tcbs && h in lent.tcbs && lent.current == s.current && s.current in r.tcbs
    requires Changed(s, lent, h, lent.tcbs[h]) && AtPriority(s.tcbs[h], lent.tcbs[h])
    requires Changed(lent, r, s.current, r.tcbs[s.current]) && SameRank(lent.tcbs[s.current], r.tcbs[s.current])
    requires lent.tcbs[h].priority == Max(s.tcbs[h].priority, s.tcbs[s.current].priority)
    ensures h in r.tcbs && r.tcbs[h].priority >= r.tcbs[s.current].priority == s.tcbs[s.current].priority
  {
    hide OnlyMoves, Sched.Inv;
  }

  /** Blocking on a held mutex keeps the accounts, and immediately afterwards the holder runs at no less
      than the priority of the task it keeps waiting. */
  lemma BlockOnAccounts(sys: System, m: nat, d: Tick)
    requires Accounted(sys) && Running(sys.s) && sys.s.current != IDLE && d > 0
    requires m in sys.mutexes && sys.mutexes[m].count == 0 && sys.s.tcbs[sys.s.current].eventValue < VALUE_IN_USE
    ensures sys.mutexes[m].holder.HeldBy? && Waiting(m) in sys.s.event.lists && sys.s.current !in sys.s.event.place
    ensures var r, h, x := BlockOn(sys, m, d), sys.mutexes[m].holder.task, sys.s.current;
      && Accounted(r) && h in r.s.tcbs && x in r.s.tcbs && r.mutexes == sys.mutexes
      && r.s.tcbs[h].priority >= r.s.tcbs[x].priority == sys.s.tcbs[x].priority
  {
    hide Holds, Sched.Inv, CountsMatch, OnlyMoves, Running, Inherit, PlaceOnEventList, TaskAccounted, Changed,
         SameRank, AtPriority;
    HeldMutex(sys, m);
    var h := sys.mutexes[m].holder.task;
    RunningFacts(sys.s);
    InvShape(sys.s);
    InheritChanged(sys.s, h);
    LendAccounts(sys, h);
    var lent := sys.(s := Inherit(sys.s, h));
    LentValue(sys.s, lent.s, h);
    QueueUpAccounts(lent, m, d);
    PlacedChanged(lent.s, m, d);
    HolderKeepsUp(sys.s, lent.s, BlockOn(sys, m, d).s, h);
  }

  lemma HeldMutex(sys: System, m: nat)
    requires Accounted(sys) && m in sys.mutexes && sys.mutexes[m].count == 0
    ensures sys.mutexes[m].holder.HeldBy? && sys.mutexes[m].holder.task in sys.s.tcbs && Waiting(m) in sys.s.event.lists
    ensures |Holds(sys.mutexes, sys.mutexes[m].holder.task)| > 0
  {
    HolderHolds(sys, m);
  }

  lemma LentValue(s: Sched, r: Sched, h: Task)
    requires h in s.tcbs && h in r.tcbs && Changed(s, r, h, r.tcbs[h]) && AtPriority(s.tcbs[h], r.tcbs[h])
    requires s.current in s.tcbs && s.tcbs[s.current].eventValue < VALUE_IN_USE && r.current == s.current
    ensures r.tcbs[r.current].eventValue < VALUE_IN_USE
  {
    hide OnlyMoves, Sched.Inv;
  }

  lemma GiveUpChanged(s: Sched, h: Task, highest: nat)
    requires s.Inv() && h in s.tcbs && highest < MAX_PRIORITIES
    ensures var r := DisinheritAfterTimeout(s, h, highest);
      && h in r.tcbs && Changed(s, r, h, r.tcbs[h]) && AtPriority(s.tcbs[h], r.tcbs[h])
      && r.event == s.event && r.current == s.current
      && r.tcbs[h].priority ==
           (if s.tcbs[h].mutexesHeld == 1 then Max(s.tcbs[h].basePriority, highest) else s.tcbs[h].priority)
  {
    DisinheritAfterTimeoutSafe(s, h, highest);
    InvShape(s);
    GiveUpFrame(s, h, highest);
    hide Sched.Core, Sched.Timely, Sched.Settled, OnlyMoves, DisinheritAfterTimeout;
  }

  lemma GiveUpFrame(s: Sched, h: Task, highest: nat)
    requires s.Inv() && h in s.tcbs && highest < MAX_PRIORITIES
    ensures Reranked(s, DisinheritAfterTimeout(s, h, highest), h)
  {
    hide Roster.Consistent, Requeue, Requeued, Reranked, OnlyMoves, Sched.ReadyListsMatch, Sched.DelaysSorted,
         Sched.EventWaitersBlocked, Sched.Timely, Sched.Settled;
    SameReranks(s, h);
    var tcb := s.tcbs[h];
    var p := Max(tcb.basePriority, highest);
    var after := tcb.(priority := p, eventValue := EventValueFor(tcb, p));
    RequeueSafe(s, h, after);
    RequeuedReranks(s, Requeue(s, h, after), h, after);
  }

  lemma WaitersHavePriorities(sys: System, m: nat)
    requires Accounted(sys) && m in sys.mutexes
    ensures Waiting(m) in sys.s.event.lists && 0 <= HighestWaiting(sys, m) < MAX_PRIORITIES
  {
    var waiters := sys.s.event.lists[Waiting(m)].items;
    if waiters != [] {
      EventHead(sys.s, Waiting(m));
      assert TaskAccounted(sys, waiters[0]);
    }
  }

  /** When a wait for the mutex times out, a holder of that one mutex goes back to the greater of its base
      priority and the priority that the first remaining waiter's event item stands for; a holder of
      several mutexes keeps its priority.  The accounts are kept. */
  lemma GiveUpAccounts(sys: System, m: nat)
    requires Accounted(sys) && m in sys.mutexes && sys.mutexes[m].count == 0
    ensures sys.mutexes[m].holder.HeldBy? && Waiting(m) in sys.s.event.lists
    ensures sys.mutexes[m].holder.task in sys.s.tcbs && 0 <= HighestWaiting(sys, m) < MAX_PRIORITIES
    ensures var r, h := GiveUp(sys, m), sys.mutexes[m].holder.task;
      && Accounted(r) && h in r.s.tcbs && r.mutexes == sys.mutexes
      && r.s.tcbs[h].priority == (if sys.s.tcbs[h].mutexesHeld == 1
                                  then Max(sys.s.tcbs[h].basePriority, HighestWaiting(sys, m))
                                  else sys.s.tcbs[h].priority)
  {
    HeldMutex(sys, m);
    WaitersHavePriorities(sys, m);
    var h := sys.mutexes[m].holder.task;
    hide Holds, Sched.Inv, CountsMatch, OnlyMoves, HighestWaiting, DisinheritAfterTimeout, Changed, AtPriority;
    InvShape(sys.s);
    GiveUpChanged(sys.s, h, HighestWaiting(sys, m));
    assert TaskAccounted(sys, h);
    var r := GiveUp(sys, m);
    HolderTask(sys, r, h, r.s.tcbs[h]);
    hide TaskAccounted;
    ChangedAccounts(sys, r, h, r.s.tcbs[h]);
  }

  /** With nobody left waiting that is the base priority. */
  lemma GiveUpByLast(sys: System, m: nat)
    requires Accounted(sys) && m in sys.mutexes && sys.mutexes[m].count == 0
    requires Waiting(m) in sys.s.event.lists && sys.s.event.lists[Waiting(m)].items == []
    ensures sys.mutexes[m].holder.HeldBy? && sys.mutexes[m].holder.task in sys.s.tcbs
    ensures 0 <= HighestWaiting(sys, m) < MAX_PRIORITIES
    ensures var r, h := GiveUp(sys, m), sys.mutexes[m].holder.task;
      && h in r.s.tcbs && (sys.s.tcbs[h].mutexesHeld == 1 ==> r.s.tcbs[h].priority == sys.s.tcbs[h].basePriority)
  {
    InvShape(sys.s);
    hide Accounted, Sched.Inv, Sched.Shape, GiveUp;
    GiveUpAccounts(sys, m);
  }
}
