/** Preemption over runs of kernel and mutex steps: whenever a task of higher priority than the running one is
    ready, a context switch has been asked for since the last one, but for two kinds of steps that should
    have asked for it. */
module MutexPreemption {
  import opened Rosters
  import opened Scheduler
  import opened SchedulerTasks
  import opened SchedulerSafety
  import opened SchedulerRuns
  import opened Preemption
  import opened Mutexes
  import opened MutexRuns

  // ----- giving -----

  /** The give asks for no switch, although it should: it is that of the last mutex by a task of inherited
      priority, somebody waits, the first waiter does not outrank the base priority, but somebody else who
      is ready does. */
  ghost predicate GiveOverlooks(sys: System, m: nat)
    requires sys.s.Shape() && Waiting(m) in sys.s.event.lists
  {
    var tcb, waiters := sys.s.tcbs[sys.s.current], sys.s.event.lists[Waiting(m)].items;
    && tcb.mutexesHeld == 1 && tcb.priority > tcb.basePriority
    && waiters != []
    && (EventHead(sys.s, Waiting(m)); sys.s.tcbs[waiters[0]].priority <= tcb.basePriority)
    && exists y :: y != sys.s.current && IsRunnable(sys.s, y) && sys.s.tcbs[y].priority > tcb.basePriority
  }

  /** What Disinherit changes. */
  lemma DisinheritedIs(s: Sched)
    requires s.Inv() && Running(s) && s.Shape() && s.tcbs[s.current].mutexesHeld > 0
    ensures s.tcbs[s.current].basePriority < MAX_PRIORITIES
    ensures var r := Disinherit(s);
      && r.Inv() && r.current == s.current && r.event == s.event && r.suspended == s.suspended
      && r.tcbs == s.tcbs[s.current := Disinherited(s.tcbs[s.current])]
      && s.current !in s.event.place
      && forall y :: y != s.current ==> (IsRunnable(r, y) <==> IsRunnable(s, y))
  {
    hide Sched.Core, Sched.Shape, Sched.Timely, Sched.Settled, Disinherit, OnlyMoves;
    InvShape(s);
    s.TaskKnown(s.current);
    RunningFacts(s);
    DisinheritSafe(s);
  }

  lemma RunnableElsewhere(s: Sched, r: Sched, x: Task, y: Task)
    requires OnlyMoves(s, r, x) && r.tcbs.Keys == s.tcbs.Keys && y != x
    ensures IsRunnable(s, y) <==> IsRunnable(r, y)
  {
    if y in s.tcbs {
      assert Untouched(s, r, y);
    }
  }

  /** Somebody wakes who does not outrank the running task. */
  lemma WokenBelow(s: Sched, r: Sched, x: Task)
    requires OnlyMoves(s, r, x) && r.tcbs == s.tcbs && r.current == s.current && x != s.current
    requires s.current in s.tcbs && x in s.tcbs && !IsRunnable(s, x)
    requires s.tcbs[x].priority <= s.tcbs[s.current].priority
    ensures OnTop(r) <==> OnTop(s)
  {
    forall y | y != x ensures IsRunnable(s, y) <==> IsRunnable(r, y) {
      RunnableElsewhere(s, r, x, y);
    }
    hide OnlyMoves;
  }

  /** A task on an event list is not ready. */
  lemma WaiterNotReady(s: Sched, e: EventList)
    requires s.Inv() && e in s.event.lists && s.event.lists[e].items != []
    ensures var x := s.event.lists[e].items[0];
      x in s.tcbs && x in s.event.place && s.event.place[x] == e && !IsRunnable(s, x)
  {
    EventHead(s, e);
    hide Roster.Consistent, Sched.DelaysSorted, Sched.ReadyListsMatch, Sched.Timely, Sched.Settled;
  }

  /** Waking the first waiter leaves the running task on top if the waiter does not outrank it. */
  lemma WakeIsExact(s: Sched, e: EventList)
    requires s.Inv() && Running(s) && e in s.event.lists && s.event.lists[e].items != []
    ensures s.Shape()
    ensures var x, r := s.event.lists[e].items[0], RemoveFromEventList(s, e);
      && x in s.tcbs && s.current in s.tcbs
      && (s.tcbs[x].priority <= s.tcbs[s.current].priority ==> (OnTop(r) <==> OnTop(s)))
  {
    hide Sched.Core, Sched.Shape, Sched.Timely, Sched.Settled, RemoveFromEventList, OnlyMoves;
    InvShape(s);
    RunningFacts(s);
    RemoveFromEventListSafe(s, e);
    WakeFrame(s, e);
    WaiterNotReady(s, e);
    var x := s.event.lists[e].items[0];
    if s.tcbs[x].priority <= s.tcbs[s.current].priority {
      WokenBelow(s, RemoveFromEventList(s, e), x);
    }
  }

  /** The priority that Disinherit leaves, the head of the waiting list, and who would be unseated. */
  lemma GiveParts(sys: System, m: nat)
    requires Accounted(sys) && Running(sys.s) && m in sys.mutexes && sys.mutexes[m].holder == HeldBy(sys.s.current)
    requires OnTop(sys.s)
    ensures sys.s.Shape() && sys.s.tcbs[sys.s.current].mutexesHeld > 0 && Waiting(m) in sys.s.event.lists
    ensures sys.s.current in sys.s.tcbs
    ensures var s, r, tcb := sys.s, Disinherit(sys.s), sys.s.tcbs[sys.s.current];
      && r.Inv() && Running(r) && r.current == s.current && r.event == s.event
      && r.tcbs == s.tcbs[s.current := Disinherited(tcb)] && s.current !in s.event.place
      && (OnTop(r) <==> !UnseatedBy(s, s.current, tcb.basePriority))
  {
    hide Sched.Inv, Sched.Shape, Disinherit, UnseatedBy, OnTop, Disinherited, OnlyMoves, TaskAccounted, CountsMatch,
         Changed;
    HolderFacts(sys, m);
    RunningFacts(sys.s);
    DisinheritedIs(sys.s);
    DisinheritChanged(sys.s);
    GiveIsStep(sys.s);
    DisinheritIsExact(sys.s);
  }

  lemma GiveIsStep(s: Sched)
    requires s.Inv() && Running(s) && s.Shape() && s.tcbs[s.current].mutexesHeld > 0
    ensures Enabled(s, GiveMutex) && Step(s, GiveMutex) == Disinherit(s)
    ensures Unseats(s, GiveMutex) <==> UnseatedBy(s, s.current, s.tcbs[s.current].basePriority)
  {
    hide Sched.Inv, Sched.Shape, Disinherit, UnseatedBy;
  }

  /** UnseatedBy, for a task on top that gives its last mutex. */
  lemma UnseatedMeans(s: Sched)
    requires OnTop(s) && s.current in s.tcbs
    ensures var tcb := s.tcbs[s.current];
      UnseatedBy(s, s.current, tcb.basePriority) <==>
        && tcb.mutexesHeld == 1 && tcb.priority > tcb.basePriority
        && exists y :: y != s.current && IsRunnable(s, y) && s.tcbs[y].priority > tcb.basePriority
  {
  }

  /** A give by a task on top leaves a ready task above it and asks for no switch exactly under the condition
      above. */
  lemma GiveIsExact(sys: System, m: nat)
    requires Accounted(sys) && Running(sys.s) && m in sys.mutexes && sys.mutexes[m].holder == HeldBy(sys.s.current)
    requires OnTop(sys.s)
    ensures sys.s.Shape() && sys.s.tcbs[sys.s.current].mutexesHeld > 0 && Waiting(m) in sys.s.event.lists
    ensures !GiveAsks(sys, m) && !OnTop(Give(sys, m).s) <==> GiveOverlooks(sys, m)
  {
    hide Accounted, Sched.Inv, Sched.Shape, Disinherit, UnseatedBy, OnTop, RemoveFromEventList, Running;
    GiveParts(sys, m);
    UnseatedMeans(sys.s);
    if sys.s.event.lists[Waiting(m)].items != [] {
      EventHead(sys.s, Waiting(m));
      WakeIsExact(Disinherit(sys.s), Waiting(m));
    }
  }

  // ----- the end of a wait that timed out -----

  /** The end of the wait puts a ready holder of just this mutex above the running task; no switch is ever asked
      for. */
  ghost predicate TimeoutOverlooks(sys: System, m: nat)
    requires Accounted(sys) && m in sys.mutexes
  {
    hide Sched.Inv, CountsMatch, TaskAccounted, HighestWaiting;
    HolderFacts(sys, m);
    WaitersHavePriorities(sys, m);
    var h := sys.mutexes[m].holder;
    && h.HeldBy? && h.task != sys.s.current
    && sys.s.tcbs[h.task].mutexesHeld == 1 && IsRunnable(sys.s, h.task)
    && Max(sys.s.tcbs[h.task].basePriority, HighestWaiting(sys, m)) > sys.s.tcbs[sys.s.current].priority
  }

  lemma GiveUpIsStep(s: Sched, h: Task, highest: nat)
    requires s.Inv() && s.Shape() && h in s.tcbs && highest < MAX_PRIORITIES
    ensures Enabled(s, TimeOutOn(h, highest)) && Step(s, TimeOutOn(h, highest)) == DisinheritAfterTimeout(s, h, highest)
    ensures Unseats(s, TimeOutOn(h, highest)) <==> UnseatedBy(s, h, Max(s.tcbs[h].basePriority, highest))
  {
    hide Sched.Inv, Sched.Shape, DisinheritAfterTimeout, UnseatedBy;
  }

  /** The end of a wait leaves a ready task above the running one exactly under the condition above. */
  lemma GiveUpIsExact(sys: System, m: nat)
    requires SysEnabled(sys, GiveUpOn(m)) && OnTop(sys.s)
    ensures OnTop(SysStep(sys, GiveUpOn(m)).s) <==> !TimeoutOverlooks(sys, m)
  {
    hide Accounted, Sched.Inv, Sched.Shape, DisinheritAfterTimeout, UnseatedBy, OnTop, HighestWaiting, Running;
    HolderFacts(sys, m);
    AccountedInv(sys);
    WaitersHavePriorities(sys, m);
    if sys.mutexes[m].holder.HeldBy? {
      var h := sys.mutexes[m].holder.task;
      GiveUpIsStep(sys.s, h, HighestWaiting(sys, m));
      TimeOutIsExact(sys.s, h, HighestWaiting(sys, m));
      UnseatedAfter(sys.s, h, Max(sys.s.tcbs[h].basePriority, HighestWaiting(sys, m)));
    }
  }

  /** UnseatedBy, when the running task is on top and not itself in question. */
  lemma UnseatedAfter(s: Sched, h: Task, p: nat)
    requires OnTop(s) && s.current in s.tcbs && h in s.tcbs
    ensures h != s.current ==>
              (UnseatedBy(s, h, p) <==>
                 s.tcbs[h].mutexesHeld == 1 && IsRunnable(s, h) && p > s.tcbs[s.current].priority)
    ensures h == s.current && (s.tcbs[h].mutexesHeld > 1 || s.tcbs[h].priority == p) ==> !UnseatedBy(s, h, p)
  {
  }

  // ----- steps -----

  /** The step asks for a context switch. */
  ghost predicate SysAsks(sys: System, a: SysAction)
    requires SysEnabled(sys, a)
  {
    hide Sched.Inv, CountsMatch, TaskAccounted, GiveAsks;
    match a
    case KernelStep(k) => Asks(sys.s, k)
    case QueueUpFor(_, _) => true
    case GiveBack(m) => HolderFacts(sys, m); GiveAsks(sys, m)
    case GiveRecursively(m) => HolderFacts(sys, m); sys.mutexes[m].recursion == 1 && GiveAsks(sys, m)
    case _ => false
  }

  /** The step should ask for a context switch and does not. */
  ghost predicate SysOverlooks(sys: System, a: SysAction)
    requires SysEnabled(sys, a)
  {
    hide Sched.Inv, CountsMatch, TaskAccounted, TimeoutOverlooks, GiveOverlooks;
    match a
    case GiveUpOn(m) => TimeoutOverlooks(sys, m)
    case GiveBack(m) => HolderFacts(sys, m); GiveOverlooks(sys, m)
    case GiveRecursively(m) => HolderFacts(sys, m); sys.mutexes[m].recursion == 1 && GiveOverlooks(sys, m)
    case _ => false
  }

  lemma KernelExact(sys: System, k: Action)
    requires SysEnabled(sys, KernelStep(k)) && OnTop(sys.s) && !Asks(sys.s, k)
    ensures OnTop(SysStep(sys, KernelStep(k)).s)
  {
    hide Accounted, Sched.Inv, OnTop, Asks, Legal, Step, Unseats;
    AccountedInv(sys);
    StepStaysOnTop(sys.s, k);
    OtherwiseSeated(sys.s, k);
  }

  /** Taking a mutex only counts, and making one changes no task. */
  lemma TakingExact(sys: System, a: SysAction)
    requires SysEnabled(sys, a) && OnTop(sys.s) && (a.TakeMutex? || a.TakeRecursively? || a.CreateMutex?)
    ensures OnTop(SysStep(sys, a).s)
  {
    hide Accounted, Sched.Inv, Sched.Shape, OnTop, IncrementHeld, Running;
    AccountedInv(sys);
    InvShape(sys.s);
    HeldIsStep(sys.s);
  }

  lemma HeldIsStep(s: Sched)
    requires s.Inv() && s.Shape() && OnTop(s)
    ensures OnTop(IncrementHeld(s))
  {
    hide Sched.Inv, Sched.Shape, OnTop, IncrementHeld, Unseats;
    StepStaysOnTop(s, HoldMutex);
    OtherwiseSeated(s, HoldMutex);
  }

  lemma LendingExact(sys: System, m: nat)
    requires SysEnabled(sys, LendFor(m)) && OnTop(sys.s)
    ensures OnTop(SysStep(sys, LendFor(m)).s)
  {
    hide Accounted, Sched.Inv, Sched.Shape, OnTop, Inherit, Running;
    AccountedInv(sys);
    HolderFacts(sys, m);
    InheritBelow(sys.s, sys.mutexes[m].holder.task);
  }

  lemma GivingExact(sys: System, a: SysAction)
    requires SysEnabled(sys, a) && OnTop(sys.s) && (a.GiveBack? || a.GiveRecursively?) && !SysAsks(sys, a)
    ensures OnTop(SysStep(sys, a).s) <==> !SysOverlooks(sys, a)
  {
    hide Accounted, Sched.Inv, Sched.Shape, OnTop, Give, GiveAsks, GiveOverlooks, Running, Holds;
    HolderFacts(sys, a.m);
    if a.GiveBack? {
      GiveIsExact(sys, a.m);
    } else if sys.mutexes[a.m].recursion == 1 {
      RecursionKeepsAccounts(sys, a.m, 0);
      var t := sys.(mutexes := sys.mutexes[a.m := sys.mutexes[a.m].(recursion := 0)]);
      SameGive(sys, t, a.m);
      SameOverlooks(sys, t, a.m);
      GiveIsExact(t, a.m);
    }
  }

  lemma SameOverlooks(sys: System, r: System, m: nat)
    requires sys.s.Shape() && Waiting(m) in sys.s.event.lists && r.s == sys.s
    ensures GiveOverlooks(sys, m) == GiveOverlooks(r, m)
  {
    hide Sched.Shape;
  }

  /** If the running task is on top and the step asks for no switch, it stays on top, but for the two kinds of
      steps above under their exact conditions. */
  lemma SysStepStaysOnTop(sys: System, a: SysAction)
    requires SysEnabled(sys, a) && OnTop(sys.s) && !SysAsks(sys, a)
    ensures OnTop(SysStep(sys, a).s) <==> !SysOverlooks(sys, a)
  {
    hide Accounted, OnTop, SysStep, SysLegal, Asks, GiveAsks, TimeoutOverlooks, GiveOverlooks;
    match a {
      case KernelStep(k) => KernelExact(sys, k);
      case TakeMutex(_) => TakingExact(sys, a);
      case LendFor(m) => LendingExact(sys, m);
      case GiveUpOn(m) => GiveUpIsExact(sys, m);
      case GiveBack(_) => GivingExact(sys, a);
      case TakeRecursively(_) => TakingExact(sys, a);
      case GiveRecursively(_) => GivingExact(sys, a);
      case CreateMutex(_) => TakingExact(sys, a);
      case QueueUpFor(_, _) =>
    }
  }

  // ----- runs -----

  ghost predicate SwitchesNow(sys: System, a: SysAction) { a == KernelStep(Switch) && sys.s.suspended == 0 }

  /** A context switch has been asked for and not yet taken place before step k. */
  ghost predicate Owed(states: seq<System>, actions: seq<SysAction>, k: nat)
    requires k <= |actions| < |states|
    decreases k
  {
    && k > 0 && !SwitchesNow(states[k - 1], actions[k - 1])
    && (Owed(states, actions, k - 1)
        || (SysEnabled(states[k - 1], actions[k - 1]) && SysAsks(states[k - 1], actions[k - 1])))
  }

  /** A step since the last context switch before step k should have asked for one and did not. */
  ghost predicate Overlooked(states: seq<System>, actions: seq<SysAction>, k: nat)
    requires k <= |actions| < |states|
    decreases k
  {
    && k > 0 && !SwitchesNow(states[k - 1], actions[k - 1])
    && (Overlooked(states, actions, k - 1)
        || (SysEnabled(states[k - 1], actions[k - 1]) && SysOverlooks(states[k - 1], actions[k - 1])))
  }

  lemma SwitchSeats(sys: System)
    requires SysEnabled(sys, KernelStep(Switch)) && sys.s.suspended == 0
    ensures OnTop(SysStep(sys, KernelStep(Switch)).s)
  {
    hide Accounted, Sched.Inv, OnTop, SwitchContext;
    AccountedInv(sys);
    SwitchIsStep(sys.s);
    SwitchOnTop(sys.s);
  }

  lemma SeatedAfter(sys: System, a: SysAction)
    requires SysEnabled(sys, a)
    requires SwitchesNow(sys, a) || (OnTop(sys.s) && !SysAsks(sys, a) && !SysOverlooks(sys, a))
    ensures OnTop(SysStep(sys, a).s)
  {
    hide SysStep, SysLegal, Accounted, OnTop, SysAsks, SysOverlooks;
    if SwitchesNow(sys, a) {
      SwitchSeats(sys);
    } else {
      SysStepStaysOnTop(sys, a);
    }
  }

  /** Preemptive scheduling, in every run that starts with the highest-priority task running: whenever no
      context switch is owed, and none has been overlooked since the last, the running task is ready and no
      ready task has a higher priority. */
  lemma {:induction false} PreemptionIsAsked(states: seq<System>, actions: seq<SysAction>, k: nat)
    requires IsSysRun(states, actions) && Accounted(states[0]) && OnTop(states[0].s) && k <= |actions|
    ensures |states| == |actions| + 1
    ensures Owed(states, actions, k) || Overlooked(states, actions, k) || OnTop(states[k].s)
    decreases k
  {
    RunLength(states, actions);
    hide SysStep, SysEnabled, Accounted, IsSysRun, OnTop, SysAsks, SysOverlooks, SwitchesNow;
    if k > 0 {
      PreemptionIsAsked(states, actions, k - 1);
      SysRunStep(states, actions, k - 1);
      if !Owed(states, actions, k) && !Overlooked(states, actions, k) {
        SeatedAfter(states[k - 1], actions[k - 1]);
      }
    }
  }
}
