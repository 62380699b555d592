/** What runs keep of priorities: event items that stand for their tasks' priorities, tasks that run at no
    less than their base priority, and holders that keep up with those who wait for them. */
module MutexPriorities {
  import opened Ticks
  import opened Rosters
  import opened Scheduler
  import opened SchedulerTime
  import opened SchedulerTasks
  import opened SchedulerSafety
  import opened SchedulerRuns
  import opened Mutexes
  import opened MutexRuns

  // ----- two properties of a control block, and what spoils them -----

  datatype Aspect = ItemFollows | AboveBase

  /** The event item, when not in use for something else, stands for the priority; or: the task runs at no
      less than its base priority. */
  predicate Good(q: Aspect, tcb: Tcb) {
    match q
    case ItemFollows => tcb.eventValue < VALUE_IN_USE ==> tcb.eventValue == MAX_PRIORITIES - tcb.priority
    case AboveBase => tcb.priority >= tcb.basePriority
  }

  /** A new base priority p for a task that runs on an inherited priority: the event item is made to stand
      for p, and p may exceed the priority that the task keeps. */
  predicate Spoils(q: Aspect, tcb: Tcb, p: nat) {
    && tcb.priority != tcb.basePriority
    && match q
       case ItemFollows => Clamped(p) != tcb.basePriority && Clamped(p) != tcb.priority && tcb.eventValue < VALUE_IN_USE
       case AboveBase => Clamped(p) > tcb.priority
  }

  /** vTaskPrioritySet loses the property exactly under that condition. */
  lemma PrioritySetExact(q: Aspect, s: Sched, x: Task, p: nat)
    requires s.Shape() && x in s.tcbs && Good(q, s.tcbs[x])
    ensures x in PrioritySet(s, x, p).tcbs
    ensures Good(q, PrioritySet(s, x, p).tcbs[x]) <==> !Spoils(q, s.tcbs[x], p)
  {
    SetPriorityTarget(s, x, p);
    hide PrioritySet, Sched.Shape;
  }

  /** A task is below its base priority after vTaskPrioritySet exactly if it runs on a priority other than
      its base, and the new base exceeds that, whatever was the case before. */
  lemma BaseMayOvertake(s: Sched, x: Task, p: nat)
    requires s.Shape() && x in s.tcbs
    ensures x in PrioritySet(s, x, p).tcbs
    ensures var after := PrioritySet(s, x, p).tcbs[x];
      after.priority < after.basePriority <==>
        s.tcbs[x].priority != s.tcbs[x].basePriority && Clamped(p) > s.tcbs[x].priority
  {
    SetPriorityTarget(s, x, p);
    hide PrioritySet, Sched.Shape;
  }

  ghost predicate AllGood(q: Aspect, s: Sched) {
    forall x :: x in s.tcbs ==> Good(q, s.tcbs[x])
  }

  ghost predicate StepSpoils(q: Aspect, s: Sched, a: Action) {
    a.SetPriority? && a.x in s.tcbs && Spoils(q, s.tcbs[a.x], a.priority)
  }

  // ----- kernel steps -----

  lemma KeptIsGood(q: Aspect, a: Action, before: Tcb, after: Tcb)
    requires Good(q, before) && RankOk(a, before, after)
    ensures Good(q, after) <==> !(a.SetPriority? && Spoils(q, before, a.priority))
  {
  }

  lemma NewcomerIsGood(q: Aspect, s: Sched, x: Task, p: nat)
    requires s.Shape() && x !in s.tcbs
    ensures x in Create(s, x, p).tcbs && Good(q, Create(s, x, p).tcbs[x])
  {
    hide Roster.Consistent, Roster.PutEnd;
  }

  lemma TargetIsGood(q: Aspect, sys: System, a: Action, x: Task)
    requires Enabled(sys.s, a) && Allowed(sys, a) && AllGood(q, sys.s) && Touches(sys.s, a, x) && x in sys.s.tcbs
    ensures x in Step(sys.s, a).tcbs ==>
              (Good(q, Step(sys.s, a).tcbs[x]) <==> !(a.SetPriority? && Spoils(q, sys.s.tcbs[x], a.priority)))
  {
    hide Enabled, Step, Touches, RankOk, EventOk, Good, Allowed;
    TouchedOk(sys, a, x);
    if x in Step(sys.s, a).tcbs {
      KeptIsGood(q, a, sys.s.tcbs[x], Step(sys.s, a).tcbs[x]);
    }
  }

  lemma CreatedIsGood(q: Aspect, s: Sched, a: Action, x: Task)
    requires Enabled(s, a) && x !in s.tcbs && x in Step(s, a).tcbs
    ensures Good(q, Step(s, a).tcbs[x])
  {
    Newcomers(s, a, x);
    CreateStep(s, x, a.priority);
    hide Enabled, Step, Create, Sched.Shape;
    NewcomerIsGood(q, s, x, a.priority);
  }

  lemma CreateStep(s: Sched, x: Task, p: nat)
    requires Enabled(s, CreateTask(x, p))
    ensures s.Shape() && x !in s.tcbs && Step(s, CreateTask(x, p)) == Create(s, x, p)
  {
    hide Sched.Inv, Sched.Core, Sched.Shape, Sched.Timely, Sched.Settled, Roster.Consistent, Create;
    InvShape(s);
  }

  lemma SpoilerTouches(q: Aspect, s: Sched, a: Action)
    requires Enabled(s, a) && StepSpoils(q, s, a)
    ensures Touches(s, a, a.x) && a.x in Step(s, a).tcbs
  {
    hide Sched.Inv, Sched.Shape, Step, PrioritySet, Spoils;
    SetPriorityStep(s, a.x, a.priority);
    SetPriorityStays(s, a.x, a.priority);
  }

  lemma SetPriorityStays(s: Sched, x: Task, p: nat)
    requires s.Shape() && x in s.tcbs
    ensures x in PrioritySet(s, x, p).tcbs
  {
    hide Roster.Consistent, MoveTask;
  }

  /** Every kernel step that the mutexes allow keeps the property of all tasks, except a vTaskPrioritySet
      under the condition above, which loses it. */
  lemma KernelStepExact(q: Aspect, sys: System, a: Action)
    requires Enabled(sys.s, a) && Allowed(sys, a) && AllGood(q, sys.s)
    ensures AllGood(q, Step(sys.s, a)) <==> !StepSpoils(q, sys.s, a)
  {
    hide Enabled, Step, Touches, Undisturbed, Good, Allowed, Spoils;
    var r := Step(sys.s, a);
    GoodStepOf(sys.s, a);
    if StepSpoils(q, sys.s, a) {
      SpoilerTouches(q, sys.s, a);
      TargetIsGood(q, sys, a, a.x);
    } else {
      forall x | x in r.tcbs ensures Good(q, r.tcbs[x]) {
        if x !in sys.s.tcbs {
          CreatedIsGood(q, sys.s, a, x);
        } else if Touches(sys.s, a, x) {
          TargetIsGood(q, sys, a, x);
          TouchedByName(sys.s, a, x);
        } else {
          SameBlock(sys.s, r, x);
        }
      }
    }
  }

  lemma GoodStepOf(s: Sched, a: Action)
    requires Enabled(s, a)
    ensures forall x :: x in s.tcbs && !Touches(s, a, x) ==> Undisturbed(s, Step(s, a), x)
  {
    hide Enabled, Step, Touches, Undisturbed;
    EveryStepGood(s, a);
  }

  lemma SameBlock(s: Sched, r: Sched, x: Task)
    requires Undisturbed(s, r, x)
    ensures x in s.tcbs && x in r.tcbs && r.tcbs[x] == s.tcbs[x]
  {
    hide Where, Sched.Now;
  }

  lemma TouchedByName(s: Sched, a: Action, x: Task)
    requires Enabled(s, a) && Touches(s, a, x)
    ensures a.SetPriority? ==> a.x == x
  {
    hide Enabled;
  }

  // ----- mutex steps -----

  lemma OneChanged(q: Aspect, s: Sched, r: Sched, x: Task)
    requires AllGood(q, s) && x in r.tcbs && r.tcbs == s.tcbs[x := r.tcbs[x]] && Good(q, r.tcbs[x])
    ensures AllGood(q, r)
  {
  }

  lemma TakeKeeps(q: Aspect, s: Sched)
    requires s.Shape() && AllGood(q, s)
    ensures AllGood(q, IncrementHeld(s))
  {
    hide Roster.Consistent;
    OneChanged(q, s, IncrementHeld(s), s.current);
  }

  lemma LendKeeps(q: Aspect, s: Sched, h: Task)
    requires s.Shape() && AllGood(q, s) && h in s.tcbs
    ensures AllGood(q, Inherit(s, h))
  {
    hide Roster.Consistent, MoveTask;
    var r := Inherit(s, h);
    if s.tcbs[h].priority < s.tcbs[s.current].priority {
      OneChanged(q, s, r, h);
    }
  }

  lemma GiveUpKeeps(q: Aspect, s: Sched, h: Task, highest: nat)
    requires s.Shape() && AllGood(q, s) && h in s.tcbs && highest < MAX_PRIORITIES
    ensures AllGood(q, DisinheritAfterTimeout(s, h, highest))
  {
    hide Roster.Consistent, MoveTask;
    var r := DisinheritAfterTimeout(s, h, highest);
    if r != s {
      OneChanged(q, s, r, h);
    }
  }

  lemma GiveKeeps(q: Aspect, s: Sched)
    requires s.Shape() && AllGood(q, s) && s.tcbs[s.current].mutexesHeld > 0
    ensures AllGood(q, Disinherit(s))
  {
    hide Roster.Consistent, MoveTask;
    OneChanged(q, s, Disinherit(s), s.current);
  }

  lemma QueueUpKeeps(q: Aspect, s: Sched, m: nat, d: Tick)
    requires s.Inv() && Running(s) && Waiting(m) in s.event.lists && AllGood(q, s)
    ensures s.current !in s.event.place
    ensures AllGood(q, PlaceOnEventList(s, Waiting(m), d))
  {
    hide Sched.Inv, Running, PlaceOnEventList;
    InvShape(s);
    RunningFacts(s);
    PlacedFrame(s, m, d);
    OneChanged(q, s, PlaceOnEventList(s, Waiting(m), d), s.current);
  }

  lemma WakeKeeps(q: Aspect, s: Sched, e: EventList)
    requires s.Inv() && e in s.event.lists && s.event.lists[e].items != [] && AllGood(q, s)
    ensures AllGood(q, RemoveFromEventList(s, e))
  {
    hide Sched.Inv, RemoveFromEventList, Good;
    InvShape(s);
    WakeFrame(s, e);
  }

  lemma GiveBackKeeps(q: Aspect, sys: System, m: nat)
    requires Accounted(sys) && Running(sys.s) && m in sys.mutexes && sys.mutexes[m].holder == HeldBy(sys.s.current)
    requires AllGood(q, sys.s)
    ensures sys.s.Shape() && Waiting(m) in sys.s.event.lists && sys.s.tcbs[sys.s.current].mutexesHeld > 0
    ensures AllGood(q, Give(sys, m).s)
  {
    hide Accounted, Running, Disinherit, RemoveFromEventList, AllGood;
    HolderFacts(sys, m);
    ReleaseAccounts(sys, m);
    GiveKeeps(q, sys.s);
    var g := Release(sys, m);
    AccountedInv(g);
    if g.s.event.lists[Waiting(m)].items != [] {
      WakeKeeps(q, g.s, Waiting(m));
    }
  }

  ghost predicate SysSpoils(q: Aspect, sys: System, a: SysAction) {
    a.KernelStep? && StepSpoils(q, sys.s, a.a)
  }

  lemma TakingKeeps(q: Aspect, sys: System, a: SysAction)
    requires SysEnabled(sys, a) && AllGood(q, sys.s) && (a.TakeMutex? || a.TakeRecursively? || a.CreateMutex?)
    ensures AllGood(q, SysStep(sys, a).s)
  {
    hide Accounted, AllGood, IncrementHeld, Running, Sched.Inv, Sched.Shape, Holds, Legal, Allowed, Step;
    AccountedInv(sys);
    InvShape(sys.s);
    TakeKeeps(q, sys.s);
  }

  lemma WaitingKeeps(q: Aspect, sys: System, a: SysAction)
    requires SysEnabled(sys, a) && AllGood(q, sys.s) && (a.LendFor? || a.QueueUpFor? || a.GiveUpOn?)
    ensures AllGood(q, SysStep(sys, a).s)
  {
    hide Accounted, AllGood, Inherit, PlaceOnEventList, DisinheritAfterTimeout, Running, HighestWaiting,
         NothingLent;
    AccountedInv(sys);
    HolderFacts(sys, a.m);
    if a.LendFor? {
      LendKeeps(q, sys.s, sys.mutexes[a.m].holder.task);
    } else if a.QueueUpFor? {
      QueueUpKeeps(q, sys.s, a.m, a.ticks);
    } else {
      WaitersHavePriorities(sys, a.m);
      if sys.mutexes[a.m].holder.HeldBy? {
        GiveUpKeeps(q, sys.s, sys.mutexes[a.m].holder.task, HighestWaiting(sys, a.m));
      }
    }
  }

  lemma GivingKeeps(q: Aspect, sys: System, a: SysAction)
    requires SysEnabled(sys, a) && AllGood(q, sys.s) && (a.GiveBack? || a.GiveRecursively?)
    ensures AllGood(q, SysStep(sys, a).s)
  {
    hide Accounted, AllGood, Give, Running, Sched.Inv, Sched.Shape, Holds, Legal, Allowed, Step;
    AccountedInv(sys);
    if a.GiveBack? {
      GiveBackKeeps(q, sys, a.m);
    } else {
      HolderFacts(sys, a.m);
      RecursionKeepsAccounts(sys, a.m, sys.mutexes[a.m].recursion - 1);
      if sys.mutexes[a.m].recursion == 1 {
        GiveBackKeeps(q, sys.(mutexes := sys.mutexes[a.m := sys.mutexes[a.m].(recursion := 0)]), a.m);
      }
    }
  }

  lemma SysStepKeeps(q: Aspect, sys: System, a: SysAction)
    requires SysEnabled(sys, a) && AllGood(q, sys.s) && !SysSpoils(q, sys, a)
    ensures AllGood(q, SysStep(sys, a).s)
  {
    hide Accounted, AllGood, SysStep, StepSpoils;
    if a.KernelStep? {
      KernelKeeps(q, sys, a.a);
    } else if a.TakeMutex? || a.TakeRecursively? || a.CreateMutex? {
      TakingKeeps(q, sys, a);
    } else if a.GiveBack? || a.GiveRecursively? {
      GivingKeeps(q, sys, a);
    } else {
      WaitingKeeps(q, sys, a);
    }
  }

  lemma KernelKeeps(q: Aspect, sys: System, a: Action)
    requires SysEnabled(sys, KernelStep(a)) && AllGood(q, sys.s) && !StepSpoils(q, sys.s, a)
    ensures AllGood(q, SysStep(sys, KernelStep(a)).s)
  {
    hide Accounted, AllGood, StepSpoils, Step, Legal, Sched.Inv, Allowed;
    AccountedInv(sys);
    KernelStepExact(q, sys, a);
  }

  // ----- runs -----

  ghost predicate NeverSpoilt(q: Aspect, states: seq<System>, actions: seq<SysAction>, k: nat)
    requires k <= |actions| && k <= |states|
  {
    forall j :: 0 <= j < k ==> !SysSpoils(q, states[j], actions[j])
  }

  /** In every run in which no base priority is set under the condition above, every event item stands for
      its task's priority, and every task runs at no less than its base priority. */
  lemma {:induction false} GoodThroughout(q: Aspect, states: seq<System>, actions: seq<SysAction>, k: nat)
    requires IsSysRun(states, actions) && Accounted(states[0]) && AllGood(q, states[0].s) && k <= |actions|
    requires NeverSpoilt(q, states, actions, k)
    ensures AllGood(q, states[k].s)
    decreases k
  {
    hide *;
    if k > 0 {
      SysRunStep(states, actions, k - 1);
      SpoiltBefore(q, states, actions, k);
      GoodThroughout(q, states, actions, k - 1);
      SysStepKeeps(q, states[k - 1], actions[k - 1]);
    }
  }

  lemma SpoiltBefore(q: Aspect, states: seq<System>, actions: seq<SysAction>, k: nat)
    requires 0 < k <= |actions| && k <= |states| && NeverSpoilt(q, states, actions, k)
    ensures NeverSpoilt(q, states, actions, k - 1) && !SysSpoils(q, states[k - 1], actions[k - 1])
  {
    hide SysSpoils;
  }

  /** The priority of the first task waiting for the mutex. */
  function FirstWaiter(sys: System, m: nat): nat
    requires sys.s.Shape() && Waiting(m) in sys.s.event.lists
  {
    var waiters := sys.s.event.lists[Waiting(m)].items;
    if waiters == [] then IDLE_PRIORITY
    else
      EventHead(sys.s, Waiting(m));
      sys.s.tcbs[waiters[0]].priority
  }

  lemma ItemTellsPriority(sys: System, m: nat)
    requires Accounted(sys) && m in sys.mutexes && AllGood(ItemFollows, sys.s)
    ensures Waiting(m) in sys.s.event.lists && sys.s.Shape() && HighestWaiting(sys, m) == FirstWaiter(sys, m)
  {
    HolderFacts(sys, m);
    var waiters := sys.s.event.lists[Waiting(m)].items;
    if waiters != [] {
      EventHead(sys.s, Waiting(m));
      assert TaskAccounted(sys, waiters[0]);
      hide Holds, Sched.Inv;
    }
  }

  /** While items follow priorities, a holder of one mutex goes back after a timeout to the greater of its
      base priority and the first remaining waiter's priority; a holder of several keeps its priority. */
  lemma GiveUpFollowsWaiter(sys: System, m: nat)
    requires Accounted(sys) && AllGood(ItemFollows, sys.s) && m in sys.mutexes && sys.mutexes[m].count == 0
    ensures sys.mutexes[m].holder.HeldBy? && Waiting(m) in sys.s.event.lists && sys.s.Shape()
    ensures sys.mutexes[m].holder.task in sys.s.tcbs && 0 <= HighestWaiting(sys, m) < MAX_PRIORITIES
    ensures var r, h := GiveUp(sys, m), sys.mutexes[m].holder.task;
      && Accounted(r) && h in r.s.tcbs
      && r.s.tcbs[h].priority == (if sys.s.tcbs[h].mutexesHeld == 1
                                  then Max(sys.s.tcbs[h].basePriority, FirstWaiter(sys, m))
                                  else sys.s.tcbs[h].priority)
  {
    hide Accounted, AllGood, HighestWaiting, FirstWaiter, GiveUp;
    ItemTellsPriority(sys, m);
    GiveUpAccounts(sys, m);
    AccountedInv(sys);
  }

  /** The same in every run: unless a base priority was set under the condition above, the end of a wait that
      timed out never leaves the holder of just that mutex below the first remaining waiter. */
  lemma TimeoutRespectsWaiter(states: seq<System>, actions: seq<SysAction>, k: nat, m: nat)
    requires IsSysRun(states, actions) && Accounted(states[0]) && AllGood(ItemFollows, states[0].s)
    requires k < |actions| && actions[k] == GiveUpOn(m) && NeverSpoilt(ItemFollows, states, actions, k)
    ensures Accounted(states[k]) && m in states[k].mutexes
    ensures states[k].s.Shape() && Waiting(m) in states[k].s.event.lists
    ensures states[k].mutexes[m].holder == Nobody ==> states[k + 1] == states[k]
    ensures states[k].mutexes[m].holder.HeldBy? ==>
              var h := states[k].mutexes[m].holder.task;
              && h in states[k].s.tcbs && h in states[k + 1].s.tcbs
              && states[k + 1].s.tcbs[h].priority ==
                   (if states[k].s.tcbs[h].mutexesHeld == 1
                    then Max(states[k].s.tcbs[h].basePriority, FirstWaiter(states[k], m))
                    else states[k].s.tcbs[h].priority)
  {
    hide *;
    SysRunStep(states, actions, k);
    GoodThroughout(ItemFollows, states, actions, k);
    TimedOutRespects(states[k], m);
  }

  lemma TimedOutRespects(sys: System, m: nat)
    requires SysEnabled(sys, GiveUpOn(m)) && AllGood(ItemFollows, sys.s)
    ensures Accounted(sys) && m in sys.mutexes && sys.s.Shape() && Waiting(m) in sys.s.event.lists
    ensures var r := SysStep(sys, GiveUpOn(m));
      && (sys.mutexes[m].holder == Nobody ==> r == sys)
      && (sys.mutexes[m].holder.HeldBy? ==>
            var h := sys.mutexes[m].holder.task;
            && h in sys.s.tcbs && h in r.s.tcbs
            && r.s.tcbs[h].priority == (if sys.s.tcbs[h].mutexesHeld == 1
                                        then Max(sys.s.tcbs[h].basePriority, FirstWaiter(sys, m))
                                        else sys.s.tcbs[h].priority))
  {
    hide Accounted, AllGood, Sched.Inv, DisinheritAfterTimeout, FirstWaiter, HighestWaiting, Running, NothingLent;
    HolderFacts(sys, m);
    GiveUpOnAccounts(sys, m);
    if sys.mutexes[m].holder.HeldBy? {
      GiveUpFollowsWaiter(sys, m);
    }
  }

  // ----- lending and queueing up, with interrupts in between -----

  /** What interrupts may do while the scheduler is suspended. */
  predicate IsInterrupt(a: Action) {
    a.Tick? || a.ResumeTaskFromISR? || a.Remove?
  }

  lemma InterruptLeaves(s: Sched, a: Action)
    requires Enabled(s, a) && IsInterrupt(a) && s.suspended > 0
    ensures var r := Step(s, a); r.tcbs == s.tcbs && r.current == s.current && r.suspended == s.suspended
  {
    hide Sched.Core, Sched.Shape, Roster.PutEnd, Sched.Timely, Sched.Settled;
    InvShape(s);
    if a.Remove? {
      EventHead(s, a.e);
    }
  }

  /** From state i to state j, where lending and queueing up happen, the scheduler is suspended and
      interrupts run. */
  ghost predicate OnlyInterrupts(states: seq<System>, actions: seq<SysAction>, i: nat, j: nat)
    requires j <= |actions| && j <= |states|
  {
    forall l :: i < l < j ==> actions[l].KernelStep? && IsInterrupt(actions[l].a)
  }

  lemma LendLeaves(sys: System, m: nat)
    requires SysEnabled(sys, LendFor(m))
    ensures var r := SysStep(sys, LendFor(m));
      && r.mutexes == sys.mutexes && r.s.current == sys.s.current && r.s.suspended == sys.s.suspended
      && sys.mutexes[m].holder.HeldBy? && sys.mutexes[m].holder.task in r.s.tcbs && sys.s.current in r.s.tcbs
      && r.s.tcbs[sys.mutexes[m].holder.task].priority >= r.s.tcbs[sys.s.current].priority
  {
    hide Accounted, Sched.Inv, Inherit, OnlyMoves;
    HeldMutex(sys, m);
    AccountedInv(sys);
    InheritSafe(sys.s, sys.mutexes[m].holder.task);
    LentBlock(sys.s, sys.mutexes[m].holder.task);
  }

  lemma LentBlock(s: Sched, h: Task)
    requires s.Inv() && h in s.tcbs
    ensures var r := Inherit(s, h); s.current in s.tcbs && h in r.tcbs && r.tcbs == s.tcbs[h := r.tcbs[h]]
  {
    InheritFrame(s, h);
    hide Inherit, AtPriority;
  }

  /** The holder's priority and the lender's in state l, lending being past. */
  ghost predicate KeepsUp(sys: System, m: nat, x: Task) {
    && m in sys.mutexes && sys.mutexes[m].holder.HeldBy? && sys.mutexes[m].holder.task in sys.s.tcbs
    && sys.s.current == x && x in sys.s.tcbs
    && sys.s.tcbs[sys.mutexes[m].holder.task].priority >= sys.s.tcbs[x].priority
  }

  lemma InterruptKeepsUp(sys: System, a: SysAction, m: nat, x: Task)
    requires SysEnabled(sys, a) && a.KernelStep? && IsInterrupt(a.a) && sys.s.suspended > 0 && KeepsUp(sys, m, x)
    ensures KeepsUp(SysStep(sys, a), m, x) && SysStep(sys, a).s.suspended > 0
  {
    hide Accounted, Step, Legal, Sched.Inv;
    AccountedInv(sys);
    InterruptLeaves(sys.s, a.a);
  }

  lemma {:induction false} KeepsUpBetween(states: seq<System>, actions: seq<SysAction>, i: nat, j: nat, m: nat)
    requires IsSysRun(states, actions) && Accounted(states[0]) && i < j <= |actions|
    requires actions[i] == LendFor(m) && states[i].s.suspended > 0 && OnlyInterrupts(states, actions, i, j)
    ensures KeepsUp(states[j], m, states[i].s.current) && states[j].s.suspended > 0
    decreases j
  {
    hide Accounted, SysStep, SysLegal, KeepsUp;
    AccountedThroughout(states, actions, j - 1);
    if j == i + 1 {
      LendLeaves(states[i], m);
      LentKeepsUp(states[i], m);
    } else {
      KeepsUpBetween(states, actions, i, j - 1, m);
      InterruptKeepsUp(states[j - 1], actions[j - 1], m, states[i].s.current);
    }
  }

  lemma LentKeepsUp(sys: System, m: nat)
    requires SysEnabled(sys, LendFor(m))
    ensures KeepsUp(SysStep(sys, LendFor(m)), m, sys.s.current)
  {
    hide Accounted, SysStep;
    LendLeaves(sys, m);
    MutexKnown(sys, m);
  }

  lemma MutexKnown(sys: System, m: nat)
    requires SysEnabled(sys, LendFor(m))
    ensures m in sys.mutexes
  {
    hide Accounted;
  }

  /** Right after a task has blocked on a mutex, interrupts having come between its lending its priority and
      its joining the list or not, the holder runs at no less than that task's priority. */
  lemma HolderKeepsUpWithWaiter(states: seq<System>, actions: seq<SysAction>, i: nat, j: nat, m: nat, d: Tick)
    requires IsSysRun(states, actions) && Accounted(states[0]) && i < j < |actions|
    requires actions[i] == LendFor(m) && states[i].s.suspended > 0 && OnlyInterrupts(states, actions, i, j)
    requires actions[j] == QueueUpFor(m, d)
    ensures var x, r := states[i].s.current, states[j + 1];
      && m in r.mutexes && r.mutexes[m].holder.HeldBy? && r.mutexes[m].holder.task in r.s.tcbs && x in r.s.tcbs
      && r.s.tcbs[r.mutexes[m].holder.task].priority >= r.s.tcbs[x].priority
      && x in r.s.event.place && r.s.event.place[x] == Waiting(m)
  {
    hide Accounted, SysStep, SysLegal, KeepsUp;
    KeepsUpBetween(states, actions, i, j, m);
    AccountedThroughout(states, actions, j);
    QueuedKeepsUp(states[j], m, d, states[i].s.current);
  }

  lemma QueuedKeepsUp(sys: System, m: nat, d: Tick, x: Task)
    requires SysEnabled(sys, QueueUpFor(m, d)) && KeepsUp(sys, m, x)
    ensures var r := SysStep(sys, QueueUpFor(m, d));
      && m in r.mutexes && r.mutexes[m].holder.HeldBy? && r.mutexes[m].holder.task in r.s.tcbs && x in r.s.tcbs
      && r.s.tcbs[r.mutexes[m].holder.task].priority >= r.s.tcbs[x].priority
      && x in r.s.event.place && r.s.event.place[x] == Waiting(m)
  {
    hide Accounted, Sched.Inv, Sched.Shape, PlaceOnEventList, OnlyMoves, Where, Holds, Legal, Allowed, Step;
    AccountedInv(sys);
    HeldMutex(sys, m);
    PlaceOnEventListSafe(sys.s, Waiting(m), d);
    PlacedFrame(sys.s, m, d);
  }

  lemma SetPriorityStep(s: Sched, x: Task, p: nat)
    requires s.Inv() && x in s.tcbs
    ensures s.Shape() && Enabled(s, SetPriority(x, p)) && Step(s, SetPriority(x, p)) == PrioritySet(s, x, p)
  {
    hide Sched.Inv, Sched.Core, Sched.Shape, Sched.Timely, Sched.Settled, Roster.Consistent, PrioritySet;
    InvShape(s);
  }
}
