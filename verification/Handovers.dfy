/** What is left in a task's control block for the time when it runs again, over runs: the note that its delay was
    aborted, by which xTaskCheckForTimeOut ends a wait early, and the value that whoever wakes it puts into its event
    item.  Also what xTaskPriorityInherit returns. */
module Handovers {
  import opened Ticks
  import opened Rosters
  import opened Scheduler
  import opened SchedulerTime
  import opened SchedulerSuspension
  import opened SchedulerTasks
  import opened SchedulerSafety
  import opened SchedulerRuns

  ghost predicate Noted(s: Sched, x: Task) { x in s.tcbs && s.tcbs[x].delayAborted }

  /** The step aborts the wait of task x for an event. */
  predicate Aborts(s: Sched, a: Action, x: Task) {
    a == Abort(x) && IsWaiting(s, x) && x in s.event.place
  }

  /** The step has task x begin to wait, or look whether it may go on waiting. */
  predicate Forgets(s: Sched, a: Action, x: Task) {
    x == s.current && (IsBlocking(a) || a.CheckTimeOut?)
  }

  /** The step gives the event item of task x a new value, even if the old one is in use. */
  predicate Rewrites(s: Sched, a: Action, x: Task) {
    || (x == s.current && (a.PlaceUnordered? || a.ResetItem? || a.GiveMutex?))
    || (a.RemoveUnordered? && a.x == x)
  }

  ghost predicate NoteKept(s: Sched, a: Action, x: Task)
    requires Enabled(s, a)
  {
    x in s.tcbs && x in Step(s, a).tcbs ==>
      && (Noted(Step(s, a), x) <==> Aborts(s, a, x) || (Noted(s, x) && !Forgets(s, a, x)))
      && (s.tcbs[x].eventValue >= VALUE_IN_USE && !Rewrites(s, a, x) ==>
            Step(s, a).tcbs[x].eventValue == s.tcbs[x].eventValue)
  }

  /** At most the block of task y changes, with this note in it; if so told, an event item value in use is kept. */
  ghost predicate OneBlock(s: Sched, r: Sched, y: Task, note: bool, kept: bool) {
    && y in s.tcbs && y in r.tcbs && r.tcbs == s.tcbs[y := r.tcbs[y]] && r.tcbs[y].delayAborted == note
    && (kept && s.tcbs[y].eventValue >= VALUE_IN_USE ==> r.tcbs[y].eventValue == s.tcbs[y].eventValue)
  }

  lemma TimeKeepsBlocks(s: Sched, a: Action)
    requires Enabled(s, a) && (a.Tick? || a.ResumeScheduler?)
    ensures Step(s, a).tcbs == s.tcbs
  {
    hide Roster.Consistent, Sched.ReadyListsMatch, Sched.DelaysSorted, Sched.EventWaitersBlocked, Sched.Timely,
         Sched.Settled, TickStep, ResumedTo,
         AfterTicks, ResumeAll;
    if a.Tick? && s.suspended == 0 {
      TickEffect(s);
      SameTasks(s, TickStep(s).s, 1);
    } else if a.Tick? {
      TickHeldBack(s);
    } else if s.suspended == 1 {
      ResumeEffect(s);
    } else {
      InnerResumeBlocks(s);
    }
  }

  lemma InnerResumeBlocks(s: Sched)
    requires s.Shape() && s.suspended > 1
    ensures ResumeAll(s).tcbs == s.tcbs
  {
    hide Sched.Shape;
  }

  lemma BookkeepingKeepsBlocks(s: Sched, a: Action)
    requires Enabled(s, a) && IsBookkeeping(a)
    ensures Step(s, a).tcbs == s.tcbs
  {
    hide Roster.Consistent, Sched.ReadyListsMatch, Sched.DelaysSorted, Sched.EventWaitersBlocked, Sched.Timely,
         Sched.Settled, SwitchContext;
    SwitchFrame(s);
  }

  lemma SameTasks(s: Sched, r: Sched, n: nat)
    requires AfterTicks(s, n, r)
    ensures r.tcbs == s.tcbs
  {
  }

  lemma TickHeldBack(s: Sched)
    requires s.Shape() && s.suspended > 0
    ensures TickStep(s).s.tcbs == s.tcbs
  {
    hide Roster.Consistent;
  }

  lemma BlockBlock(s: Sched, d: Tick, indefinite: bool)
    requires s.Shape()
    ensures OneBlock(s, BlockCurrent(s, d, indefinite), s.current, false, true)
  {
    hide Sched.Shape, Roster.Consistent, Roster.Take, Roster.PutSorted, Roster.Move;
    s.ListsKnown();
  }

  lemma PlaceBlock(s: Sched, e: EventList, d: Tick)
    requires s.Shape() && e in s.event.lists && s.current !in s.event.place
    ensures OneBlock(s, PlaceOnEventList(s, e, d), s.current, false, true)
  {
    OnEventListHasTcb(s, e);
    hide Roster.Consistent, Roster.PutSorted, BlockCurrent, OneBlock;
    var values := EventValues(s.tcbs, s.event.lists[e].items);
    var u := s.(event := s.event.PutSorted(e, s.current, s.tcbs[s.current].eventValue, values));
    BlockBlock(u, d, true);
    SameBlocks(s, u, BlockCurrent(u, d, true), s.current);
  }

  lemma SameBlocks(s: Sched, u: Sched, r: Sched, y: Task)
    requires u.tcbs == s.tcbs && OneBlock(u, r, y, false, true)
    ensures OneBlock(s, r, y, false, true)
  {
  }

  lemma PlaceUnorderedBlock(s: Sched, e: EventList, v: Tick, d: Tick)
    requires s.Shape() && e in s.event.lists && s.current !in s.event.place
    ensures OneBlock(s, PlaceOnUnordered(s, e, v, d), s.current, false, false)
  {
    hide Roster.Consistent, Roster.PutEnd, BlockCurrent;
    BlockBlock(SetTcb(s, s.current, s.tcbs[s.current].(eventValue := OrInUse(v)))
               .(event := s.event.PutEnd(e, s.current)), d, true);
  }

  lemma BlockingBlock(s: Sched, a: Action)
    requires Enabled(s, a) && IsBlocking(a)
    ensures OneBlock(s, Step(s, a), s.current, false, !a.PlaceUnordered?)
  {
    hide Sched.Core, Sched.Shape, Sched.Timely, Sched.Settled, BlockCurrent, PlaceOnEventList, PlaceOnUnordered,
         OneBlock;
    InvShape(s);
    match a {
      case Block(d, indefinite) => BlockBlock(s, d, indefinite);
      case Place(e, d) =>
        CurrentUnplaced(s);
        PlaceBlock(s, e, d);
      case PlaceUnordered(e, v, d) =>
        CurrentUnplaced(s);
        PlaceUnorderedBlock(s, e, v, d);
    }
  }

  lemma RemoveUnorderedBlock(s: Sched, x: Task, v: Tick)
    requires s.Shape() && x in s.event.place
    ensures x in s.tcbs && OneBlock(s, RemoveFromUnordered(s, x, v), x, s.tcbs[x].delayAborted, false)
    ensures RemoveFromUnordered(s, x, v).tcbs[x].eventValue == OrInUse(v)
  {
    hide Roster.Consistent, DropEvent, MoveTask;
  }

  lemma AbortBlock(s: Sched, x: Task)
    requires s.Shape() && x in s.tcbs
    ensures OneBlock(s, AbortDelay(s, x), x, s.tcbs[x].delayAborted || Aborts(s, Abort(x), x), true)
  {
    hide Roster.Consistent, DropEvent, MoveTask;
  }

  lemma OtherWaking(s: Sched, a: Action)
    requires Enabled(s, a) && IsWaking(a) && !a.RemoveUnordered? && !a.Abort?
    ensures Step(s, a).tcbs == s.tcbs
  {
    hide Sched.Core, Sched.Timely, Sched.Settled, Roster.Consistent, Roster.Move, Roster.PutEnd, Roster.TakeIfPlaced;
    InvShape(s);
    if a.Remove? {
      EventHead(s, a.e);
    }
    hide Sched.Shape;
  }

  /** The note follows from the one block. */
  lemma NoteOf(s: Sched, a: Action, x: Task, y: Task, note: bool, kept: bool)
    requires Enabled(s, a) && OneBlock(s, Step(s, a), y, note, kept)
    requires note <==> Aborts(s, a, y) || (s.tcbs[y].delayAborted && !Forgets(s, a, y))
    requires x != y ==> !Aborts(s, a, x) && !Forgets(s, a, x)
    requires kept || Rewrites(s, a, y)
    ensures NoteKept(s, a, x)
  {
    hide Sched.Inv, Legal, Step, Aborts, Forgets;
  }

  lemma WakingKeepsNote(s: Sched, a: Action, x: Task)
    requires Enabled(s, a) && (a.RemoveUnordered? || a.Abort?)
    ensures NoteKept(s, a, x)
  {
    hide Sched.Core, Sched.Shape, Sched.Timely, Sched.Settled, RemoveFromUnordered, AbortDelay, OneBlock, NoteKept;
    InvShape(s);
    s.ListsKnown();
    if a.Abort? {
      AbortBlock(s, a.x);
      NoteOf(s, a, x, a.x, s.tcbs[a.x].delayAborted || Aborts(s, a, a.x), true);
    } else {
      RemoveUnorderedBlock(s, a.x, a.value);
      NoteOf(s, a, x, a.x, s.tcbs[a.x].delayAborted, false);
    }
  }

  lemma RequeueBlock(s: Sched, x: Task, tcb: Tcb)
    requires s.Shape() && x in s.tcbs && tcb.priority < MAX_PRIORITIES && tcb.basePriority < MAX_PRIORITIES
    ensures Requeue(s, x, tcb).tcbs == s.tcbs[x := tcb]
  {
    hide Roster.Consistent, MoveTask;
  }

  lemma SetPriorityBlock(s: Sched, x: Task, p: nat)
    requires s.Shape() && x in s.tcbs
    ensures OneBlock(s, PrioritySet(s, x, p), x, s.tcbs[x].delayAborted, true)
  {
    hide Roster.Consistent, Requeue;
    var q, tcb := if p >= MAX_PRIORITIES then MAX_PRIORITIES - 1 else p, s.tcbs[x];
    RequeueBlock(s, x, tcb.(priority := if tcb.basePriority == tcb.priority then q else tcb.priority,
                            basePriority := q, eventValue := EventValueFor(tcb, q)));
  }

  lemma InheritBlock(s: Sched, x: Task)
    requires s.Shape() && x in s.tcbs
    ensures OneBlock(s, Inherit(s, x), x, s.tcbs[x].delayAborted, true)
  {
    hide Roster.Consistent, Requeue;
    var tcb, p := s.tcbs[x], s.tcbs[s.current].priority;
    RequeueBlock(s, x, tcb.(priority := p, eventValue := EventValueFor(tcb, p)));
  }

  lemma TimeOutBlock(s: Sched, x: Task, highest: nat)
    requires s.Shape() && x in s.tcbs && highest < MAX_PRIORITIES
    ensures OneBlock(s, DisinheritAfterTimeout(s, x, highest), x, s.tcbs[x].delayAborted, true)
  {
    hide Roster.Consistent, Requeue;
    var tcb := s.tcbs[x];
    var p := if tcb.basePriority < highest then highest else tcb.basePriority;
    RequeueBlock(s, x, tcb.(priority := p, eventValue := EventValueFor(tcb, p)));
  }

  lemma LendingBlock(s: Sched, a: Action)
    requires Enabled(s, a) && (a.SetPriority? || a.InheritTo? || a.TimeOutOn?)
    ensures a.x in s.tcbs && OneBlock(s, Step(s, a), a.x, s.tcbs[a.x].delayAborted, true)
  {
    hide Sched.Core, Sched.Shape, Sched.Timely, Sched.Settled, PrioritySet, Inherit, DisinheritAfterTimeout, OneBlock;
    InvShape(s);
    match a {
      case SetPriority(x, p) => SetPriorityBlock(s, x, p);
      case InheritTo(x) => InheritBlock(s, x);
      case TimeOutOn(x, h) => TimeOutBlock(s, x, h);
    }
  }

  lemma OwnBlock(s: Sched, a: Action)
    requires Enabled(s, a) && IsRanking(a) && !(a.SetPriority? || a.InheritTo? || a.TimeOutOn?)
    ensures s.current in s.tcbs
    ensures OneBlock(s, Step(s, a), s.current, s.tcbs[s.current].delayAborted && !a.CheckTimeOut?,
                     !a.ResetItem? && !a.GiveMutex?)
  {
    hide Sched.Core, Sched.Timely, Sched.Settled, Roster.Consistent, MoveTask;
    InvShape(s);
  }

  /** The deleted task's block is gone, or as it was. */
  lemma DeletedBlock(s: Sched, x: Task)
    requires s.Shape() && x in s.tcbs && s.numberOfTasks > 0
    ensures x in Delete(s, x).tcbs ==> Delete(s, x).tcbs[x] == s.tcbs[x]
  {
    hide Roster.Consistent, MoveTask, DropEvent;
  }

  lemma CleanedBlock(s: Sched)
    requires s.Core() && s.current == IDLE && s.deletedTasks > 0
    ensures s.state.lists[WaitingTermination].items != []
    ensures s.state.lists[WaitingTermination].items[0] !in CleanUpOne(s).tcbs
  {
    hide Roster.Consistent, Sched.ReadyListsMatch, Sched.DelaysSorted, Sched.EventWaitersBlocked;
    DeletedHead(s);
  }

  lemma DyingBlock(s: Sched, a: Action, x: Task)
    requires Enabled(s, a) && IsBirthOrDeath(a) && x in s.tcbs && Touches(s, a, x)
    ensures x in Step(s, a).tcbs ==> Step(s, a).tcbs[x] == s.tcbs[x]
  {
    hide Roster.Consistent, Sched.ReadyListsMatch, Sched.DelaysSorted, Sched.EventWaitersBlocked, Sched.Timely,
         Sched.Settled, Delete, CleanUpOne, Create;
    if a.DeleteTask? {
      ForgetNumbers(s);
      DeletedBlock(s, x);
    } else {
      CleanedBlock(s);
    }
  }

  lemma BirthKeepsNote(s: Sched, a: Action, x: Task)
    requires Enabled(s, a) && IsBirthOrDeath(a)
    ensures NoteKept(s, a, x)
  {
    hide Sched.Inv, Legal, Step, Touches;
    if x in s.tcbs {
      if Touches(s, a, x) {
        DyingBlock(s, a, x);
      } else {
        EveryStepGood(s, a);
        assert Undisturbed(s, Step(s, a), x);
      }
    }
  }

  /** Exactly the steps that abort a wait for an event leave the note, and exactly beginning to wait and looking
      use it up. */
  lemma StepKeepsNote(s: Sched, a: Action, x: Task)
    requires Enabled(s, a)
    ensures NoteKept(s, a, x)
  {
    hide Sched.Inv, Legal, Step;
    if IsBookkeeping(a) {
      BookkeepingKeepsBlocks(s, a);
    } else if a.Tick? || a.ResumeScheduler? {
      TimeKeepsBlocks(s, a);
    } else if IsBlocking(a) {
      BlockingBlock(s, a);
    } else if a.RemoveUnordered? || a.Abort? {
      WakingKeepsNote(s, a, x);
    } else if IsWaking(a) {
      OtherWaking(s, a);
    } else if a.SetPriority? || a.InheritTo? || a.TimeOutOn? {
      LendingBlock(s, a);
    } else if IsRanking(a) {
      OwnBlock(s, a);
    } else {
      BirthKeepsNote(s, a, x);
    }
  }

  /** Task x exists from state i to state k. */
  ghost predicate Exists(states: seq<Sched>, x: Task, i: nat, k: nat)
    requires i <= k < |states|
  {
    forall j :: i <= j <= k ==> x in states[j].tcbs
  }

  /** Some step from i on, before k, aborted the wait of task x for an event, and since then it has neither begun
      to wait nor looked. */
  ghost predicate AbortedSince(states: seq<Sched>, actions: seq<Action>, x: Task, i: nat, k: nat)
    requires i <= k < |states| == |actions| + 1
  {
    exists j {:trigger Aborts(states[j], actions[j], x)} :: i <= j < k && Aborts(states[j], actions[j], x) &&
      forall n :: j < n < k ==> !Forgets(states[n], actions[n], x)
  }

  lemma AbortedOneOn(states: seq<Sched>, actions: seq<Action>, x: Task, i: nat, k: nat)
    requires i < k < |states| == |actions| + 1
    ensures AbortedSince(states, actions, x, i, k) <==>
            || Aborts(states[k - 1], actions[k - 1], x)
            || (AbortedSince(states, actions, x, i, k - 1) && !Forgets(states[k - 1], actions[k - 1], x))
  {
    hide Aborts, Forgets;
  }

  /** What xTaskCheckForTimeOut will find is the truth: from a state without the note on, a task carries the note if
      and only if its wait for an event was aborted since it last began to wait or looked. */
  lemma {:induction false} NotedIffAborted(states: seq<Sched>, actions: seq<Action>, x: Task, i: nat, k: nat)
    requires IsRun(states, actions) && states[0].Inv() && i <= k <= |actions| && Exists(states, x, i, k)
    requires !Noted(states[i], x)
    ensures Noted(states[k], x) <==> AbortedSince(states, actions, x, i, k)
    decreases k
  {
    hide Sched.Inv, Step, Legal, Aborts, Forgets;
    if k > i {
      RunStep(states, actions, k - 1);
      NotedIffAborted(states, actions, x, i, k - 1);
      StepKeepsNote(states[k - 1], actions[k - 1], x);
      AbortedOneOn(states, actions, x, i, k);
      hide AbortedSince;
    }
  }

  // ----- the value handed over -----

  /** The value is told from a priority by its top bit; the rest of it is what was given. */
  lemma InUseKeepsValue(v: Tick)
    ensures OrInUse(v) >= VALUE_IN_USE && OrInUse(v) % VALUE_IN_USE == v % VALUE_IN_USE
  {
  }

  lemma WakerSets(s: Sched, x: Task, v: Tick)
    requires Enabled(s, RemoveUnordered(x, v))
    ensures x in Step(s, RemoveUnordered(x, v)).tcbs
    ensures Step(s, RemoveUnordered(x, v)).tcbs[x].eventValue == OrInUse(v)
  {
    hide Sched.Core, Sched.Shape, Sched.Timely, Sched.Settled, RemoveFromUnordered;
    InvShape(s);
    s.ListsKnown();
    RemoveUnorderedBlock(s, x, v);
  }

  /** What the waker hands over arrives: a task taken off an unordered event list with a value finds it in its event
      item when it runs, whatever happens to its priority meanwhile, until it resets the item, waits with another
      value or gives a mutex back, or is woken with another value. */
  lemma {:induction false} ValueArrives(states: seq<Sched>, actions: seq<Action>, x: Task, i: nat, k: nat)
    requires IsRun(states, actions) && states[0].Inv() && i < k <= |actions| && Exists(states, x, i, k)
    requires actions[i].RemoveUnordered? && actions[i].x == x
    requires forall j :: i < j < k ==> !Rewrites(states[j], actions[j], x)
    ensures states[k].tcbs[x].eventValue == OrInUse(actions[i].value)
    decreases k
  {
    hide Sched.Inv, Step, Legal, Aborts, Forgets, Rewrites, OrInUse;
    RunStep(states, actions, k - 1);
    InUseKeepsValue(actions[i].value);
    if k > i + 1 {
      ValueArrives(states, actions, x, i, k - 1);
      StepKeepsNote(states[k - 1], actions[k - 1], x);
    } else {
      WakerSets(states[i], x, actions[i].value);
    }
  }

  // ----- what xTaskPriorityInherit returns -----

  /** As long as nobody runs below his base priority: true if and only if the holder's base priority is below the
      running task's, and then the holder runs on a priority it has inherited. */
  lemma InheritsMeans(s: Sched, holder: Task)
    requires s.Shape() && holder in s.tcbs && s.tcbs[holder].priority >= s.tcbs[holder].basePriority
    ensures Inherits(s, holder) <==> s.tcbs[holder].basePriority < s.tcbs[s.current].priority
    ensures Inherits(s, holder) && holder != s.current ==>
              var r := Inherit(s, holder);
              holder in r.tcbs && s.tcbs[holder].basePriority < s.tcbs[s.current].priority <= r.tcbs[holder].priority
  {
    hide Roster.Consistent, Roster.Move;
  }
}
