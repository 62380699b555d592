/** From the first task created to the first task run: tasks created before vTaskStartScheduler, which adds
    the idle task and the timer daemon among them. */
module SchedulerStart {
  import opened Ticks
  import opened Rosters
  import opened Scheduler
  import opened SchedulerTasks
  import opened InitialLists
  import opened Preemption
  import opened Mutexes
  import opened MutexRuns
  import opened MutexPriorities

  // ----- creating tasks -----

  datatype Creation = Creation(task: Task, priority: nat)

  function Clamp(p: nat): nat { if p >= MAX_PRIORITIES then MAX_PRIORITIES - 1 else p }

  /** prvInitialiseNewTask */
  function NewTcb(priority: nat): Tcb {
    Tcb(Clamp(priority), Clamp(priority), 0, 0, MAX_PRIORITIES - Clamp(priority), false)
  }

  /** prvAddNewTaskToReadyList of the very first task, which initialises the lists. */
  function FirstTask(ids: set<nat>, c: Creation): (s: Sched)
    ensures forall i :: i in ids ==> Waiting(i) in s.event.lists
  {
    NobodyListed(StateLists());
    Sched(Roster(StateLists(), map[]).PutEnd(Ready(Clamp(c.priority)), c.task), Roster(EventLists(ids), map[]),
          map[c.task := NewTcb(c.priority)], c.task, 0, 0, 0, true, Clamp(c.priority), 1, 0, 0, 0, false)
  }

  /** prvAddNewTaskToReadyList of a later task, while the scheduler does not run: it becomes the task to run
      first unless the one so far has a higher priority. */
  function CreateBeforeStart(s: Sched, c: Creation): (r: Sched)
    requires s.Shape() && c.task !in s.tcbs
    ensures r.Shape()
  {
    hide Roster.Consistent, Create;
    CreatedIs(s, c);
    Create(s, c.task, c.priority)
    .(current := if s.tcbs[s.current].priority <= Clamp(c.priority) then c.task else s.current)
  }

  lemma CreatedIs(s: Sched, c: Creation)
    requires s.Shape() && c.task !in s.tcbs
    ensures var r := Create(s, c.task, c.priority);
      && r.tcbs == s.tcbs[c.task := NewTcb(c.priority)] && r.event == s.event
      && r.state.place == s.state.place[c.task := Ready(Clamp(c.priority))]
      && r.topReady == Max(s.topReady, Clamp(c.priority))
      && r == s.(state := r.state, tcbs := r.tcbs, topReady := r.topReady, numberOfTasks := s.numberOfTasks + 1)
      && forall m :: m in s.state.lists && m != Ready(Clamp(c.priority)) ==>
           m in r.state.lists && r.state.lists[m] == s.state.lists[m]
  {
    hide Roster.Consistent, Roster.PutEnd;
  }

  /** Every task is ready, at its own priority. */
  ghost predicate AllReady(s: Sched) {
    && s.state.place.Keys == s.tcbs.Keys && s.event.place == map[] && s.topReady < MAX_PRIORITIES
    && forall x :: x in s.tcbs ==>
         && s.state.place[x] == Ready(s.tcbs[x].priority) && s.tcbs[x] == NewTcb(s.tcbs[x].priority)
         && s.tcbs[x].priority <= s.topReady
  }

  /** The task to run first has the highest priority. */
  ghost predicate FirstIsHighest(s: Sched) {
    s.current in s.tcbs && forall x :: x in s.tcbs ==> s.tcbs[x].priority <= s.tcbs[s.current].priority
  }

  /** Nothing but the creation of tasks has happened. */
  ghost predicate Unstarted(s: Sched) {
    && s.tick == 0 && s.overflows == 0 && s.nextUnblock == 0 && s.firstIsCurrent && s.deletedTasks == 0
    && s.suspended == 0 && s.pended == 0 && !s.yieldPending && s.numberOfTasks == |s.tcbs|
  }

  ghost predicate BeforeStart(s: Sched) {
    s.Shape() && AllReady(s) && FirstIsHighest(s) && Unstarted(s)
  }

  lemma FirstTaskIs(ids: set<nat>, c: Creation)
    ensures var s := FirstTask(ids, c);
      && s.state.Consistent() && s.state.lists.Keys == StateLists().Keys
      && s.state.place == map[c.task := Ready(Clamp(c.priority))] && s.tcbs == map[c.task := NewTcb(c.priority)]
      && s.event.Consistent() && PendingReady in s.event.lists && s.event.place == map[]
      && s.topReady == Clamp(c.priority) && s.current == c.task
  {
    NobodyListed(StateLists());
    NobodyListed(EventLists(ids));
    hide Roster.Consistent, Roster.PutEnd, StateLists, EventLists;
  }

  lemma FirstTaskShape(ids: set<nat>, c: Creation)
    ensures FirstTask(ids, c).Shape()
  {
    FirstTaskIs(ids, c);
    EveryListMade();
    hide Roster.Consistent, FirstTask, StateLists;
  }

  lemma FirstTaskReady(ids: set<nat>, c: Creation)
    ensures BeforeStart(FirstTask(ids, c))
    ensures FirstTask(ids, c).tcbs == map[c.task := NewTcb(c.priority)]
  {
    FirstTaskShape(ids, c);
    FirstTaskIs(ids, c);
    FirstTaskUnstarted(ids, c);
    hide Roster.Consistent, FirstTask, StateLists, Unstarted, Sched.Shape;
  }

  lemma FirstTaskUnstarted(ids: set<nat>, c: Creation)
    ensures Unstarted(FirstTask(ids, c))
  {
    hide Roster.Consistent, Roster.PutEnd, StateLists, EventLists;
    NobodyListed(StateLists());
  }

  lemma CreateAllReady(s: Sched, c: Creation)
    requires s.Shape() && AllReady(s) && c.task !in s.tcbs
    ensures AllReady(CreateBeforeStart(s, c))
  {
    hide Sched.Shape, Create;
    CreatedIs(s, c);
  }

  lemma CreateFirst(s: Sched, c: Creation)
    requires s.Shape() && FirstIsHighest(s) && c.task !in s.tcbs
    ensures FirstIsHighest(CreateBeforeStart(s, c))
  {
    CreatedIs(s, c);
    hide Sched.Shape, Create;
  }

  lemma CreateUnstarted(s: Sched, c: Creation)
    requires s.Shape() && Unstarted(s) && c.task !in s.tcbs
    ensures Unstarted(CreateBeforeStart(s, c)) && CreateBeforeStart(s, c).event == s.event
    ensures CreateBeforeStart(s, c).tcbs == s.tcbs[c.task := NewTcb(c.priority)]
  {
    CreatedIs(s, c);
    hide Sched.Shape, Create;
  }

  /** The tasks are all different. */
  ghost predicate Different(c: seq<Creation>) {
    forall i, j :: 0 <= i < j < |c| ==> c[i].task != c[j].task
  }

  /** The control blocks of the tasks. */
  function Blocks(c: seq<Creation>): map<Task, Tcb> {
    if c == [] then map[] else Blocks(c[..|c| - 1])[c[|c| - 1].task := NewTcb(c[|c| - 1].priority)]
  }

  lemma {:induction false} BlocksOf(c: seq<Creation>)
    requires Different(c)
    ensures forall x :: x in Blocks(c) ==> exists i :: 0 <= i < |c| && c[i].task == x
    ensures forall i :: 0 <= i < |c| ==> c[i].task in Blocks(c) && Blocks(c)[c[i].task] == NewTcb(c[i].priority)
  {
    if c != [] {
      var b := c[..|c| - 1];
      BlocksOf(b);
      hide NewTcb;
      forall x | x in Blocks(c) ensures exists i :: 0 <= i < |c| && c[i].task == x {
        if x == c[|c| - 1].task {
        } else {
          var i :| 0 <= i < |b| && b[i].task == x;
          assert c[i].task == x;
        }
      }
      forall i | 0 <= i < |c|
        ensures c[i].task in Blocks(c) && Blocks(c)[c[i].task] == NewTcb(c[i].priority)
      {
        if i < |b| {
          assert b[i] == c[i];
        }
      }
    }
  }

  /** The state after tasks have been created in this order. */
  ghost function Created(ids: set<nat>, c: seq<Creation>): (s: Sched)
    requires c != [] && Different(c)
    ensures BeforeStart(s) && s.tcbs == Blocks(c)
    ensures forall i :: i in ids ==> Waiting(i) in s.event.lists
    decreases |c|
  {
    hide BeforeStart, CreateBeforeStart, FirstTask, NewTcb;
    if |c| == 1 then
      FirstTaskReady(ids, c[0]);
      OneBlock(c);
      FirstTask(ids, c[0])
    else
      var b := c[..|c| - 1];
      var s := Created(ids, b);
      NotYet(c);
      CreateReady(s, c[|c| - 1]);
      CreateBeforeStart(s, c[|c| - 1])
  }

  lemma OneBlock(c: seq<Creation>)
    requires |c| == 1
    ensures Blocks(c) == map[c[0].task := NewTcb(c[0].priority)]
  {
    assert c[..0] == [];
  }

  lemma NotYet(c: seq<Creation>)
    requires |c| > 0 && Different(c)
    ensures Different(c[..|c| - 1]) && c[|c| - 1].task !in Blocks(c[..|c| - 1])
  {
    BlocksOf(c[..|c| - 1]);
  }

  lemma CreateReady(s: Sched, c: Creation)
    requires BeforeStart(s) && c.task !in s.tcbs
    ensures s.Shape() && BeforeStart(CreateBeforeStart(s, c))
    ensures CreateBeforeStart(s, c).tcbs == s.tcbs[c.task := NewTcb(c.priority)]
    ensures CreateBeforeStart(s, c).event == s.event
  {
    hide AllReady, FirstIsHighest, Unstarted, Sched.Shape, CreateBeforeStart;
    CreateAllReady(s, c);
    CreateFirst(s, c);
    CreateUnstarted(s, c);
  }

  // ----- starting -----

  /** vTaskStartScheduler, once the idle task and the timer daemon are created. */
  function Start(s: Sched): Sched {
    s.(nextUnblock := MAX_DELAY, tick := 0)
  }

  lemma SomeMember<T>(items: seq<T>)
    requires items != []
    ensures exists x :: x in items
  {
    assert items[0] in items;
  }

  lemma ReadyOnly(s: Sched, l: StateList)
    requires s.Shape() && AllReady(s) && l in s.state.lists && !l.Ready?
    ensures s.state.lists[l].items == []
  {
    if s.state.lists[l].items != [] {
      SomeMember(s.state.lists[l].items);
    }
  }

  lemma StartShape(s: Sched)
    requires BeforeStart(s)
    ensures Start(s).Shape() && AllReady(Start(s))
    ensures Start(s).state.lists[Delayed1].items == [] && Start(s).state.lists[Delayed2].items == []
    ensures Start(s).state.lists[WaitingTermination].items == []
  {
    hide Sched.Shape, FirstIsHighest, Unstarted;
    s.ListsKnown();
    ReadyOnly(s, Delayed1);
    ReadyOnly(s, Delayed2);
    ReadyOnly(s, WaitingTermination);
    s.NewListsShape(Start(s));
  }

  lemma StartCore(s: Sched)
    requires BeforeStart(s) && IDLE in s.tcbs
    ensures Start(s).Core()
  {
    hide Sched.Shape, InWakeOrder;
    StartShape(s);
    NobodyInOrder(s.tcbs);
  }

  /** Whatever tasks are created before the scheduler starts, the idle task among them, and in whatever
      order: the state in which the first task is let run satisfies the invariant, no time has passed, nobody is
      waited for, and the task let run is one of the highest priority. */
  lemma StartIsGood(s: Sched)
    requires BeforeStart(s) && IDLE in s.tcbs
    ensures Start(s).Inv() && Start(s).Now() == 0 && OnTop(Start(s))
    ensures Start(s).Shape() && Start(s).ResetUnblockTime() == Start(s)
  {
    hide Sched.Core, Sched.Shape;
    StartCore(s);
    StartShape(s);
    ReadyIsTimely(Start(s));
    HighestIsOnTop(s);
  }

  lemma ReadyIsTimely(s: Sched)
    requires AllReady(s) && s.pended == 0
    ensures s.Timely() && s.Settled()
  {
  }

  lemma HighestIsOnTop(s: Sched)
    requires AllReady(s) && FirstIsHighest(s)
    ensures OnTop(Start(s))
  {
  }

  /** Mutexes that nobody holds are accounted for, and event items and priorities are in step. */
  lemma StartAccounted(s: Sched, ids: set<nat>)
    requires BeforeStart(s) && IDLE in s.tcbs && forall i :: i in ids ==> Waiting(i) in s.event.lists
    ensures Accounted(System(Start(s), FreeMutexes(ids)))
    ensures AllGood(ItemFollows, Start(s)) && AllGood(AboveBase, Start(s))
  {
    hide Sched.Inv, OnTop, Sched.Shape, TaskAccounted, Unstarted, FirstIsHighest;
    StartIsGood(s);
    forall x | x in s.tcbs
      ensures TaskAccounted(System(Start(s), FreeMutexes(ids)), x)
      ensures Good(ItemFollows, s.tcbs[x]) && Good(AboveBase, s.tcbs[x])
    {
      NewTaskAccounted(s, ids, x);
    }
  }

  lemma NewTaskAccounted(s: Sched, ids: set<nat>, x: Task)
    requires AllReady(s) && x in s.tcbs
    ensures TaskAccounted(System(Start(s), FreeMutexes(ids)), x)
    ensures Good(ItemFollows, s.tcbs[x]) && Good(AboveBase, s.tcbs[x])
  {
    hide Holds;
    NobodyHolds(ids, x);
  }

  /** Of those of the highest priority it is the one created last. */
  ghost predicate LastHighest(c: seq<Creation>, k: nat)
    requires k < |c|
  {
    && (forall i :: 0 <= i < k ==> Clamp(c[i].priority) <= Clamp(c[k].priority))
    && (forall i :: k < i < |c| ==> Clamp(c[i].priority) < Clamp(c[k].priority))
  }

  lemma {:induction false} FirstToRun(ids: set<nat>, c: seq<Creation>, k: nat)
    requires Different(c) && k < |c| && LastHighest(c, k)
    ensures Start(Created(ids, c)).current == c[k].task
    decreases |c|
  {
    hide Created, BeforeStart, Blocks;
    var n := |c| - 1;
    if n == 0 {
      FirstAlone(ids, c);
    } else {
      var b := c[..n];
      NextCurrent(ids, c);
      if k < n {
        FirstToRun(ids, b, k);
        BlocksOf(b);
      } else {
        CurrentIsOne(ids, b);
      }
    }
  }

  lemma FirstAlone(ids: set<nat>, c: seq<Creation>)
    requires |c| == 1
    ensures Created(ids, c).current == c[0].task
  {
  }

  lemma NextCurrent(ids: set<nat>, c: seq<Creation>)
    requires |c| > 1 && Different(c)
    ensures Different(c[..|c| - 1])
    ensures var s, last := Created(ids, c[..|c| - 1]), c[|c| - 1];
      && s.current in s.tcbs
      && Created(ids, c).current == if s.tcbs[s.current].priority <= Clamp(last.priority) then last.task else s.current
  {
    hide Create;
    NotYet(c);
    CreateReady(Created(ids, c[..|c| - 1]), c[|c| - 1]);
  }

  lemma CurrentIsOne(ids: set<nat>, c: seq<Creation>)
    requires c != [] && Different(c)
    ensures var s := Created(ids, c);
      s.current in s.tcbs && exists i :: 0 <= i < |c| && s.tcbs[s.current].priority == Clamp(c[i].priority)
  {
    BlocksOf(c);
    var s := Created(ids, c);
    assert FirstIsHighest(s);
    var i :| 0 <= i < |c| && c[i].task == s.current;
    assert s.tcbs[s.current] == NewTcb(c[i].priority);
  }
}
