/** The mutex operations of queue.c on the fields of the queue and the kernel.  What they keep is proved in
    Mutexes and MutexRuns of the functions that they are shown to compute. */
module MutexQueues {
  import opened Ticks
  import opened Rosters
  import opened Scheduler
  import opened SchedulerTasks
  import opened SchedulerSafety
  import opened Mutexes
  import opened MutexRuns
  import opened Kernels

  class MutexQueue {
    const kernel: Kernel
    /** uxMessagesWaiting, xMutexHolder and uxRecursiveCallCount of every mutex. */
    var mutexes: map<nat, Mutex>

    constructor (kernel: Kernel)
      ensures this.kernel == kernel && mutexes == map[]
    {
      this.kernel := kernel;
      mutexes := map[];
    }

    function View(): System
      reads this, kernel
    {
      System(kernel.View(), mutexes)
    }

    /** The critical section of xQueueSemaphoreTake. */
    method TakeIfFree(m: nat) returns (taken: bool)
      requires kernel.View().Shape() && m in mutexes
      modifies this, kernel
      ensures taken == (old(mutexes[m].count) > 0)
      ensures View() == if taken then Take(old(View()), m) else old(View())
    {
      hide Sched.Shape, IncrementHeld;
      taken := mutexes[m].count > 0;
      if taken {
        HeldKeepsCurrent(kernel.View());
        kernel.IncrementMutexHeldCount();
        var mutex := mutexes[m];
        mutexes := mutexes[m := mutex.(count := mutex.count - 1, holder := HeldBy(kernel.current))];
      }
    }

    /** The part of xQueueSemaphoreTake that lends a priority to the holder and waits. */
    method InheritAndWait(m: nat, ticksToWait: Tick) returns (inherited: bool)
      requires kernel.View().Shape() && m in mutexes && Waiting(m) in kernel.event.lists
      requires mutexes[m].holder.HeldBy? && mutexes[m].holder.task in kernel.tcbs
      requires kernel.current !in kernel.event.place
      modifies kernel
      ensures View() == BlockOn(old(View()), m, ticksToWait)
      ensures inherited == Inherits(old(kernel.View()), mutexes[m].holder.task)
    {
      hide Sched.Shape, Inherit, Inherits, PlaceOnEventList;
      InheritKeepsEvents(kernel.View(), mutexes[m].holder);
      inherited := kernel.PriorityInherit(mutexes[m].holder.task);
      kernel.PlaceOnEventList(Waiting(m), ticksToWait);
    }

    /** prvGetDisinheritPriorityAfterTimeout */
    method GetDisinheritPriorityAfterTimeout(m: nat) returns (highest: int)
      requires kernel.View().Shape() && Waiting(m) in kernel.event.lists
      ensures highest == HighestWaiting(View(), m)
    {
      hide Sched.Shape;
      var waiters := kernel.event.lists[Waiting(m)].items;
      if |waiters| > 0 {
        EventHead(kernel.View(), Waiting(m));
        highest := MAX_PRIORITIES - kernel.tcbs[waiters[0]].eventValue;
      } else {
        highest := IDLE_PRIORITY;
      }
    }

    /** The end of xQueueSemaphoreTake after a timeout, when the wait had lent a priority. */
    method DisinheritAndGiveUp(m: nat)
      requires kernel.View().Shape() && m in mutexes && Waiting(m) in kernel.event.lists
      requires mutexes[m].holder.HeldBy? && mutexes[m].holder.task in kernel.tcbs
      requires 0 <= HighestWaiting(View(), m) < MAX_PRIORITIES
      modifies kernel
      ensures View() == GiveUp(old(View()), m)
    {
      hide Sched.Shape, HighestWaiting, DisinheritAfterTimeout;
      var highest := GetDisinheritPriorityAfterTimeout(m);
      kernel.PriorityDisinheritAfterTimeout(mutexes[m].holder.task, highest);
    }

    /** xQueueGenericSend of a mutex by its holder; the result asks for a context switch. */
    method SemaphoreGive(m: nat) returns (yieldNow: bool)
      requires kernel.View().Shape() && m in mutexes && Waiting(m) in kernel.event.lists
      requires mutexes[m].holder == HeldBy(kernel.current) && kernel.tcbs[kernel.current].mutexesHeld > 0
      modifies this, kernel
      ensures View() == Give(old(View()), m)
      ensures yieldNow <==> GiveAsks(old(View()), m)
    {
      hide Sched.Shape, Disinherit, SchedulerTasks.RemoveFromEventList;
      DisinheritKeepsEvents(kernel.View());
      var yieldRequired := kernel.PriorityDisinherit();
      var mutex := mutexes[m];
      mutexes := mutexes[m := mutex.(count := mutex.count + 1, holder := Nobody)];
      if kernel.event.lists[Waiting(m)].items != [] {
        yieldNow := kernel.RemoveFromEventList(Waiting(m));
      } else {
        yieldNow := yieldRequired;
      }
    }

    /** xQueueTakeMutexRecursive that does not wait. */
    method TakeMutexRecursive(m: nat) returns (taken: bool)
      requires kernel.View().Shape() && m in mutexes
      modifies this, kernel
      ensures taken == (old(mutexes[m].holder == HeldBy(kernel.current)) || old(mutexes[m].count) > 0)
      ensures View() == if taken then TakeNested(old(View()), m) else old(View())
    {
      hide Sched.Shape, IncrementHeld;
      taken := true;
      if mutexes[m].holder != HeldBy(kernel.current) {
        taken := TakeIfFree(m);
      }
      if taken {
        mutexes := mutexes[m := mutexes[m].(recursion := mutexes[m].recursion + 1)];
      }
    }

    /** xQueueGiveMutexRecursive: a task that does not hold the mutex changes nothing. */
    method GiveMutexRecursive(m: nat) returns (given: bool, yieldNow: bool)
      requires kernel.View().Shape() && m in mutexes && Waiting(m) in kernel.event.lists
      requires mutexes[m].holder == HeldBy(kernel.current) ==>
                 mutexes[m].recursion > 0 && kernel.tcbs[kernel.current].mutexesHeld > 0
      modifies this, kernel
      ensures given == old(mutexes[m].holder == HeldBy(kernel.current))
      ensures View() == if given then GiveNested(old(View()), m) else old(View())
      ensures yieldNow <==> given && old(mutexes[m].recursion) == 1 && GiveAsks(old(View()), m)
    {
      hide Sched.Shape, Give, GiveAsks;
      yieldNow := false;
      given := mutexes[m].holder == HeldBy(kernel.current);
      if given {
        mutexes := mutexes[m := mutexes[m].(recursion := mutexes[m].recursion - 1)];
        if mutexes[m].recursion == 0 {
          SameGive(old(View()), View(), m);
          yieldNow := SemaphoreGive(m);
        }
      }
    }
  }

  lemma HeldKeepsCurrent(s: Sched)
    requires s.Shape()
    ensures IncrementHeld(s).current == s.current
  {
    hide Roster.Consistent;
  }
}
