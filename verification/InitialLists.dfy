/** The kernel's lists as they are made, with nobody on them. */
module InitialLists {
  import opened ListValues
  import opened Rosters
  import opened Scheduler

  predicate IsStateList(l: StateList) {
    l.Ready? ==> l.priority < MAX_PRIORITIES
  }

  /** The ready lists, made by the loop of prvInitialiseTaskLists. */
  function ReadyLists(p: nat): (m: map<StateList, ListView<Task>>)
    requires p <= MAX_PRIORITIES
    ensures forall l :: l in m <==> l.Ready? && l.priority < p
    ensures forall l :: l in m ==> m[l] == EmptyList<Task>()
  {
    if p == 0 then map[] else ReadyLists(p - 1)[Ready(p - 1) := EmptyList<Task>()]
  }

  /** prvInitialiseTaskLists */
  function StateLists(): (m: map<StateList, ListView<Task>>)
    ensures forall l :: l in m <==> IsStateList(l)
    ensures forall l :: l in m ==> m[l] == EmptyList<Task>()
  {
    var e := EmptyList<Task>();
    ReadyLists(MAX_PRIORITIES)[Delayed1 := e][Delayed2 := e][SuspendedTasks := e][WaitingTermination := e]
  }

  function EventLists(ids: set<nat>): (m: map<EventList, ListView<Task>>)
    ensures PendingReady in m && forall i :: i in ids ==> Waiting(i) in m
    ensures forall e :: e in m ==> m[e] == EmptyList<Task>()
  {
    (map i | i in ids :: Waiting(i) := EmptyList<Task>())[PendingReady := EmptyList<Task>()]
  }

  /** No item is on any of the lists. */
  lemma NobodyListed<L>(lists: map<L, ListView<Task>>)
    requires forall l :: l in lists ==> lists[l] == EmptyList<Task>()
    ensures Roster(lists, map[]).Consistent()
  {
  }

  lemma EveryListMade()
    ensures forall p :: 0 <= p < MAX_PRIORITIES ==> Ready(p) in StateLists()
    ensures Delayed1 in StateLists() && Delayed2 in StateLists() && SuspendedTasks in StateLists()
    ensures WaitingTermination in StateLists()
    ensures 0 < MAX_PRIORITIES < VALUE_IN_USE
  {
  }

  lemma NobodyInOrder(tcbs: map<Task, Tcb>)
    ensures InWakeOrder(tcbs, [])
  {
  }
}
