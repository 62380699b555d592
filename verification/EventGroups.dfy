/** Event groups (event_groups.c): tasks waiting for any or all of a set of bits. */
module EventGroups {

  type Task = nat

  /** EventBits_t, 32 bits wide like TickType_t. */
  type Bits = bv32

  /** eventCLEAR_EVENTS_ON_EXIT_BIT, eventUNBLOCKED_DUE_TO_BIT_SET, eventWAIT_FOR_ALL_BITS and
      eventEVENT_BITS_CONTROL_BYTES */
  const CLEAR_ON_EXIT: Bits := 0x0100_0000
  const UNBLOCKED: Bits := 0x0200_0000
  const WAIT_FOR_ALL: Bits := 0x0400_0000
  const CONTROL: Bits := 0xff00_0000

  /** taskEVENT_LIST_ITEM_VALUE_IN_USE */
  const IN_USE: Bits := 0x8000_0000

  // Operations on bits, by name: proofs about lists of waiters need their laws, not their definitions.

  function With(a: Bits, b: Bits): Bits { a | b }
  function Without(a: Bits, b: Bits): Bits { a & !b }
  predicate Apart(a: Bits, b: Bits) { a & b == 0 }
  predicate Within(a: Bits, b: Bits) { a & !b == 0 }
  predicate Agree(a: Bits, b: Bits, m: Bits) { a & m == b & m }

  lemma WithCovers(a: Bits, b: Bits)
    ensures Within(a, With(a, b)) && Within(b, With(a, b))
  {
  }

  lemma WithApart(a: Bits, b: Bits, m: Bits)
    requires Apart(a, m) && Apart(b, m)
    ensures Apart(With(a, b), m)
  {
  }

  lemma WithinChain(a: Bits, b: Bits, c: Bits)
    requires Within(a, b) && Within(b, c)
    ensures Within(a, c)
  {
  }

  lemma WithoutFacts(a: Bits, c: Bits, m: Bits)
    ensures Apart(c, m) ==> Agree(Without(a, c), a, m)
    ensures Within(m, c) ==> Apart(Without(a, c), m)
    ensures Apart(a, m) ==> Apart(Without(a, c), m)
  {
  }

  lemma NothingIsApart(m: Bits)
    ensures Apart(0, m)
  {
  }

  /** A waiting task and the value of its event list item. */
  datatype Waiter = Waiter(task: Task, value: Bits) {
    function WaitedFor(): Bits { Without(value, CONTROL) }
    predicate WaitsForAll() { value & WAIT_FOR_ALL != 0 }
    predicate ClearsOnExit() { value & CLEAR_ON_EXIT != 0 }

    /** The wait condition is met by the bits. */
    predicate SatisfiedBy(bits: Bits) {
      TestWaitCondition(bits, WaitedFor(), WaitsForAll())
    }
  }

  /** prvTestWaitCondition */
  predicate TestWaitCondition(bits: Bits, waitFor: Bits, all: bool) {
    if all then bits & waitFor == waitFor else bits & waitFor != 0
  }

  /** The item value of a task that waits, as vTaskPlaceOnUnorderedEventList stores it. */
  function WaitValue(waitFor: Bits, clearOnExit: bool, all: bool): Bits {
    waitFor | (if clearOnExit then CLEAR_ON_EXIT else 0) | (if all then WAIT_FOR_ALL else 0) | IN_USE
  }

  /** The stored value says all there is to know about the wait. */
  lemma WaitValueDecodes(x: Task, waitFor: Bits, clearOnExit: bool, all: bool)
    requires Apart(waitFor, CONTROL)
    ensures var w := Waiter(x, WaitValue(waitFor, clearOnExit, all));
      w.WaitedFor() == waitFor && w.ClearsOnExit() == clearOnExit && w.WaitsForAll() == all
  {
  }

  lemma ClearingCompletesNothing(bits: Bits, clear: Bits, w: Bits)
    ensures bits & w != w ==> Without(bits, clear) & w != w
  {
  }

  lemma ClearingSetsNothing(bits: Bits, clear: Bits, w: Bits)
    ensures bits & w == 0 ==> Without(bits, clear) & w == 0
  {
  }

  lemma ClearingMeetsNothing(bits: Bits, clear: Bits, waitFor: Bits, all: bool)
    requires !TestWaitCondition(bits, waitFor, all)
    ensures !TestWaitCondition(Without(bits, clear), waitFor, all)
  {
    hide Without;
    if all {
      ClearingCompletesNothing(bits, clear, waitFor);
    } else {
      ClearingSetsNothing(bits, clear, waitFor);
    }
  }

  /** Clearing bits satisfies nobody. */
  lemma ClearingSatisfiesNobody(w: Waiter, bits: Bits, clear: Bits)
    requires !w.SatisfiedBy(bits)
    ensures !w.SatisfiedBy(Without(bits, clear))
  {
    hide TestWaitCondition, Without, Waiter.WaitsForAll, Waiter.WaitedFor;
    ClearingMeetsNothing(bits, clear, w.WaitedFor(), w.WaitsForAll());
  }

  datatype Group = Group(bits: Bits, waiters: seq<Waiter>)

  /** A task released from its wait and its new item value. */
  datatype Release = Release(task: Task, value: Bits) {
    predicate BitsWereSet() { value & UNBLOCKED != 0 }
    function Returned(): Bits { Without(value, CONTROL) }
  }

  /** What xEventGroupSetBits leaves: the group and the tasks it released, in list order. */
  datatype Outcome = Outcome(group: Group, released: seq<Release>)

  // ----- setting bits -----

  function Kept(waiters: seq<Waiter>, bits: Bits): seq<Waiter> {
    if waiters == [] then []
    else if waiters[0].SatisfiedBy(bits) then Kept(waiters[1..], bits)
    else [waiters[0]] + Kept(waiters[1..], bits)
  }

  /** The item value of a released task. */
  function ReleaseValue(bits: Bits): Bits { bits | UNBLOCKED | IN_USE }

  function Released(waiters: seq<Waiter>, bits: Bits): seq<Release> {
    if waiters == [] then []
    else if waiters[0].SatisfiedBy(bits)
    then [Release(waiters[0].task, ReleaseValue(bits))] + Released(waiters[1..], bits)
    else Released(waiters[1..], bits)
  }

  function ToClear(waiters: seq<Waiter>, bits: Bits): Bits {
    if waiters == [] then 0
    else if waiters[0].SatisfiedBy(bits) && waiters[0].ClearsOnExit()
    then With(waiters[0].WaitedFor(), ToClear(waiters[1..], bits))
    else ToClear(waiters[1..], bits)
  }

  function Set(g: Group, bits: Bits): Outcome {
    var all := With(g.bits, bits);
    Outcome(Group(Without(all, ToClear(g.waiters, all)), Kept(g.waiters, all)), Released(g.waiters, all))
  }

  /** No waiting task's condition is met. */
  ghost predicate NoneSatisfied(g: Group) {
    && Apart(g.bits, CONTROL)
    && forall w :: w in g.waiters ==> !w.SatisfiedBy(g.bits)
  }

  lemma {:induction false} KeptIsUnsatisfied(waiters: seq<Waiter>, bits: Bits)
    ensures forall w :: w in Kept(waiters, bits) <==> w in waiters && !w.SatisfiedBy(bits)
  {
    hide Waiter.SatisfiedBy;
    if waiters != [] {
      KeptIsUnsatisfied(waiters[1..], bits);
      assert waiters == [waiters[0]] + waiters[1..];
    }
  }

  /** Every waiter satisfied by the bits is released with exactly those bits, and nobody else is. */
  lemma {:induction false} ReleasedAreSatisfied(waiters: seq<Waiter>, bits: Bits, r: Release)
    ensures r in Released(waiters, bits) <==>
              exists w :: w in waiters && w.SatisfiedBy(bits) && r == Release(w.task, ReleaseValue(bits))
  {
    hide Waiter.SatisfiedBy, ReleaseValue;
    if waiters != [] {
      ReleasedAreSatisfied(waiters[1..], bits, r);
      assert waiters == [waiters[0]] + waiters[1..];
    }
  }

  lemma {:induction false} ReleasedCount(waiters: seq<Waiter>, bits: Bits)
    ensures |Released(waiters, bits)| + |Kept(waiters, bits)| == |waiters|
  {
    hide Waiter.SatisfiedBy, ReleaseValue;
    if waiters != [] {
      ReleasedCount(waiters[1..], bits);
    }
  }

  /** The bits to clear cover each released clear-on-exit waiter. */
  lemma {:induction false} ToClearCovers(waiters: seq<Waiter>, bits: Bits, w: Waiter)
    requires w in waiters && w.SatisfiedBy(bits) && w.ClearsOnExit()
    ensures Within(w.WaitedFor(), ToClear(waiters, bits))
  {
    hide Waiter.SatisfiedBy, Waiter.ClearsOnExit, Waiter.WaitedFor, With, Within;
    var c := ToClear(waiters[1..], bits);
    WithCovers(waiters[0].WaitedFor(), c);
    if w != waiters[0] {
      assert w in waiters[1..];
      ToClearCovers(waiters[1..], bits, w);
      WithinChain(w.WaitedFor(), c, With(waiters[0].WaitedFor(), c));
    }
  }

  /** And touch no bit that none of them waits for. */
  lemma {:induction false} ToClearOnly(waiters: seq<Waiter>, bits: Bits, m: Bits)
    requires forall w :: w in waiters && w.SatisfiedBy(bits) && w.ClearsOnExit() ==> Apart(w.WaitedFor(), m)
    ensures Apart(ToClear(waiters, bits), m)
  {
    hide Waiter.SatisfiedBy, Waiter.ClearsOnExit, Waiter.WaitedFor, With, Apart;
    if waiters != [] {
      ToClearOnly(waiters[1..], bits, m);
      if waiters[0].SatisfiedBy(bits) && waiters[0].ClearsOnExit() {
        WithApart(waiters[0].WaitedFor(), ToClear(waiters[1..], bits), m);
      }
    } else {
      NothingIsApart(m);
    }
  }

  /** xEventGroupSetBits releases exactly the waiters that old | set satisfies, hands each of them that
      same value, and clears nothing before all are released.  Nobody is left waiting for what the group
      holds afterwards. */
  lemma SetBitsEffect(g: Group, bits: Bits)
    requires Apart(g.bits, CONTROL) && Apart(bits, CONTROL)
    ensures var o, all := Set(g, bits), With(g.bits, bits);
      && (forall w :: w in o.group.waiters <==> w in g.waiters && !w.SatisfiedBy(all))
      && (forall r :: r in o.released <==>
            exists w :: w in g.waiters && w.SatisfiedBy(all) && r == Release(w.task, ReleaseValue(all)))
      && |o.released| + |o.group.waiters| == |g.waiters|
      && NoneSatisfied(o.group)
  {
    hide Waiter.SatisfiedBy, ToClear, Kept, Released, With, Without, Apart, ReleaseValue;
    var all := With(g.bits, bits);
    var c := ToClear(g.waiters, all);
    KeptIsUnsatisfied(g.waiters, all);
    ReleasedCount(g.waiters, all);
    WithApart(g.bits, bits, CONTROL);
    WithoutFacts(all, c, CONTROL);
    forall r
      ensures r in Set(g, bits).released <==>
                exists w :: w in g.waiters && w.SatisfiedBy(all) && r == Release(w.task, ReleaseValue(all))
    {
      ReleasedAreSatisfied(g.waiters, all, r);
    }
    forall w | w in Kept(g.waiters, all) ensures !w.SatisfiedBy(Without(all, c)) {
      ClearingSatisfiesNobody(w, all, c);
    }
  }

  /** Of old | set, all bits that a released clear-on-exit waiter waited for are cleared afterwards, and
      all bits that none of them waited for stay. */
  lemma SetBitsClears(g: Group, bits: Bits, m: Bits)
    ensures var o, all := Set(g, bits), With(g.bits, bits);
      && ((exists w :: w in g.waiters && w.SatisfiedBy(all) && w.ClearsOnExit() && Within(m, w.WaitedFor())) ==>
            Apart(o.group.bits, m))
      && ((forall w :: w in g.waiters && w.SatisfiedBy(all) && w.ClearsOnExit() ==> Apart(w.WaitedFor(), m)) ==>
            Agree(o.group.bits, all, m))
  {
    hide Waiter.SatisfiedBy, Waiter.ClearsOnExit, Waiter.WaitedFor, Kept, Released, ToClear, With, Without, Apart,
         Within, Agree;
    var all := With(g.bits, bits);
    var c := ToClear(g.waiters, all);
    WithoutFacts(all, c, m);
    if w :| w in g.waiters && w.SatisfiedBy(all) && w.ClearsOnExit() && Within(m, w.WaitedFor()) {
      ToClearCovers(g.waiters, all, w);
      WithinChain(m, w.WaitedFor(), c);
    }
    if forall w :: w in g.waiters && w.SatisfiedBy(all) && w.ClearsOnExit() ==> Apart(w.WaitedFor(), m) {
      ToClearOnly(g.waiters, all, m);
    }
  }

  /** Tasks are released, and those left behind stay, in list order: what becomes of two stretches of the list becomes
      of them one after the other. */
  lemma {:induction false} ReleasedInOrder(a: seq<Waiter>, b: seq<Waiter>, bits: Bits)
    ensures Released(a + b, bits) == Released(a, bits) + Released(b, bits)
    ensures Kept(a + b, bits) == Kept(a, bits) + Kept(b, bits)
    decreases |a|
  {
    hide *;
    if a == [] {
      NoneReleased(b, bits);
    } else {
      ReleasedInOrder(a[1..], b, bits);
      FirstReleased(a, b, bits);
    }
  }

  lemma NoneReleased(b: seq<Waiter>, bits: Bits)
    ensures Released([] + b, bits) == Released([], bits) + Released(b, bits)
    ensures Kept([] + b, bits) == Kept([], bits) + Kept(b, bits)
  {
    assert [] + b == b;
  }

  function One<T>(item: T, there: bool): seq<T> { if there then [item] else [] }

  lemma HeadReleased(s: seq<Waiter>, bits: Bits)
    requires s != []
    ensures var met := s[0].SatisfiedBy(bits);
      && Released(s, bits) == One(Release(s[0].task, ReleaseValue(bits)), met) + Released(s[1..], bits)
      && Kept(s, bits) == One(s[0], !met) + Kept(s[1..], bits)
  {
    hide Waiter.SatisfiedBy, ReleaseValue;
  }

  lemma Grouped<T>(a: seq<T>, b: seq<T>, c: seq<T>)
    ensures a + (b + c) == (a + b) + c
  {
  }

  lemma FirstReleased(a: seq<Waiter>, b: seq<Waiter>, bits: Bits)
    requires a != []
    requires Released(a[1..] + b, bits) == Released(a[1..], bits) + Released(b, bits)
    requires Kept(a[1..] + b, bits) == Kept(a[1..], bits) + Kept(b, bits)
    ensures Released(a + b, bits) == Released(a, bits) + Released(b, bits)
    ensures Kept(a + b, bits) == Kept(a, bits) + Kept(b, bits)
  {
    hide *;
    assert (a + b)[1..] == a[1..] + b && (a + b)[0] == a[0];
    HeadReleased(a + b, bits);
    HeadReleased(a, bits);
    var met := a[0].SatisfiedBy(bits);
    Grouped(One(Release(a[0].task, ReleaseValue(bits)), met), Released(a[1..], bits), Released(b, bits));
    Grouped(One(a[0], !met), Kept(a[1..], bits), Kept(b, bits));
  }

  /** A released task finds that it was released by bits being set, and returns the bits that were. */
  lemma ReleasedTaskReturns(all: Bits, x: Task)
    requires Apart(all, CONTROL)
    ensures var r := Release(x, ReleaseValue(all)); r.BitsWereSet() && r.Returned() == all
  {
  }

  // ----- the other operations -----

  /** xEventGroupClearBits */
  function Clear(g: Group, bits: Bits): Group {
    g.(bits := Without(g.bits, bits))
  }

  datatype Wait = Done(group: Group, returned: Bits) | Blocked(group: Group)

  /** xEventGroupWaitBits, up to blocking. */
  function Await(g: Group, x: Task, waitFor: Bits, clearOnExit: bool, all: bool, mayBlock: bool): Wait {
    if TestWaitCondition(g.bits, waitFor, all)
    then Done(if clearOnExit then Clear(g, waitFor) else g, g.bits)
    else if !mayBlock then Done(g, g.bits)
    else Blocked(g.(waiters := g.waiters + [Waiter(x, WaitValue(waitFor, clearOnExit, all))]))
  }

  /** xEventGroupSync, up to blocking. */
  function Meet(g: Group, x: Task, setBits: Bits, waitFor: Bits, mayBlock: bool): Wait {
    var o := Set(g, setBits);
    if TestWaitCondition(With(g.bits, setBits), waitFor, true)
    then Done(Clear(o.group, waitFor), With(g.bits, setBits))
    else if !mayBlock then Done(o.group, o.group.bits)
    else Blocked(o.group.(waiters := o.group.waiters + [Waiter(x, WaitValue(waitFor, true, true))]))
  }

  lemma AllIsWithin(bits: Bits, waitFor: Bits)
    ensures bits & waitFor == waitFor ==> Within(waitFor, bits)
  {
  }

  lemma WithinIsAll(bits: Bits, waitFor: Bits)
    ensures Within(waitFor, bits) ==> bits & waitFor == waitFor
  {
  }

  /** Any of the bits, or all of them. */
  lemma ConditionMeans(bits: Bits, waitFor: Bits)
    ensures TestWaitCondition(bits, waitFor, true) <==> Within(waitFor, bits)
    ensures TestWaitCondition(bits, waitFor, false) <==> !Apart(bits, waitFor)
  {
    AllIsWithin(bits, waitFor);
    WithinIsAll(bits, waitFor);
    hide Within;
  }

  lemma AgreesWithItself(bits: Bits, m: Bits)
    ensures Agree(bits, bits, m)
  {
  }

  /** Clearing, by mask: of the bits named nothing is left, and the others are as they were. */
  lemma ClearEffect(g: Group, bits: Bits, m: Bits)
    ensures var r := Clear(g, bits);
      && r.waiters == g.waiters
      && (Within(m, bits) ==> Apart(r.bits, m)) && (Apart(bits, m) ==> Agree(r.bits, g.bits, m))
  {
    WithoutFacts(g.bits, bits, m);
    hide Without, Within, Apart, Agree;
  }

  /** The bits of a group that has been left by somebody who waited for some of them, or has not. */
  ghost predicate Taken(before: Bits, after: Bits, waitFor: Bits, cleared: bool, m: Bits) {
    if cleared then (Within(m, waitFor) ==> Apart(after, m)) && (Apart(waitFor, m) ==> Agree(after, before, m))
    else Agree(after, before, m)
  }

  /** x waits behind all others for just these bits in just this way. */
  ghost predicate JoinedBy(before: seq<Waiter>, after: seq<Waiter>, x: Task, waitFor: Bits, clear: bool, all: bool) {
    && |after| == |before| + 1 && after[..|before|] == before
    && var w := after[|before|];
       w.task == x && w.WaitedFor() == waitFor && w.ClearsOnExit() == clear && w.WaitsForAll() == all
  }

  /** A wait whose condition is met ends at once: it returns the bits that met it, as they were before any are
      cleared, and then takes those it waited for if it is to clear them, and no others.  Otherwise a call that
      may not block returns the same bits and changes nothing, and one that may joins the waiters. */
  lemma AwaitEffect(g: Group, x: Task, waitFor: Bits, clearOnExit: bool, all: bool, mayBlock: bool, m: Bits)
    requires Apart(waitFor, CONTROL)
    ensures var met, w := TestWaitCondition(g.bits, waitFor, all), Await(g, x, waitFor, clearOnExit, all, mayBlock);
      && (w.Blocked? <==> !met && mayBlock)
      && (w.Done? ==> Agree(w.returned, g.bits, m) && w.group.waiters == g.waiters
                      && (TestWaitCondition(w.returned, waitFor, all) <==> met))
      && Taken(g.bits, w.group.bits, waitFor, met && clearOnExit, m)
      && (w.Blocked? ==> JoinedBy(g.waiters, w.group.waiters, x, waitFor, clearOnExit, all))
  {
    hide Clear, WaitValue, TestWaitCondition, Waiter.WaitedFor, Waiter.ClearsOnExit, Waiter.WaitsForAll, Within, Apart,
         Agree;
    ClearEffect(g, waitFor, m);
    AgreesWithItself(g.bits, m);
    WaitValueDecodes(x, waitFor, clearOnExit, all);
  }

  /** A rendezvous that the bits complete, those of the group and those just set together, returns them all and
      takes those waited for.  Otherwise the caller has set its bits, and returns what is left of them or
      joins the waiters, waiting for all and clearing on exit. */
  lemma MeetEffect(g: Group, x: Task, setBits: Bits, waitFor: Bits, mayBlock: bool, m: Bits)
    requires Apart(waitFor, CONTROL)
    ensures var o, sum, w := Set(g, setBits), With(g.bits, setBits), Meet(g, x, setBits, waitFor, mayBlock);
      && (w.Blocked? <==> !Within(waitFor, sum) && mayBlock)
      && (w.Done? ==> w.group.waiters == o.group.waiters
                      && Agree(w.returned, if Within(waitFor, sum) then sum else o.group.bits, m))
      && Taken(o.group.bits, w.group.bits, waitFor, Within(waitFor, sum), m)
      && (w.Blocked? ==> JoinedBy(o.group.waiters, w.group.waiters, x, waitFor, true, true))
  {
    hide Clear, WaitValue, TestWaitCondition, Waiter.WaitedFor, Waiter.ClearsOnExit, Waiter.WaitsForAll, Within, Apart,
         Set, With, Agree;
    var o, sum := Set(g, setBits).group, With(g.bits, setBits);
    ConditionMeans(sum, waitFor);
    ClearEffect(o, waitFor, m);
    AgreesWithItself(o.bits, m);
    AgreesWithItself(sum, m);
    WaitValueDecodes(x, waitFor, true, true);
  }

  /** The end of a wait that timed out: the bits may have been set since. */
  function TimedOut(g: Group, waitFor: Bits, clearOnExit: bool, all: bool): Wait {
    Done(if clearOnExit && TestWaitCondition(g.bits, waitFor, all) then Clear(g, waitFor) else g, g.bits)
  }

  /** The part of both calls after blocking, given the item value that uxTaskResetEventItemValue hands back. */
  function Finish(g: Group, value: Bits, waitFor: Bits, clearOnExit: bool, all: bool): Wait {
    if value & UNBLOCKED != 0 then Done(g, Without(value, CONTROL))
    else
      var t := TimedOut(g, waitFor, clearOnExit, all);
      Done(t.group, Without(t.returned, CONTROL))
  }

  /** However a blocked wait ends, the task can tell: released by bits being set it returns those bits, whatever
      the group holds by then, and leaves the group alone; woken with its item value as it was, it returns the
      group's bits, and takes the bits it waited for only if they have been set meanwhile. */
  lemma WaitEnds(g: Group, were: Bits, waitFor: Bits, clearOnExit: bool, all: bool)
    requires Apart(g.bits, CONTROL) && Apart(were, CONTROL) && Apart(waitFor, CONTROL)
    ensures Finish(g, ReleaseValue(were), waitFor, clearOnExit, all) == Done(g, were)
    ensures Finish(g, WaitValue(waitFor, clearOnExit, all), waitFor, clearOnExit, all) ==
            Done(if clearOnExit && TestWaitCondition(g.bits, waitFor, all) then Clear(g, waitFor) else g, g.bits)
  {
    ReleasedTaskReturns(were, 0);
    StillWaiting(waitFor, clearOnExit, all);
    ControlIsApart(g.bits);
    hide Without, WaitValue, ReleaseValue, TestWaitCondition;
  }

  lemma StillWaiting(waitFor: Bits, clearOnExit: bool, all: bool)
    requires Apart(waitFor, CONTROL)
    ensures WaitValue(waitFor, clearOnExit, all) & UNBLOCKED == 0
  {
  }

  lemma ControlIsApart(bits: Bits)
    requires Apart(bits, CONTROL)
    ensures Without(bits, CONTROL) == bits
  {
  }

  datatype Step =
    | SetSome(bits: Bits)
    | ClearSome(bits: Bits)
    | WaitFor(x: Task, waitFor: Bits, clearOnExit: bool, all: bool, mayBlock: bool)
    | Rendezvous(x: Task, bits: Bits, waitFor: Bits, mayBlock: bool)
    | TimeOut(waitFor: Bits, clearOnExit: bool, all: bool)
    | Leave(i: nat)

  /** Callers must not name the kernel's bits, and must wait for something. */
  predicate Enabled(g: Group, s: Step) {
    match s
    case SetSome(bits) => Apart(bits, CONTROL)
    case ClearSome(bits) => Apart(bits, CONTROL)
    case WaitFor(_, waitFor, _, _, _) => Apart(waitFor, CONTROL) && waitFor != 0
    case Rendezvous(_, bits, waitFor, _) => Apart(bits, CONTROL) && Apart(waitFor, CONTROL) && waitFor != 0
    case TimeOut(waitFor, _, _) => Apart(waitFor, CONTROL)
    case Leave(i) => i < |g.waiters|
  }

  function Next(g: Group, s: Step): Group
    requires Enabled(g, s)
  {
    match s
    case SetSome(bits) => Set(g, bits).group
    case ClearSome(bits) => Clear(g, bits)
    case WaitFor(x, waitFor, clearOnExit, all, mayBlock) => Await(g, x, waitFor, clearOnExit, all, mayBlock).group
    case Rendezvous(x, bits, waitFor, mayBlock) => Meet(g, x, bits, waitFor, mayBlock).group
    case TimeOut(waitFor, clearOnExit, all) => TimedOut(g, waitFor, clearOnExit, all).group
    case Leave(i) => g.(waiters := g.waiters[..i] + g.waiters[i + 1..])
  }

  /** A step by which a wait times out is the end of a wait that was not released. */
  lemma TimeOutIsFinish(g: Group, waitFor: Bits, clearOnExit: bool, all: bool)
    requires Enabled(g, TimeOut(waitFor, clearOnExit, all)) && Apart(g.bits, CONTROL)
    ensures Next(g, TimeOut(waitFor, clearOnExit, all)) ==
            Finish(g, WaitValue(waitFor, clearOnExit, all), waitFor, clearOnExit, all).group
  {
    WaitEnds(g, 0, waitFor, clearOnExit, all);
    StillWaiting(waitFor, clearOnExit, all);
    hide WaitValue, TestWaitCondition, Without;
  }

  /** A task that gives up waiting leaves the others in their order, and the bits. */
  lemma LeaveTakesOne(g: Group, i: nat)
    requires Enabled(g, Leave(i))
    ensures var r := Next(g, Leave(i));
      r.bits == g.bits && i <= |r.waiters| && r.waiters[..i] + [g.waiters[i]] + r.waiters[i..] == g.waiters
  {
  }

  lemma ClearKeeps(g: Group, bits: Bits)
    requires NoneSatisfied(g)
    ensures NoneSatisfied(Clear(g, bits))
  {
    hide Waiter.SatisfiedBy, Without, Apart;
    WithoutFacts(g.bits, bits, CONTROL);
    forall w | w in g.waiters ensures !w.SatisfiedBy(Without(g.bits, bits)) {
      ClearingSatisfiesNobody(w, g.bits, bits);
    }
  }

  lemma JoinKeeps(g: Group, x: Task, waitFor: Bits, clearOnExit: bool, all: bool)
    requires NoneSatisfied(g) && Apart(waitFor, CONTROL) && !TestWaitCondition(g.bits, waitFor, all)
    ensures NoneSatisfied(g.(waiters := g.waiters + [Waiter(x, WaitValue(waitFor, clearOnExit, all))]))
  {
    hide WaitValue, Waiter.WaitedFor, Waiter.WaitsForAll, Waiter.ClearsOnExit, TestWaitCondition, Apart;
    WaitValueDecodes(x, waitFor, clearOnExit, all);
  }

  lemma SyncKeeps(g: Group, x: Task, bits: Bits, waitFor: Bits, mayBlock: bool)
    requires NoneSatisfied(g) && Apart(bits, CONTROL) && Apart(waitFor, CONTROL)
    ensures NoneSatisfied(Meet(g, x, bits, waitFor, mayBlock).group)
  {
    hide Waiter.SatisfiedBy, ToClear, Kept, Released, WaitValue, TestWaitCondition, Apart, With, Without;
    SetBitsEffect(g, bits);
    var o, all := Set(g, bits), With(g.bits, bits);
    hide NoneSatisfied;
    ClearKeeps(o.group, waitFor);
    if !TestWaitCondition(all, waitFor, true) {
      ClearingMeetsNothing(all, ToClear(g.waiters, all), waitFor, true);
      JoinKeeps(o.group, x, waitFor, true, true);
    }
  }

  lemma SetKeeps(g: Group, bits: Bits)
    requires NoneSatisfied(g) && Apart(bits, CONTROL)
    ensures NoneSatisfied(Set(g, bits).group)
  {
    hide Set, Apart, Waiter.SatisfiedBy;
    SetBitsEffect(g, bits);
  }

  lemma LeaveKeeps(g: Group, i: nat)
    requires NoneSatisfied(g) && i < |g.waiters|
    ensures NoneSatisfied(g.(waiters := g.waiters[..i] + g.waiters[i + 1..]))
  {
    hide Waiter.SatisfiedBy, Apart;
  }

  lemma StepKeepsNoneSatisfied(g: Group, s: Step)
    requires NoneSatisfied(g) && Enabled(g, s)
    ensures NoneSatisfied(Next(g, s))
  {
    hide NoneSatisfied, Set, Clear, Meet, TestWaitCondition, WaitValue, Apart;
    match s {
      case SetSome(bits) => SetKeeps(g, bits);
      case ClearSome(bits) => ClearKeeps(g, bits);
      case WaitFor(x, waitFor, clearOnExit, all, mayBlock) =>
        ClearKeeps(g, waitFor);
        if !TestWaitCondition(g.bits, waitFor, all) {
          JoinKeeps(g, x, waitFor, clearOnExit, all);
        }
      case Rendezvous(x, bits, waitFor, mayBlock) => SyncKeeps(g, x, bits, waitFor, mayBlock);
      case TimeOut(waitFor, clearOnExit, all) => ClearKeeps(g, waitFor);
      case Leave(i) => LeaveKeeps(g, i);
    }
  }

  ghost predicate IsRun(states: seq<Group>, steps: seq<Step>) {
    && |states| == |steps| + 1
    && forall k :: 0 <= k < |steps| ==> Enabled(states[k], steps[k]) && states[k + 1] == Next(states[k], steps[k])
  }

  /** In every run of an event group that starts with nobody waiting, no task ever waits for a condition
      that the bits already meet. */
  lemma {:induction false} NobodyWaitsInVain(states: seq<Group>, steps: seq<Step>, k: nat)
    requires IsRun(states, steps) && states[0] == Group(0, []) && k <= |steps|
    ensures NoneSatisfied(states[k])
    decreases k
  {
    hide Next, NoneSatisfied;
    if k > 0 {
      NobodyWaitsInVain(states, steps, k - 1);
      StepKeepsNoneSatisfied(states[k - 1], steps[k - 1]);
    } else {
      EmptyGroup();
    }
  }

  lemma EmptyGroup()
    ensures NoneSatisfied(Group(0, []))
  {
    NothingIsApart(CONTROL);
  }

  lemma WithLaws(a: Bits, b: Bits, c: Bits)
    ensures With(a, With(b, c)) == With(With(a, b), c) && With(0, a) == a && With(a, 0) == a
  {
  }

  /** One waiter of the walk. */
  lemma ScanHead(rest: seq<Waiter>, bits: Bits)
    requires rest != []
    ensures var w, tail := rest[0], rest[1..];
      if w.SatisfiedBy(bits) then
        && Kept(rest, bits) == Kept(tail, bits)
        && Released(rest, bits) == [Release(w.task, ReleaseValue(bits))] + Released(tail, bits)
        && ToClear(rest, bits) ==
             if w.ClearsOnExit() then With(w.WaitedFor(), ToClear(tail, bits)) else ToClear(tail, bits)
      else
        && Kept(rest, bits) == [w] + Kept(tail, bits)
        && Released(rest, bits) == Released(tail, bits) && ToClear(rest, bits) == ToClear(tail, bits)
  {
    hide With, Waiter.SatisfiedBy, Waiter.WaitedFor, Waiter.ClearsOnExit, ReleaseValue;
  }

  lemma ScanNothing(bits: Bits)
    ensures Kept([], bits) == [] && Released([], bits) == [] && ToClear([], bits) == 0
  {
  }

  /** EventGroup_t, with the walk over its waiters. */
  class EventGroup {
    var uxEventBits: Bits
    var tasksWaitingForBits: seq<Waiter>

    function View(): Group
      reads this
    {
      Group(uxEventBits, tasksWaitingForBits)
    }

    constructor ()
      ensures View() == Group(0, [])
    {
      uxEventBits := 0;
      tasksWaitingForBits := [];
    }

    /** xEventGroupSetBits; released tasks are returned in the order in which they are released. */
    method SetBits(bits: Bits) returns (now: Bits, released: seq<Release>)
      modifies this
      ensures View() == Set(old(View()), bits).group
      ensures released == Set(old(View()), bits).released && now == uxEventBits
    {
      hide With, Without, Waiter.SatisfiedBy, Waiter.WaitedFor, Waiter.ClearsOnExit, ReleaseValue, Kept, Released,
           ToClear;
      ghost var before := tasksWaitingForBits;
      uxEventBits := With(uxEventBits, bits);
      ghost var all := uxEventBits;
      var bitsToClear: Bits := 0;
      var i := 0;
      released := [];
      WithLaws(ToClear(before, all), 0, 0);
      while i < |tasksWaitingForBits|
        invariant i <= |tasksWaitingForBits| && uxEventBits == all
        invariant Kept(before, all) == tasksWaitingForBits[..i] + Kept(tasksWaitingForBits[i..], all)
        invariant Released(before, all) == released + Released(tasksWaitingForBits[i..], all)
        invariant ToClear(before, all) == With(bitsToClear, ToClear(tasksWaitingForBits[i..], all))
        decreases |tasksWaitingForBits| - i
      {
        var w := tasksWaitingForBits[i];
        ghost var rest := tasksWaitingForBits[i..];
        ScanHead(rest, all);
        if w.SatisfiedBy(uxEventBits) {
          if w.ClearsOnExit() {
            WithLaws(bitsToClear, w.WaitedFor(), ToClear(rest[1..], all));
            bitsToClear := With(bitsToClear, w.WaitedFor());
          }
          released := released + [Release(w.task, ReleaseValue(uxEventBits))];
          tasksWaitingForBits := tasksWaitingForBits[..i] + tasksWaitingForBits[i + 1..];
          assert tasksWaitingForBits[i..] == rest[1..];
        } else {
          assert tasksWaitingForBits[i + 1..] == rest[1..];
          i := i + 1;
        }
      }
      assert tasksWaitingForBits[i..] == [] && tasksWaitingForBits[..i] == tasksWaitingForBits;
      ScanNothing(all);
      WithLaws(bitsToClear, 0, 0);
      uxEventBits := Without(uxEventBits, bitsToClear);
      now := uxEventBits;
    }

    /** xEventGroupClearBits returns the bits as they were. */
    method ClearBits(bits: Bits) returns (was: Bits)
      modifies this
      ensures View() == Clear(old(View()), bits) && was == old(uxEventBits)
    {
      was := uxEventBits;
      uxEventBits := Without(uxEventBits, bits);
    }

    /** xEventGroupWaitBits, up to blocking. */
    method WaitBits(x: Task, waitFor: Bits, clearOnExit: bool, all: bool, mayBlock: bool)
      returns (blocked: bool, bits: Bits)
      modifies this
      ensures var w := Await(old(View()), x, waitFor, clearOnExit, all, mayBlock);
        View() == w.group && blocked == w.Blocked? && (!blocked ==> bits == w.returned)
    {
      hide TestWaitCondition, Without, WaitValue;
      blocked, bits := false, uxEventBits;
      if TestWaitCondition(uxEventBits, waitFor, all) {
        if clearOnExit {
          uxEventBits := Without(uxEventBits, waitFor);
        }
      } else if mayBlock {
        tasksWaitingForBits := tasksWaitingForBits + [Waiter(x, WaitValue(waitFor, clearOnExit, all))];
        blocked, bits := true, 0;
      }
    }

    /** The rest of xEventGroupWaitBits, and of xEventGroupSync, which clears on exit and waits for all bits. */
    method EndWait(value: Bits, waitFor: Bits, clearOnExit: bool, all: bool) returns (bits: Bits)
      modifies this
      ensures Done(View(), bits) == Finish(old(View()), value, waitFor, clearOnExit, all)
    {
      hide TestWaitCondition, Without;
      bits := value;
      if value & UNBLOCKED == 0 {
        bits := uxEventBits;
        if TestWaitCondition(bits, waitFor, all) {
          if clearOnExit {
            uxEventBits := Without(uxEventBits, waitFor);
          }
        }
      }
      bits := Without(bits, CONTROL);
    }

    /** xEventGroupSync, up to blocking. */
    method Sync(x: Task, setBits: Bits, waitFor: Bits, mayBlock: bool)
      returns (blocked: bool, bits: Bits, released: seq<Release>)
      modifies this
      ensures var w := Meet(old(View()), x, setBits, waitFor, mayBlock);
        View() == w.group && blocked == w.Blocked? && (!blocked ==> bits == w.returned)
      ensures released == Set(old(View()), setBits).released
    {
      hide TestWaitCondition, With, Without, WaitValue, Kept, Released, ToClear;
      var originalBits := uxEventBits;
      blocked := false;
      bits, released := SetBits(setBits);
      if TestWaitCondition(With(originalBits, setBits), waitFor, true) {
        bits := With(originalBits, setBits);
        uxEventBits := Without(uxEventBits, waitFor);
      } else if mayBlock {
        tasksWaitingForBits := tasksWaitingForBits + [Waiter(x, WaitValue(waitFor, true, true))];
        blocked := true;
      }
    }
  }
}
