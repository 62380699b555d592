/** The lock counts of a queue (queue.c): while a task is on its way to block on a queue, interrupts may
    post and receive but not touch the lists of waiting tasks; the wakeups are made up on unlocking. */
module QueueLocks {

  type Task = nat

  /** int8_t */
  type Int8 = i: int | -128 <= i < 128

  const UNLOCKED: Int8 := -1
  const LOCKED_UNMODIFIED: Int8 := 0

  /** ( int8_t ) ( lock + 1 ) */
  function Increment(lock: Int8): Int8 { if lock == 127 then -128 else lock + 1 }

  /** One direction of a queue.  For the receiving side, available counts the items and waiters is
      xTasksWaitingToReceive with cTxLock; for the sending side it counts the free slots, with
      xTasksWaitingToSend and cRxLock.  Awake counts tasks taken off the list that have not yet tried
      again. */
  datatype Side = Side(available: nat, lock: Int8, waiters: seq<Task>, awake: nat) {

    /** xTaskRemoveFromEventList of the first waiter, if there is one. */
    function WakeOne(): Side {
      if waiters == [] then this else this.(waiters := waiters[1..], awake := awake + 1)
    }

    /** An interrupt announces something to take: at once, or by counting it while the queue is locked. */
    function NoticeFromISR(): Side {
      if lock == UNLOCKED then WakeOne() else this.(lock := Increment(lock))
    }

    /** An interrupt adds to what is available. */
    function GainFromISR(): Side {
      this.(available := available + 1).NoticeFromISR()
    }

    /** A task adds to what is available. */
    function Gain(): Side {
      this.(available := available + 1).WakeOne()
    }

    /** Somebody takes one. */
    function Lose(): Side
      requires available > 0
    {
      this.(available := available - 1)
    }

    /** prvLockQueue */
    function Lock(): Side {
      if lock == UNLOCKED then this.(lock := LOCKED_UNMODIFIED) else this
    }

    /** The loop of prvUnlockQueue for one side, from lock count n. */
    function Announce(n: Int8): (s: Side)
      decreases if n > 0 then n else 0
    {
      if n > LOCKED_UNMODIFIED && waiters != [] then WakeOne().Announce(n - 1) else this
    }

    function Unlock(): Side {
      Announce(lock).(lock := UNLOCKED)
    }

    /** The wakeups still owed. */
    function Owed(): nat { if lock > 0 then lock else 0 }

    /** Nobody sleeps over something available: everything there is has been announced to a task that has
        yet to try, or is owed on unlocking. */
    ghost predicate Covered() {
      waiters != [] ==> available <= awake + Owed()
    }

    /** The same for a task that saw nothing available and is about to join the list. */
    ghost predicate CoveredFor(sawNone: bool) {
      sawNone ==> available <= awake + Owed()
    }

    /** Unlocking wakes the first min(owed, waiting) waiters, in list order, and nobody else. */
    lemma {:induction false} AnnounceEffect(n: Int8)
      ensures var k := Min(if n > 0 then n else 0, |waiters|);
        Announce(n) == this.(waiters := waiters[k..], awake := awake + k)
      decreases if n > 0 then n else 0
    {
      if n > LOCKED_UNMODIFIED && waiters != [] {
        WakeOne().AnnounceEffect(n - 1);
      } else {
        assert waiters[0..] == waiters;
      }
    }

    lemma UnlockEffect()
      ensures var k := Min(Owed(), |waiters|);
        Unlock() == this.(lock := UNLOCKED, waiters := waiters[k..], awake := awake + k)
    {
      AnnounceEffect(lock);
    }
  }

  function Min(a: nat, b: nat): nat { if a < b then a else b }

  // ----- how many posts a lock can count -----

  /** n posts by interrupts. */
  function Posts(s: Side, n: nat): Side {
    if n == 0 then s else Posts(s, n - 1).GainFromISR()
  }

  /** While the queue is locked the list of waiters is left alone, and each post is counted, for as many
      posts as the lock count can hold before it comes round to queueUNLOCKED. */
  lemma {:induction false} PostsAreCounted(s: Side, n: nat)
    requires s.lock == LOCKED_UNMODIFIED && n <= 255
    ensures Posts(s, n) == s.(available := s.available + n, lock := if n <= 127 then n else n - 256)
  {
    if n > 0 {
      PostsAreCounted(s, n - 1);
    }
  }

  /** From the 256th post on, the count reads as unlocked, and every post wakes a waiter behind the back of
      the task that holds the lock. */
  lemma {:induction false} LockWearsOut(s: Side, n: nat)
    requires s.lock == LOCKED_UNMODIFIED && n >= 255
    ensures var k := Min(n - 255, |s.waiters|);
      Posts(s, n) ==
      s.(available := s.available + n, lock := UNLOCKED, waiters := s.waiters[k..], awake := s.awake + k)
  {
    if n == 255 {
      PostsAreCounted(s, n);
      assert s.waiters[0..] == s.waiters;
    } else {
      LockWearsOut(s, n - 1);
    }
  }

  lemma SameTail(waiters: seq<Task>, a: nat, b: nat)
    requires a <= |waiters| && b <= |waiters|
    ensures waiters[a..] == waiters[b..] <==> a == b
  {
    assert |waiters[a..]| == |waiters| - a && |waiters[b..]| == |waiters| - b;
  }

  /** However many posts there are during a lock, with the wakeups on unlocking as many waiters have been
      woken as there were posts, or all of them, if and only if there were at most 127 posts, or there are
      so many posts or so few waiters that all of them were woken otherwise. */
  lemma UnlockAnnouncesPosts(s: Side, n: nat)
    requires s.lock == LOCKED_UNMODIFIED
    ensures Posts(s, n).Unlock().waiters == s.waiters[Min(n, |s.waiters|)..] <==>
            n <= 127 || s.waiters == [] || |s.waiters| + 255 <= n
  {
    hide Posts, Side.Unlock;
    Posts(s, n).UnlockEffect();
    var k := Min(n, |s.waiters|);
    if n <= 255 {
      PostsAreCounted(s, n);
      SameTail(s.waiters, Min(Posts(s, n).Owed(), |s.waiters|), k);
    } else {
      LockWearsOut(s, n);
      var j := Min(n - 255, |s.waiters|);
      assert s.waiters[j..][0..] == s.waiters[j..];
      SameTail(s.waiters, j, k);
    }
  }

  /** The 128th post is one too many: 127 posts are made good on unlocking, but after 128 the only waiter
      stays asleep over 128 items. */
  lemma OnePostTooMany(x: Task)
    ensures var s := Side(0, LOCKED_UNMODIFIED, [x], 0);
      && Posts(s, 127).Unlock() == Side(127, UNLOCKED, [], 1)
      && Posts(s, 128).Unlock() == Side(128, UNLOCKED, [x], 0)
  {
    var s := Side(0, LOCKED_UNMODIFIED, [x], 0);
    PostsAreCounted(s, 127);
    PostsAreCounted(s, 128);
    Posts(s, 127).UnlockEffect();
    Posts(s, 128).UnlockEffect();
  }

  // ----- the queue as a state machine -----

  /** How far the task that locked the queue has come: it has locked it, seen it empty (or full), put
      itself on the list of waiters, unlocked the first side. */
  datatype Locker = Nobody | Locked | SawEmpty | SawFull | TxUnlocked

  datatype Queue = Queue(length: nat, toReceive: Side, toSend: Side, locker: Locker)

  /** A critical section of a task, or an interrupt. */
  datatype Step =
    | LockQueue
    | FindEmpty
    | FindFull
    | JoinReceivers(x: Task, place: nat)
    | JoinSenders(x: Task, place: nat)
    | UnlockTx
    | UnlockRx
    | SendFromISR
    | ReceiveFromISR
    | OverwriteFromISR
    | Send(woken: bool)
    | Overwrite(woken: bool)
    | Receive(woken: bool)
    | Peek(woken: bool)
    | FailToSend
    | FailToReceive
    | LeaveReceivers(place: nat)
    | LeaveSenders(place: nat)

  function InsertWaiter(waiters: seq<Task>, place: nat, x: Task): seq<Task>
    requires place <= |waiters|
  {
    waiters[..place] + [x] + waiters[place..]
  }

  function RemoveWaiter(waiters: seq<Task>, place: nat): seq<Task>
    requires place < |waiters|
  {
    waiters[..place] + waiters[place + 1..]
  }

  /** Whoever joins a list is at the place it joined, everybody else is in the order they were, and leaving undoes it. */
  lemma LeavingUndoesJoining(waiters: seq<Task>, place: nat, x: Task)
    requires place <= |waiters|
    ensures var joined := InsertWaiter(waiters, place, x);
      && |joined| == |waiters| + 1 && joined[place] == x && joined[..place] == waiters[..place]
      && RemoveWaiter(joined, place) == waiters
  {
  }

  /** Other tasks run only while nobody has the scheduler suspended and the queue locked.  A lock count
      that is about to wrap ends the run.  Overwriting is for queues of one slot; into an empty one it is
      sending, so that the two steps for it are about a full one. */
  predicate Enabled(q: Queue, s: Step) {
    match s
    case LockQueue => q.locker == Nobody
    case FindEmpty => q.locker == Locked && q.toReceive.available == 0
    case FindFull => q.locker == Locked && q.toSend.available == 0
    case JoinReceivers(_, place) => q.locker == SawEmpty && place <= |q.toReceive.waiters|
    case JoinSenders(_, place) => q.locker == SawFull && place <= |q.toSend.waiters|
    case UnlockTx => q.locker == Locked
    case UnlockRx => q.locker == TxUnlocked
    case SendFromISR => q.toSend.available > 0 && q.toReceive.lock < 127
    case ReceiveFromISR => q.toReceive.available > 0 && q.toSend.lock < 127
    case OverwriteFromISR => q.length == 1 && q.toSend.available == 0 && q.toReceive.lock < 127
    case Overwrite(woken) =>
      q.locker == Nobody && q.length == 1 && q.toSend.available == 0 && (woken ==> q.toSend.awake > 0)
    case Send(woken) => q.locker == Nobody && q.toSend.available > 0 && (woken ==> q.toSend.awake > 0)
    case Receive(woken) => q.locker == Nobody && q.toReceive.available > 0 && (woken ==> q.toReceive.awake > 0)
    case Peek(woken) => q.locker == Nobody && q.toReceive.available > 0 && (woken ==> q.toReceive.awake > 0)
    case FailToSend => q.locker == Nobody && q.toSend.available == 0 && q.toSend.awake > 0
    case FailToReceive => q.locker == Nobody && q.toReceive.available == 0 && q.toReceive.awake > 0
    case LeaveReceivers(place) => q.locker == Nobody && place < |q.toReceive.waiters|
    case LeaveSenders(place) => q.locker == Nobody && place < |q.toSend.waiters|
  }

  function Tried(side: Side, woken: bool): Side
    requires woken ==> side.awake > 0
  {
    if woken then side.(awake := side.awake - 1) else side
  }

  function Next(q: Queue, s: Step): Queue
    requires Enabled(q, s)
  {
    match s
    case LockQueue => q.(toReceive := q.toReceive.Lock(), toSend := q.toSend.Lock(), locker := Locked)
    case FindEmpty => q.(locker := SawEmpty)
    case FindFull => q.(locker := SawFull)
    case JoinReceivers(x, place) =>
      q.(toReceive := q.toReceive.(waiters := InsertWaiter(q.toReceive.waiters, place, x)), locker := Locked)
    case JoinSenders(x, place) =>
      q.(toSend := q.toSend.(waiters := InsertWaiter(q.toSend.waiters, place, x)), locker := Locked)
    case UnlockTx => q.(toReceive := q.toReceive.Unlock(), locker := TxUnlocked)
    case UnlockRx => q.(toSend := q.toSend.Unlock(), locker := Nobody)
    case SendFromISR => q.(toReceive := q.toReceive.GainFromISR(), toSend := q.toSend.Lose())
    case ReceiveFromISR => q.(toSend := q.toSend.GainFromISR(), toReceive := q.toReceive.Lose())
    case OverwriteFromISR => q.(toReceive := q.toReceive.NoticeFromISR())
    case Overwrite(woken) => q.(toReceive := q.toReceive.WakeOne(), toSend := Tried(q.toSend, woken))
    case Send(woken) => q.(toReceive := q.toReceive.Gain(), toSend := Tried(q.toSend, woken).Lose())
    case Receive(woken) => q.(toSend := q.toSend.Gain(), toReceive := Tried(q.toReceive, woken).Lose())
    case Peek(woken) => q.(toReceive := Tried(q.toReceive, woken).WakeOne())
    case FailToSend => q.(toSend := Tried(q.toSend, true))
    case FailToReceive => q.(toReceive := Tried(q.toReceive, true))
    case LeaveReceivers(place) =>
      q.(toReceive := q.toReceive.(waiters := RemoveWaiter(q.toReceive.waiters, place)))
    case LeaveSenders(place) =>
      q.(toSend := q.toSend.(waiters := RemoveWaiter(q.toSend.waiters, place)))
  }

  ghost predicate Inv(q: Queue) {
    && q.toReceive.available + q.toSend.available == q.length
    && q.toReceive.Covered() && q.toReceive.CoveredFor(q.locker == SawEmpty)
    && q.toSend.Covered() && q.toSend.CoveredFor(q.locker == SawFull)
    && (q.toReceive.lock == UNLOCKED <==> q.locker == Nobody || q.locker == TxUnlocked)
    && (q.toSend.lock == UNLOCKED <==> q.locker == Nobody)
    && -1 <= q.toReceive.lock && -1 <= q.toSend.lock
  }

  lemma StepKeepsInv(q: Queue, s: Step)
    requires Inv(q) && Enabled(q, s)
    ensures Inv(Next(q, s))
  {
    if s == UnlockTx {
      hide Side.Unlock;
      q.toReceive.UnlockEffect();
    } else if s == UnlockRx {
      hide Side.Unlock;
      q.toSend.UnlockEffect();
    } else if s.JoinReceivers? || s.JoinSenders? || s.LeaveReceivers? || s.LeaveSenders? {
      ListStepKeepsInv(q, s);
    } else if s.LockQueue? || s.FindEmpty? || s.FindFull? || s.FailToSend? || s.FailToReceive? {
      BlockingStepKeepsInv(q, s);
    } else if s.SendFromISR? || s.ReceiveFromISR? || s.OverwriteFromISR? {
      InterruptKeepsInv(q, s);
    } else {
      TaskStepKeepsInv(q, s);
    }
  }

  lemma BlockingStepKeepsInv(q: Queue, s: Step)
    requires Inv(q) && Enabled(q, s)
    requires s.LockQueue? || s.FindEmpty? || s.FindFull? || s.FailToSend? || s.FailToReceive?
    ensures Inv(Next(q, s))
  {
    hide Side.Unlock, InsertWaiter, RemoveWaiter;
  }

  lemma InterruptKeepsInv(q: Queue, s: Step)
    requires Inv(q) && Enabled(q, s) && (s.SendFromISR? || s.ReceiveFromISR? || s.OverwriteFromISR?)
    ensures Inv(Next(q, s))
  {
    hide Side.Unlock, InsertWaiter, RemoveWaiter;
  }

  lemma TaskStepKeepsInv(q: Queue, s: Step)
    requires Inv(q) && Enabled(q, s) && (s.Send? || s.Overwrite? || s.Receive? || s.Peek?)
    ensures Inv(Next(q, s))
  {
    hide Side.Unlock, InsertWaiter, RemoveWaiter;
  }

  lemma ListStepKeepsInv(q: Queue, s: Step)
    requires Inv(q) && Enabled(q, s)
    requires s.JoinReceivers? || s.JoinSenders? || s.LeaveReceivers? || s.LeaveSenders?
    ensures Inv(Next(q, s))
  {
    hide Side.Unlock, InsertWaiter, RemoveWaiter;
  }

  /** Something to take was announced on this side: the first waiter is woken, or while the queue is locked one more
      wakeup is owed.  So many tasks woken before have tried again meanwhile. */
  ghost predicate Announced(a: Side, b: Side, tried: nat) {
    var k := if a.lock == UNLOCKED then Min(1, |a.waiters|) else 0;
    && b.waiters == a.waiters[k..] && b.awake + tried == a.awake + k
    && b.Owed() == if a.lock == UNLOCKED then a.Owed() else a.Owed() + 1
  }

  /** Nobody was woken and no wakeup is owed that was not. */
  ghost predicate LeftAsleep(a: Side, b: Side, tried: nat) {
    b.waiters == a.waiters && b.Owed() == a.Owed() && b.awake + tried == a.awake
  }

  predicate IsPost(s: Step) {
    s.Send? || s.Overwrite? || s.SendFromISR? || s.OverwriteFromISR? || s.Peek?
  }

  predicate IsReceipt(s: Step) { s.Receive? || s.ReceiveFromISR? }

  predicate Woken(s: Step) {
    (s.Send? || s.Overwrite? || s.Receive? || s.Peek?) && s.woken
  }

  /** Every post, overwriting and peeking included, is announced to the receivers and every receipt to the senders, at
      once or on unlocking; no other step but unlocking and joining or leaving a list changes who waits. */
  lemma StepAnnounces(q: Queue, s: Step)
    requires Inv(q) && Enabled(q, s) && !s.UnlockTx? && !s.UnlockRx?
    requires !s.JoinReceivers? && !s.JoinSenders? && !s.LeaveReceivers? && !s.LeaveSenders?
    ensures var r, tried := Next(q, s), if Woken(s) then 1 else 0;
      && (if IsPost(s) then Announced(q.toReceive, r.toReceive, if s.Peek? then tried else 0)
          else LeftAsleep(q.toReceive, r.toReceive, if s.FailToReceive? then 1 else if IsReceipt(s) then tried else 0))
      && (if IsReceipt(s) then Announced(q.toSend, r.toSend, 0)
          else LeftAsleep(q.toSend, r.toSend,
                          if s.FailToSend? then 1 else if IsPost(s) && !s.Peek? then tried else 0))
  {
  }

  ghost predicate IsRun(states: seq<Queue>, steps: seq<Step>) {
    && |states| == |steps| + 1
    && forall k :: 0 <= k < |steps| ==> Enabled(states[k], steps[k]) && states[k + 1] == Next(states[k], steps[k])
  }

  /** An unlocked queue on which nobody waits. */
  predicate Initial(q: Queue) {
    && q.toReceive.available + q.toSend.available == q.length && q.locker == Nobody
    && q.toReceive.lock == UNLOCKED == q.toSend.lock && q.toReceive.waiters == [] == q.toSend.waiters
  }

  lemma {:induction false} InvThroughout(states: seq<Queue>, steps: seq<Step>, k: nat)
    requires IsRun(states, steps) && Initial(states[0]) && k <= |steps|
    ensures Inv(states[k])
    decreases k
  {
    if k > 0 {
      hide Inv, Next;
      InvThroughout(states, steps, k - 1);
      StepKeepsInv(states[k - 1], steps[k - 1]);
    }
  }

  /** In every run in which interrupts post at most 127 items, and take at most 127, between locking and
      unlocking: whenever the queue is unlocked and a task sleeps on it, every item (for a receiver) or
      free slot (for a sender) has been announced to a woken task that has yet to try.  So with no such
      task about, a receiver sleeps only on an empty queue and a sender only on a full one. */
  lemma NoLostWakeup(states: seq<Queue>, steps: seq<Step>, k: nat)
    requires IsRun(states, steps) && Initial(states[0]) && k <= |steps| && states[k].locker == Nobody
    ensures var q := states[k];
      && (q.toReceive.waiters != [] ==> q.toReceive.available <= q.toReceive.awake)
      && (q.toSend.waiters != [] ==> q.toSend.available <= q.toSend.awake)
  {
    InvThroughout(states, steps, k);
  }

  /** From locking to unlocking, interrupts leave both lists of waiters alone. */
  lemma ListsUntouchedWhileLocked(q: Queue, s: Step)
    requires Inv(q) && Enabled(q, s) && q.locker != Nobody
    requires s.SendFromISR? || s.OverwriteFromISR? || s.ReceiveFromISR?
    ensures Next(q, s).toSend.waiters == q.toSend.waiters
    ensures q.locker != TxUnlocked ==> Next(q, s).toReceive.waiters == q.toReceive.waiters
  {
  }

  /** The sequence of a receiver that blocks: n items posted by interrupts anywhere between its looking at
      the empty queue and its unlocking wake min(n, waiting) receivers, itself among those waiting. */
  lemma BlockingReceiver(q: Queue, before: nat, after: nat, x: Task, place: nat)
    requires Inv(q) && q.locker == Locked && q.toReceive.lock == LOCKED_UNMODIFIED
    requires before + after <= 127 && place <= |q.toReceive.waiters|
    ensures var joined := Posts(q.toReceive, before).(waiters := InsertWaiter(q.toReceive.waiters, place, x));
      var unlocked, n := Posts(joined, after).Unlock(), before + after;
      && unlocked.waiters == joined.waiters[Min(n, |joined.waiters|)..]
      && unlocked.awake == q.toReceive.awake + Min(n, |joined.waiters|)
  {
    PostsAreCounted(q.toReceive, before);
    var joined := Posts(q.toReceive, before).(waiters := InsertWaiter(q.toReceive.waiters, place, x));
    MorePosts(joined, after);
    Posts(joined, after).UnlockEffect();
  }

  lemma {:induction false} MorePosts(s: Side, n: nat)
    requires 0 <= s.lock && s.lock + n <= 127
    ensures Posts(s, n) == s.(available := s.available + n, lock := s.lock + n)
  {
    if n > 0 {
      MorePosts(s, n - 1);
    }
  }

  // ----- the fields of Queue_t -----

  class QueueControl {
    const length: nat
    var messagesWaiting: nat
    var cRxLock: Int8
    var cTxLock: Int8
    var waitingToReceive: seq<Task>
    var waitingToSend: seq<Task>
    /** The tasks moved from the lists to the pending ready list, in that order. */
    var woken: seq<Task>
    ghost var wokenReceivers: nat
    ghost var wokenSenders: nat

    ghost predicate Valid()
      reads this
    {
      messagesWaiting <= length
    }

    ghost function Receiving(): Side
      requires Valid()
      reads this
    {
      Side(messagesWaiting, cTxLock, waitingToReceive, wokenReceivers)
    }

    ghost function Sending(): Side
      requires Valid()
      reads this
    {
      Side(length - messagesWaiting, cRxLock, waitingToSend, wokenSenders)
    }

    constructor (length: nat)
      ensures Valid() && this.length == length
      ensures Receiving() == Side(0, UNLOCKED, [], 0) && Sending() == Side(length, UNLOCKED, [], 0)
    {
      this.length := length;
      messagesWaiting := 0;
      cRxLock, cTxLock := UNLOCKED, UNLOCKED;
      waitingToReceive, waitingToSend, woken := [], [], [];
      wokenReceivers, wokenSenders := 0, 0;
    }

    /** prvLockQueue */
    method LockQueue()
      requires Valid()
      modifies `cRxLock, `cTxLock
      ensures Receiving() == old(Receiving()).Lock() && Sending() == old(Sending()).Lock()
    {
      if cRxLock == UNLOCKED {
        cRxLock := LOCKED_UNMODIFIED;
      }
      if cTxLock == UNLOCKED {
        cTxLock := LOCKED_UNMODIFIED;
      }
    }

    method WakeReceiver()
      requires Valid() && waitingToReceive != []
      modifies `waitingToReceive, `woken, `wokenReceivers
      ensures Receiving() == old(Receiving()).WakeOne() && woken == old(woken) + old(waitingToReceive)[..1]
    {
      woken := woken + [waitingToReceive[0]];
      waitingToReceive := waitingToReceive[1..];
      wokenReceivers := wokenReceivers + 1;
    }

    method WakeSender()
      requires Valid() && waitingToSend != []
      modifies `waitingToSend, `woken, `wokenSenders
      ensures Sending() == old(Sending()).WakeOne() && woken == old(woken) + old(waitingToSend)[..1]
    {
      woken := woken + [waitingToSend[0]];
      waitingToSend := waitingToSend[1..];
      wokenSenders := wokenSenders + 1;
    }

    /** The first loop of prvUnlockQueue. */
    method UnlockTx()
      requires Valid()
      modifies `cTxLock, `waitingToReceive, `woken, `wokenReceivers
      ensures Receiving() == old(Receiving()).Unlock()
      ensures woken == old(woken) + old(waitingToReceive)[..Min(old(Receiving()).Owed(), |old(waitingToReceive)|)]
    {
      ghost var k := 0;
      var lock := cTxLock;
      while lock > LOCKED_UNMODIFIED
        invariant k <= |old(waitingToReceive)|
        invariant lock > LOCKED_UNMODIFIED ==> lock + k == old(cTxLock)
        invariant lock <= LOCKED_UNMODIFIED ==> k == old(Receiving()).Owed()
        invariant waitingToReceive == old(waitingToReceive)[k..] && woken == old(woken) + old(waitingToReceive)[..k]
        invariant wokenReceivers == old(wokenReceivers) + k
      {
        if waitingToReceive != [] {
          WakeReceiver();
          k := k + 1;
        } else {
          break;
        }
        lock := lock - 1;
      }
      cTxLock := UNLOCKED;
      old(Receiving()).UnlockEffect();
    }

    /** The second loop of prvUnlockQueue. */
    method UnlockRx()
      requires Valid()
      modifies `cRxLock, `waitingToSend, `woken, `wokenSenders
      ensures Sending() == old(Sending()).Unlock()
      ensures woken == old(woken) + old(waitingToSend)[..Min(old(Sending()).Owed(), |old(waitingToSend)|)]
    {
      ghost var k := 0;
      var lock := cRxLock;
      while lock > LOCKED_UNMODIFIED
        invariant k <= |old(waitingToSend)|
        invariant lock > LOCKED_UNMODIFIED ==> lock + k == old(cRxLock)
        invariant lock <= LOCKED_UNMODIFIED ==> k == old(Sending()).Owed()
        invariant waitingToSend == old(waitingToSend)[k..] && woken == old(woken) + old(waitingToSend)[..k]
        invariant wokenSenders == old(wokenSenders) + k
      {
        if waitingToSend != [] {
          WakeSender();
          k := k + 1;
          lock := lock - 1;
        } else {
          break;
        }
      }
      cRxLock := UNLOCKED;
      old(Sending()).UnlockEffect();
    }

    /** The count after prvCopyDataToQueue: an item that is overwritten is not counted twice. */
    method CountItem(overwrite: bool)
      requires Valid() && (if overwrite then length == 1 else messagesWaiting < length)
      modifies `messagesWaiting
      ensures Valid() && messagesWaiting == if old(messagesWaiting < length) then old(messagesWaiting) + 1 else length
    {
      var waiting := messagesWaiting;
      if overwrite && waiting > 0 {
        waiting := waiting - 1;
      }
      messagesWaiting := waiting + 1;
    }

    /** The critical section of xQueueGenericSend, as far as counts and lists go. */
    method Send(overwrite: bool) returns (sent: bool)
      requires Valid() && (overwrite ==> length == 1)
      modifies this
      ensures Valid() && sent == (overwrite || old(messagesWaiting < length))
      ensures sent && old(messagesWaiting < length) ==>
        Receiving() == old(Receiving()).Gain() && Sending() == old(Sending()).Lose()
      ensures sent && old(messagesWaiting == length) ==>
        Receiving() == old(Receiving()).WakeOne() && Sending() == old(Sending())
      ensures !sent ==> Receiving() == old(Receiving()) && Sending() == old(Sending())
    {
      sent := messagesWaiting < length || overwrite;
      if sent {
        CountItem(overwrite);
        if waitingToReceive != [] {
          WakeReceiver();
        }
      }
    }

    /** The critical section of xQueueReceive, as far as counts and lists go. */
    method Receive() returns (received: bool)
      requires Valid()
      modifies this
      ensures Valid() && received == old(messagesWaiting > 0)
      ensures received ==> Sending() == old(Sending()).Gain() && Receiving() == old(Receiving()).Lose()
      ensures !received ==> Receiving() == old(Receiving()) && Sending() == old(Sending())
    {
      received := messagesWaiting > 0;
      if received {
        messagesWaiting := messagesWaiting - 1;
        if waitingToSend != [] {
          WakeSender();
        }
      }
    }

    /** The critical section of xQueuePeek: the item stays, so another reader may have it too. */
    method Peek() returns (peeked: bool)
      requires Valid()
      modifies this
      ensures Valid() && peeked == old(messagesWaiting > 0) && Sending() == old(Sending())
      ensures Receiving() == if peeked then old(Receiving()).WakeOne() else old(Receiving())
    {
      peeked := messagesWaiting > 0;
      if peeked && waitingToReceive != [] {
        WakeReceiver();
      }
    }

    /** xQueueGenericSendFromISR, as far as counts and lists go. */
    method SendFromISR(overwrite: bool) returns (sent: bool)
      requires Valid() && (overwrite ==> length == 1)
      modifies this
      ensures Valid() && sent == (overwrite || old(messagesWaiting < length))
      ensures sent && old(messagesWaiting < length) ==>
        Receiving() == old(Receiving()).GainFromISR() && Sending() == old(Sending()).Lose()
      ensures sent && old(messagesWaiting == length) ==>
        Receiving() == old(Receiving()).NoticeFromISR() && Sending() == old(Sending())
      ensures !sent ==> Receiving() == old(Receiving()) && Sending() == old(Sending())
    {
      sent := messagesWaiting < length || overwrite;
      if sent {
        CountItem(overwrite);
        if cTxLock == UNLOCKED {
          if waitingToReceive != [] {
            WakeReceiver();
          }
        } else {
          cTxLock := Increment(cTxLock);
        }
      }
    }

    /** xQueueReceiveFromISR, as far as counts and lists go. */
    method ReceiveFromISR() returns (received: bool)
      requires Valid()
      modifies this
      ensures Valid() && received == old(messagesWaiting > 0)
      ensures received ==> Sending() == old(Sending()).GainFromISR() && Receiving() == old(Receiving()).Lose()
      ensures !received ==> Receiving() == old(Receiving()) && Sending() == old(Sending())
    {
      received := messagesWaiting > 0;
      if received {
        messagesWaiting := messagesWaiting - 1;
        if cRxLock == UNLOCKED {
          if waitingToSend != [] {
            WakeSender();
          }
        } else {
          cRxLock := Increment(cRxLock);
        }
      }
    }
  }
}
