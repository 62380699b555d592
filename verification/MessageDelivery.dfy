/** Progress of the race on a message buffer: each party gets done what it has begun in a fixed number of its own
    steps, wherever the other's fall. */
module MessageDelivery {
  import opened Rings
  import opened MessageRace

  predicate IsReaders(s: Step) { s.ReaderLooks? || s.ReaderDecides? || s.ReaderCopies? || s.ReaderConsumes? }

  // ----- what the writer decides -----

  /** From its look at the free space until it decides the writer keeps what it saw. */
  lemma {:induction false} SpaceKept(states: seq<Race>, steps: seq<Step>, i: nat, k: nat)
    requires IsRun(states, steps) && i < k <= |steps| && steps[i].WriterLooks?
    requires forall j :: i < j < k ==> IsReaders(steps[j])
    ensures InBounds(states[i])
    ensures states[k].writer == WriterLooked(steps[i].msg, Free(|states[i].data|, states[i].head, states[i].tail))
    ensures states[k].accepted == states[i].accepted
    decreases k
  {
    hide Free, Wrap, Decode;
    assert Enabled(states[k - 1], steps[k - 1]) && states[k] == Next(states[k - 1], steps[k - 1]);
    assert Enabled(states[i], steps[i]);
    if k > i + 1 {
      SpaceKept(states, steps, i, k - 1);
    }
  }

  /** A message is accepted if and only if it and its header fit into what was free when the writer looked, whatever
      the reader has done meanwhile; otherwise it is dropped, and the writer is ready for the next. */
  lemma AcceptedIffItFits(states: seq<Race>, steps: seq<Step>, i: nat, k: nat)
    requires IsRun(states, steps) && i < k < |steps| && steps[i].WriterLooks? && steps[k] == WriterDecides
    requires forall j :: i < j < k ==> IsReaders(steps[j])
    ensures InBounds(states[i])
    ensures var m, r := steps[i].msg, states[k + 1];
      if Free(|states[i].data|, states[i].head, states[i].tail) >= HEADER + |m|
      then r.accepted == states[i].accepted + [m] && r.writer == CopyingHeader(m, 0)
      else r.accepted == states[i].accepted && r.writer == WriterIdle
  {
    hide Free, Wrap, Decode;
    SpaceKept(states, steps, i, k);
    assert states[k + 1] == Next(states[k], steps[k]);
  }

  // ----- how much is left to do -----

  /** The reader has seen a whole message. */
  predicate Underway(r: Reader) {
    match r
    case ReaderIdle => false
    case ReaderLooked(available) => available > HEADER
    case _ => true
  }

  /** The message it has seen, the first that is accepted and not yet returned. */
  function Coming(r: Race): seq<Byte> { if |r.returned| < |r.accepted| then r.accepted[|r.returned|] else [] }

  /** The steps the reader has yet to make until it has returned the message. */
  function ReaderLeft(r: Race): int {
    match r.reader
    case ReaderIdle => 0
    case ReaderLooked(_) => HEADER + |Coming(r)| + 3
    case ReadingHeader(_, got) => HEADER - |got| + |Coming(r)| + 2
    case ReadingMessage(_, _, got) => |Coming(r)| - |got| + 1
  }

  lemma SeenIsAccepted(r: Race)
    requires Inv(r) && Underway(r.reader)
    ensures |r.returned| < |r.accepted|
    ensures r.reader.ReadingMessage? ==> r.reader.length == |Coming(r)| <= r.reader.available
    ensures !r.reader.ReadingMessage? ==> Whole(r) != [] && Whole(r)[0] == Coming(r)
  {
    hide Slice, Frames, Encode, StreamOk, WriterOk, CopyOk, Used;
  }

  /** A step of the writer's leaves the reader where it was. */
  lemma WriterStepKeeps(r: Race, s: Step)
    requires Inv(r) && Enabled(r, s) && !IsReaders(s)
    ensures var q := Next(r, s);
      q.reader == r.reader && q.returned == r.returned && r.accepted <= q.accepted
  {
    hide Inv, Wrap, Free, Used;
  }

  /** A step of its own brings the reader one closer, and the last returns the message. */
  lemma ReaderStepCounts(r: Race, s: Step)
    requires Inv(r) && Enabled(r, s) && IsReaders(s) && Underway(r.reader)
    ensures |r.returned| < |r.accepted| && ReaderLeft(r) > 0
    ensures var q := Next(r, s);
      && q.accepted == r.accepted
      && if ReaderLeft(r) == 1 then q.returned == r.returned + [Coming(r)] && q.reader == ReaderIdle
         else q.returned == r.returned && Underway(q.reader) && ReaderLeft(q) == ReaderLeft(r) - 1
  {
    SeenIsAccepted(r);
    hide Slice, Frames, Encode, StreamOk, WriterOk, CopyOk, Used, Whole;
    if s.ReaderConsumes? {
      if r.reader.ReadingHeader? {
        HeaderDecoded(r);
      } else {
        MessageRead(r);
      }
    }
    hide Decode, Inv;
  }

  lemma MessageRead(r: Race)
    requires Inv(r) && Enabled(r, ReaderConsumes) && r.reader.ReadingMessage?
    ensures |r.returned| < |r.accepted| && r.reader.got == Coming(r)
  {
    SeenIsAccepted(r);
    hide Slice, Frames, Encode, StreamOk, WriterOk, CopyOk, Used, Whole;
    assert Body(r)[..|Body(r)|] == Body(r);
  }

  lemma HeaderDecoded(r: Race)
    requires Inv(r) && Enabled(r, ReaderConsumes) && r.reader.ReadingHeader?
    ensures Inv(Next(r, ReaderConsumes))
  {
    hide Inv, Next, Enabled;
    StepKeepsInv(r, ReaderConsumes);
  }

  /** How many of the steps from i on, before k, are the reader's. */
  function ReaderSteps(steps: seq<Step>, i: nat, k: nat): nat
    requires i <= k <= |steps|
    decreases k
  {
    if k == i then 0 else ReaderSteps(steps, i, k - 1) + if IsReaders(steps[k - 1]) then 1 else 0
  }

  /** A message that the reader has seen is returned after exactly so many steps of the reader's, wherever the writer's
      fall: two decisions, one for each byte of header and message, and one more for each of the two. */
  lemma {:induction false} ReaderFinishes(states: seq<Race>, steps: seq<Step>, i: nat, k: nat)
    requires IsRun(states, steps) && Initial(states[0]) && i <= k <= |steps| && Underway(states[i].reader)
    requires ReaderSteps(steps, i, k) <= ReaderLeft(states[i])
    ensures var r := states[k];
      if ReaderSteps(steps, i, k) == ReaderLeft(states[i])
      then r.returned == states[i].returned + [Coming(states[i])] && r.reader == ReaderIdle
      else
        && r.returned == states[i].returned && states[i].accepted <= r.accepted && Underway(r.reader)
        && ReaderLeft(r) == ReaderLeft(states[i]) - ReaderSteps(steps, i, k)
    decreases k
  {
    hide Inv, Next, Enabled;
    InvThroughout(states, steps, i);
    SeenIsAccepted(states[i]);
    LeftIsPositive(states[i]);
    if k > i {
      InvThroughout(states, steps, k - 1);
      assert Enabled(states[k - 1], steps[k - 1]) && states[k] == Next(states[k - 1], steps[k - 1]);
      if IsReaders(steps[k - 1]) {
        ReaderFinishes(states, steps, i, k - 1);
        ReaderStepCounts(states[k - 1], steps[k - 1]);
      } else {
        ReaderFinishes(states, steps, i, k - 1);
        WriterStepKeeps(states[k - 1], steps[k - 1]);
      }
    }
  }

  lemma LeftIsPositive(r: Race)
    requires Inv(r) && Underway(r.reader)
    ensures ReaderLeft(r) > 0
  {
    SeenIsAccepted(r);
    hide Slice, Frames, Encode, StreamOk, WriterOk, CopyOk, Used, Whole;
  }

  /** If there is a whole message in the buffer when the reader looks, it sees it. */
  lemma WholeIsSeen(r: Race)
    requires Inv(r) && r.reader == ReaderIdle && Whole(r) != []
    ensures Enabled(r, ReaderLooks) && Underway(Next(r, ReaderLooks).reader)
    ensures Coming(Next(r, ReaderLooks)) == Whole(r)[0]
  {
    hide Slice, Encode, Used;
    FramesHead(Whole(r));
  }

  // ----- the writer -----

  predicate IsWriting(w: Writer) { w.CopyingHeader? || w.CopyingMessage? }

  /** The steps the writer has yet to make until it has published the message. */
  function WriterLeft(w: Writer): int
    requires IsWriting(w)
  {
    if w.CopyingHeader? then HEADER - w.k + |w.msg| + 2 else |w.msg| - w.k + 1
  }

  function WriterSteps(steps: seq<Step>, i: nat, k: nat): nat
    requires i <= k <= |steps|
    decreases k
  {
    if k == i then 0 else WriterSteps(steps, i, k - 1) + if IsReaders(steps[k - 1]) then 0 else 1
  }

  lemma WriterStepCounts(r: Race, s: Step)
    requires Inv(r) && Enabled(r, s) && IsWriting(r.writer) && !IsReaders(s)
    ensures WriterLeft(r.writer) > 0
    ensures var q := Next(r, s);
      && q.accepted == r.accepted
      && if WriterLeft(r.writer) == 1 then q.writer == WriterIdle
         else IsWriting(q.writer) && WriterLeft(q.writer) == WriterLeft(r.writer) - 1
  {
    hide Slice, Frames, Encode, StreamOk, ReaderOk, Used, Whole;
  }

  lemma ReaderStepKeeps(r: Race, s: Step)
    requires Enabled(r, s) && IsReaders(s)
    ensures Next(r, s).writer == r.writer && Next(r, s).accepted == r.accepted
  {
  }

  /** An accepted message is published after exactly so many steps of the writer's, wherever the reader's fall. */
  lemma {:induction false} WriterFinishes(states: seq<Race>, steps: seq<Step>, i: nat, k: nat)
    requires IsRun(states, steps) && Initial(states[0]) && i <= k <= |steps| && IsWriting(states[i].writer)
    requires WriterSteps(steps, i, k) <= WriterLeft(states[i].writer)
    ensures var r := states[k];
      && r.accepted == states[i].accepted
      && if WriterSteps(steps, i, k) == WriterLeft(states[i].writer) then r.writer == WriterIdle
         else IsWriting(r.writer) && WriterLeft(r.writer) == WriterLeft(states[i].writer) - WriterSteps(steps, i, k)
    decreases k
  {
    hide Inv, Next, Enabled;
    InvThroughout(states, steps, i);
    WritingIsPositive(states[i]);
    if k > i {
      InvThroughout(states, steps, k - 1);
      assert Enabled(states[k - 1], steps[k - 1]) && states[k] == Next(states[k - 1], steps[k - 1]);
      WriterFinishes(states, steps, i, k - 1);
      if IsReaders(steps[k - 1]) {
        ReaderStepKeeps(states[k - 1], steps[k - 1]);
      } else {
        WriterStepCounts(states[k - 1], steps[k - 1]);
      }
    }
  }

  lemma WritingIsPositive(r: Race)
    requires Inv(r) && IsWriting(r.writer)
    ensures WriterLeft(r.writer) > 0
  {
    hide Slice, Frames, Encode, StreamOk, ReaderOk, Used, Whole;
  }
}
