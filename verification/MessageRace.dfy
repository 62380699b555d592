/** One writer and one reader on a message buffer, interleaved byte by byte: neither takes a lock, and
    the writer publishes a message with two separate updates of the head. */
module MessageRace {
  import opened Rings

  /** Where the writer is in prvWriteMessageToBuffer: it has looked at the free space, is copying the
      header, or is copying the message; k bytes are copied so far. */
  datatype Writer =
    | WriterIdle
    | WriterLooked(msg: Message, space: nat)
    | CopyingHeader(msg: Message, k: nat)
    | CopyingMessage(msg: Message, k: nat)

  /** Where the reader is in prvReadMessageFromBuffer: it has looked at the bytes waiting, is copying the
      header out, or is copying the message out. */
  datatype Reader =
    | ReaderIdle
    | ReaderLooked(available: nat)
    | ReadingHeader(available: nat, got: seq<Byte>)
    | ReadingMessage(available: nat, length: nat, got: seq<Byte>)

  /** The buffer, the two parties, and the messages accepted and returned so far. */
  datatype Race = Race(
    data: seq<Byte>, head: nat, tail: nat, writer: Writer, reader: Reader,
    accepted: seq<Message>, returned: seq<seq<Byte>>)

  datatype Step =
    | WriterLooks(msg: Message)
    | WriterDecides
    | WriterCopies
    | WriterPublishes
    | ReaderLooks
    | ReaderDecides
    | ReaderCopies
    | ReaderConsumes

  predicate InBounds(r: Race) {
    r.head < |r.data| && r.tail < |r.data|
  }

  function Waiting(r: Race): nat
    requires InBounds(r)
  {
    Used(|r.data|, r.head, r.tail)
  }

  /** The bytes the writer is to copy in its present phase, and how many it has copied. */
  function Outgoing(w: Writer): seq<Byte> {
    match w
    case CopyingHeader(m, _) => Encode(|m|)
    case CopyingMessage(m, _) => m
    case _ => []
  }

  function Copied(w: Writer): nat {
    if w.CopyingHeader? || w.CopyingMessage? then w.k else 0
  }

  /** How many bytes the reader copies out in its present phase. */
  function Wanted(r: Reader): nat {
    match r
    case ReadingHeader(_, _) => HEADER
    case ReadingMessage(available, length, _) => if available < length then available else length
    case _ => 0
  }

  predicate Enabled(r: Race, s: Step) {
    && InBounds(r)
    && match s
       case WriterLooks(_) => r.writer == WriterIdle
       case WriterDecides => r.writer.WriterLooked?
       case WriterCopies => Copied(r.writer) < |Outgoing(r.writer)|
       case WriterPublishes =>
         (r.writer.CopyingHeader? || r.writer.CopyingMessage?) && r.writer.k == |Outgoing(r.writer)| < |r.data|
       case ReaderLooks => r.reader == ReaderIdle
       case ReaderDecides => r.reader.ReaderLooked?
       case ReaderCopies => (r.reader.ReadingHeader? || r.reader.ReadingMessage?) && |r.reader.got| < Wanted(r.reader)
       case ReaderConsumes =>
         (r.reader.ReadingHeader? || r.reader.ReadingMessage?) && |r.reader.got| == Wanted(r.reader) < |r.data|
  }

  function Next(r: Race, s: Step): Race
    requires Enabled(r, s)
  {
    var n := |r.data|;
    match s
    case WriterLooks(m) => r.(writer := WriterLooked(m, Free(n, r.head, r.tail)))
    case WriterDecides =>
      if r.writer.space >= HEADER + |r.writer.msg|
      then r.(writer := CopyingHeader(r.writer.msg, 0), accepted := r.accepted + [r.writer.msg])
      else r.(writer := WriterIdle)
    case WriterCopies =>
      var k := r.writer.k;
      if k < n then
        r.(data := r.data[Wrap(r.head + k, n) := Outgoing(r.writer)[k]], writer := r.writer.(k := k + 1))
      else r
    case WriterPublishes =>
      r.(head := Wrap(r.head + r.writer.k, n),
         writer := if r.writer.CopyingHeader? then CopyingMessage(r.writer.msg, 0) else WriterIdle)
    case ReaderLooks => r.(reader := ReaderLooked(Waiting(r)))
    case ReaderDecides =>
      r.(reader := if r.reader.available > HEADER then ReadingHeader(r.reader.available, []) else ReaderIdle)
    case ReaderCopies =>
      var i := |r.reader.got|;
      if i < n then r.(reader := r.reader.(got := r.reader.got + [r.data[Wrap(r.tail + i, n)]])) else r
    case ReaderConsumes =>
      var i := |r.reader.got|;
      if r.reader.ReadingHeader? then
        r.(tail := Wrap(r.tail + i, n),
           reader := ReadingMessage(if r.reader.available < HEADER then 0 else r.reader.available - HEADER,
                                    Decode(r.reader.got), []))
      else
        r.(tail := Wrap(r.tail + i, n), reader := ReaderIdle, returned := r.returned + [r.reader.got])
  }

  // ----- the invariant -----

  /** The messages whose last byte is published and whose header is not consumed: all those accepted but
      for the ones returned, the one being read and the one being written. */
  function Whole(r: Race): (queue: seq<Message>)
    requires |r.accepted| >= |r.returned| + Read(r) + Written(r)
  {
    r.accepted[|r.returned| + Read(r)..|r.accepted| - Written(r)]
  }

  function Read(r: Race): nat { if r.reader.ReadingMessage? then 1 else 0 }

  function Written(r: Race): nat { if r.writer.CopyingHeader? || r.writer.CopyingMessage? then 1 else 0 }

  /** What is left of the message being read. */
  function Body(r: Race): seq<Byte>
    requires r.reader.ReadingMessage? ==> |r.returned| < |r.accepted|
  {
    if r.reader.ReadingMessage? then r.accepted[|r.returned|] else []
  }

  /** The header of the message being written, once it is published. */
  function Announced(r: Race): seq<Byte> {
    if r.writer.CopyingMessage? then Encode(|r.writer.msg|) else []
  }

  ghost predicate WriterOk(r: Race)
    requires InBounds(r)
  {
    var free := |r.data| - 1 - Waiting(r);
    match r.writer
    case WriterIdle => true
    case WriterLooked(_, space) => space <= free
    case CopyingHeader(m, k) => k <= HEADER && HEADER + |m| <= free
    case CopyingMessage(m, k) => k <= |m| <= free
  }

  ghost predicate CopyOk(r: Race)
    requires InBounds(r)
  {
    var k, w := Copied(r.writer), Outgoing(r.writer);
    && k <= |w| && Waiting(r) + k < |r.data|
    && Slice(r.data, r.head, k) == w[..k]
  }

  ghost predicate ReaderOk(r: Race)
    requires InBounds(r) && |r.accepted| >= |r.returned| + Read(r) + Written(r)
  {
    match r.reader
    case ReaderIdle => true
    case ReaderLooked(available) =>
      available <= Waiting(r) && (available > HEADER ==> Whole(r) != [] && available >= HEADER + |Whole(r)[0]|)
    case ReadingHeader(available, got) =>
      && available <= Waiting(r) && Whole(r) != [] && available >= HEADER + |Whole(r)[0]|
      && |got| <= HEADER && got == Encode(|Whole(r)[0]|)[..|got|]
    case ReadingMessage(available, length, got) =>
      && available <= Waiting(r) && length == |Body(r)| <= available
      && |got| <= length && got == Body(r)[..|got|]
  }

  /** The bytes between tail and head are what is left of the message being read, then whole frames,
      then at most the header of the message being written. */
  ghost predicate StreamOk(r: Race)
    requires InBounds(r) && |r.accepted| >= |r.returned| + Read(r) + Written(r)
  {
    Slice(r.data, r.tail, Waiting(r)) == Body(r) + Frames(Whole(r)) + Announced(r)
  }

  ghost predicate ListsOk(r: Race) {
    && |r.accepted| >= |r.returned| + Read(r) + Written(r)
    && (Written(r) == 1 ==> r.accepted[|r.accepted| - 1] == r.writer.msg)
    && r.returned == r.accepted[..|r.returned|]
  }

  ghost predicate Inv(r: Race) {
    InBounds(r) && ListsOk(r) && StreamOk(r) && WriterOk(r) && CopyOk(r) && ReaderOk(r)
  }

  // ----- every step keeps it -----

  lemma HeadMoves(length: nat, head: nat, tail: nat, k: nat)
    requires head < length && tail < length && Used(length, head, tail) + k < length
    ensures Used(length, Wrap(head + k, length), tail) == Used(length, head, tail) + k
  {
  }

  lemma TailMoves(length: nat, head: nat, tail: nat, k: nat)
    requires head < length && tail < length && k <= Used(length, head, tail)
    ensures Used(length, head, Wrap(tail + k, length)) == Used(length, head, tail) - k
  {
  }

  lemma NothingCopied(data: seq<Byte>, start: nat)
    requires start < |data|
    ensures Slice(data, start, 0) == []
  {
  }

  lemma ReaderUnmoved(r: Race, q: Race)
    requires InBounds(r) && InBounds(q) && ListsOk(r) && ListsOk(q) && ReaderOk(r)
    requires q.reader == r.reader && q.accepted == r.accepted && q.returned == r.returned
    requires Waiting(q) >= Waiting(r)
    requires Whole(r) != [] ==> Whole(q) != [] && Whole(q)[0] == Whole(r)[0]
    ensures ReaderOk(q)
  {
    hide Encode;
  }

  lemma WriterLooksOk(r: Race, msg: Message)
    requires Inv(r) && Enabled(r, WriterLooks(msg))
    ensures Inv(Next(r, WriterLooks(msg)))
  {
    hide Slice, Frames, Encode, ReaderOk;
    var q := Next(r, WriterLooks(msg));
    UsedPlusFree(|r.data|, r.head, r.tail);
    hide Used, Free;
    assert Whole(q) == Whole(r);
    ReaderUnmoved(r, q);
  }

  /** The writer takes up a message, or drops it for want of space. */
  lemma SameWhole(r: Race, q: Race)
    requires ListsOk(r) && r.writer.WriterLooked? && q.reader == r.reader && q.returned == r.returned
    requires if q.writer.CopyingHeader? then q.accepted == r.accepted + [q.writer.msg]
             else q.writer == WriterIdle && q.accepted == r.accepted
    ensures ListsOk(q) && Whole(q) == Whole(r) && Body(q) == Body(r)
  {
  }

  lemma WriterDecidesOk(r: Race)
    requires Inv(r) && Enabled(r, WriterDecides)
    ensures Inv(Next(r, WriterDecides))
  {
    hide Slice, Frames, Encode;
    var q := Next(r, WriterDecides);
    NothingCopied(q.data, q.head);
    SameWhole(r, q);
    hide ListsOk, Whole, Body;
  }

  lemma CopyOneByte(r: Race)
    requires Inv(r) && Enabled(r, WriterCopies)
    ensures var q := Next(r, WriterCopies);
      && q == r.(data := q.data, writer := r.writer.(k := r.writer.k + 1)) && |q.data| == |r.data|
      && Slice(q.data, r.tail, Waiting(r)) == Slice(r.data, r.tail, Waiting(r))
      && Slice(q.data, r.head, r.writer.k + 1) == Slice(r.data, r.head, r.writer.k) + [Outgoing(r.writer)[r.writer.k]]
  {
    hide Slice, Frames, Encode, StreamOk, ReaderOk, WriterOk, ListsOk;
    var n, k := |r.data|, r.writer.k;
    var b := Outgoing(r.writer)[k];
    SliceWrite(r.data, r.head, k, k, b);
    assert Wrap(r.tail + (Waiting(r) + k), n) == Wrap(r.head + k, n);
    SliceWrite(r.data, r.tail, Waiting(r), Waiting(r) + k, b);
  }

  lemma WriterCopiesOk(r: Race)
    requires Inv(r) && Enabled(r, WriterCopies)
    ensures Inv(Next(r, WriterCopies))
  {
    hide Slice, Frames, Encode, Next, ReaderOk, Used;
    CopyOneByte(r);
    var q, k := Next(r, WriterCopies), r.writer.k;
    assert Outgoing(r.writer)[..k + 1] == Outgoing(r.writer)[..k] + [Outgoing(r.writer)[k]];
    assert Whole(q) == Whole(r);
    ReaderUnmoved(r, q);
  }

  lemma Published(r: Race)
    requires Inv(r) && Enabled(r, WriterPublishes)
    ensures var q, n := Next(r, WriterPublishes), |r.data|;
      && InBounds(q) && Waiting(q) == Waiting(r) + |Outgoing(r.writer)|
      && Slice(r.data, r.tail, Waiting(q)) == Slice(r.data, r.tail, Waiting(r)) + Outgoing(r.writer)
  {
    hide Slice, Frames, Encode, StreamOk, ReaderOk, ListsOk;
    var k := r.writer.k;
    HeadMoves(|r.data|, r.head, r.tail, k);
    SliceSplit(r.data, r.tail, Waiting(r), k);
    assert Outgoing(r.writer)[..k] == Outgoing(r.writer);
  }

  lemma HeaderPublishedOk(r: Race)
    requires Inv(r) && Enabled(r, WriterPublishes) && r.writer.CopyingHeader?
    ensures Inv(Next(r, WriterPublishes))
  {
    hide Slice, Frames, Encode, Decode, ReaderOk;
    var q := Next(r, WriterPublishes);
    Published(r);
    NothingCopied(q.data, q.head);
    assert Whole(q) == Whole(r);
    ReaderUnmoved(r, q);
  }

  lemma MessagePublishedOk(r: Race)
    requires Inv(r) && Enabled(r, WriterPublishes) && r.writer.CopyingMessage?
    ensures Inv(Next(r, WriterPublishes))
  {
    hide Slice, Frames, Encode, Decode, ReaderOk, Whole;
    var q := Next(r, WriterPublishes);
    Published(r);
    NothingCopied(q.data, q.head);
    OneMoreWhole(r, q);
    ReaderUnmoved(r, q);
    FramesAppend(Whole(r), r.writer.msg);
    assert Announced(r) + r.writer.msg == Frame(r.writer.msg);
  }

  lemma OneMoreWhole(r: Race, q: Race)
    requires ListsOk(r) && r.writer.CopyingMessage? && q.writer == WriterIdle
    requires q.accepted == r.accepted && q.returned == r.returned && q.reader == r.reader
    ensures ListsOk(q) && Whole(q) == Whole(r) + [r.writer.msg]
    ensures Whole(r) != [] ==> Whole(q)[0] == Whole(r)[0]
  {
  }

  lemma HeadFrame(r: Race)
    requires InBounds(r) && ListsOk(r) && StreamOk(r) && !r.reader.ReadingMessage? && Waiting(r) > HEADER
    ensures Whole(r) != [] && Waiting(r) >= HEADER + |Whole(r)[0]|
    ensures Slice(r.data, r.tail, Waiting(r))[..HEADER] == Encode(|Whole(r)[0]|)
    ensures Slice(r.data, r.tail, Waiting(r))[HEADER..] == Whole(r)[0] + Frames(Whole(r)[1..]) + Announced(r)
  {
    hide Slice, Frames, Encode, Whole;
    var stream := Slice(r.data, r.tail, Waiting(r));
    assert stream == Frames(Whole(r)) + Announced(r);
    MoreThanHeader(Whole(r), Announced(r));
    var m := Whole(r)[0];
    assert stream[HEADER..] == stream[HEADER..][..|m|] + stream[HEADER + |m|..];
  }

  lemma ReaderLooksOk(r: Race)
    requires Inv(r) && Enabled(r, ReaderLooks)
    ensures Inv(Next(r, ReaderLooks))
  {
    hide Slice, Frames, Encode, Decode;
    if Waiting(r) > HEADER {
      HeadFrame(r);
    }
    assert Whole(Next(r, ReaderLooks)) == Whole(r);
  }

  lemma ReaderDecidesOk(r: Race)
    requires Inv(r) && Enabled(r, ReaderDecides)
    ensures Inv(Next(r, ReaderDecides))
  {
    hide Slice, Frames, Encode, Decode;
    assert Whole(Next(r, ReaderDecides)) == Whole(r);
  }

  lemma StreamByte(r: Race, i: nat)
    requires InBounds(r) && i < Waiting(r)
    ensures Slice(r.data, r.tail, Waiting(r))[i] == r.data[Wrap(r.tail + i, |r.data|)]
  {
  }

  /** The reader gets the next byte of what it is reading. */
  lemma NextByte(r: Race)
    requires Inv(r) && Enabled(r, ReaderCopies)
    ensures var i, b := |r.reader.got|, r.data[Wrap(r.tail + |r.reader.got|, |r.data|)];
      && i < Waiting(r)
      && (r.reader.ReadingHeader? ==> b == Encode(|Whole(r)[0]|)[i])
      && (r.reader.ReadingMessage? ==> b == Body(r)[i])
  {
    hide Slice, Frames, Encode, Decode, Whole;
    var i := |r.reader.got|;
    StreamByte(r, i);
    if r.reader.ReadingHeader? {
      HeadFrame(r);
    }
  }

  lemma ReaderCopiesOk(r: Race)
    requires Inv(r) && Enabled(r, ReaderCopies)
    ensures Inv(Next(r, ReaderCopies))
  {
    hide Slice, Frames, Encode, Decode;
    var q := Next(r, ReaderCopies);
    NextByte(r);
    assert Whole(q) == Whole(r);
  }

  lemma Consumed(r: Race)
    requires Inv(r) && Enabled(r, ReaderConsumes)
    ensures var q, i, stream := Next(r, ReaderConsumes), |r.reader.got|, Slice(r.data, r.tail, Waiting(r));
      InBounds(q) && i <= Waiting(r) && Waiting(q) == Waiting(r) - i && Slice(r.data, q.tail, Waiting(q)) == stream[i..]
  {
    hide Slice, Frames, Encode, Decode, StreamOk, CopyOk, WriterOk;
    var i := |r.reader.got|;
    TailMoves(|r.data|, r.head, r.tail, i);
    SliceSplit(r.data, r.tail, i, Waiting(r) - i);
  }

  lemma HeaderConsumedOk(r: Race)
    requires Inv(r) && Enabled(r, ReaderConsumes) && r.reader.ReadingHeader?
    ensures Inv(Next(r, ReaderConsumes))
  {
    hide Slice, Frames, Encode, Decode;
    var q := Next(r, ReaderConsumes);
    HeadFrame(r);
    Consumed(r);
    assert r.reader.got == Encode(|Whole(r)[0]|);
    DecodeEncode(|Whole(r)[0]|);
    OneLessWhole(r, q);
  }

  lemma OneLessWhole(r: Race, q: Race)
    requires ListsOk(r) && r.reader.ReadingHeader? && Whole(r) != [] && q.reader.ReadingMessage?
    requires q.accepted == r.accepted && q.returned == r.returned && q.writer == r.writer
    ensures ListsOk(q) && Whole(q) == Whole(r)[1..] && Body(q) == Whole(r)[0]
  {
  }

  lemma MessageConsumedOk(r: Race)
    requires Inv(r) && Enabled(r, ReaderConsumes) && r.reader.ReadingMessage?
    ensures Inv(Next(r, ReaderConsumes))
  {
    hide Slice, Frames, Encode, Decode;
    var q := Next(r, ReaderConsumes);
    Consumed(r);
    assert r.reader.got == Body(r);
    OneMoreReturned(r, q);
  }

  lemma OneMoreReturned(r: Race, q: Race)
    requires ListsOk(r) && r.reader.ReadingMessage? && q.reader == ReaderIdle
    requires q.accepted == r.accepted && q.returned == r.returned + [Body(r)] && q.writer == r.writer
    ensures ListsOk(q) && Whole(q) == Whole(r)
  {
  }

  lemma StepKeepsInv(r: Race, s: Step)
    requires Inv(r) && Enabled(r, s)
    ensures Inv(Next(r, s))
  {
    hide Inv, Next;
    match s {
      case WriterLooks(msg) => WriterLooksOk(r, msg);
      case WriterDecides => WriterDecidesOk(r);
      case WriterCopies => WriterCopiesOk(r);
      case WriterPublishes => if r.writer.CopyingHeader? { HeaderPublishedOk(r); } else { MessagePublishedOk(r); }
      case ReaderLooks => ReaderLooksOk(r);
      case ReaderDecides => ReaderDecidesOk(r);
      case ReaderCopies => ReaderCopiesOk(r);
      case ReaderConsumes => if r.reader.ReadingHeader? { HeaderConsumedOk(r); } else { MessageConsumedOk(r); }
    }
  }

  // ----- runs -----

  ghost predicate IsRun(states: seq<Race>, steps: seq<Step>) {
    && |states| == |steps| + 1
    && forall k :: 0 <= k < |steps| ==> Enabled(states[k], steps[k]) && states[k + 1] == Next(states[k], steps[k])
  }

  /** An empty buffer with both parties idle. */
  predicate Initial(r: Race) {
    && r.head == r.tail == 0 < |r.data| && r.writer == WriterIdle && r.reader == ReaderIdle
    && r.accepted == [] && r.returned == []
  }

  lemma InitialInv(r: Race)
    requires Initial(r)
    ensures Inv(r)
  {
    NothingWaits(r);
    InitialStream(r);
    InitialParties(r);
    hide StreamOk, WriterOk, CopyOk, ReaderOk, InBounds, ListsOk;
  }

  lemma NothingWaits(r: Race)
    requires Initial(r)
    ensures InBounds(r) && ListsOk(r) && Waiting(r) == 0
  {
  }

  lemma InitialStream(r: Race)
    requires Initial(r) && InBounds(r) && ListsOk(r) && Waiting(r) == 0
    ensures StreamOk(r)
  {
    hide Slice, Encode, Frame, Used;
    NothingCopied(r.data, r.tail);
    assert Whole(r) == [];
  }

  lemma InitialParties(r: Race)
    requires Initial(r) && InBounds(r) && ListsOk(r) && Waiting(r) == 0
    ensures WriterOk(r) && CopyOk(r) && ReaderOk(r)
  {
    hide Slice, Encode, Used;
    NothingCopied(r.data, r.head);
  }

  lemma {:induction false} InvThroughout(states: seq<Race>, steps: seq<Step>, k: nat)
    requires IsRun(states, steps) && Initial(states[0]) && k <= |steps|
    ensures Inv(states[k])
    decreases k
  {
    if k == 0 {
      InitialInv(states[0]);
    } else {
      hide Inv, Next, Enabled;
      InvThroughout(states, steps, k - 1);
      StepKeepsInv(states[k - 1], steps[k - 1]);
    }
  }

  lemma AcceptedParts(r: Race)
    requires ListsOk(r)
    ensures r.returned <= r.accepted
    ensures r.accepted == r.returned + r.accepted[|r.returned|..|r.returned| + Read(r)] + Whole(r)
                          + r.accepted[|r.accepted| - Written(r)..]
  {
  }

  /** However the copying of the two parties interleaves, the messages returned are exactly the first
      messages accepted, each whole and uncorrupted, in order; and none is lost: whatever is accepted and
      not yet returned is still in the buffer or in the hands of one of the two parties. */
  lemma NoMessageIsTorn(states: seq<Race>, steps: seq<Step>, k: nat)
    requires IsRun(states, steps) && Initial(states[0]) && k <= |steps|
    ensures var r := states[k];
      && r.returned <= r.accepted
      && InBounds(r) && |r.accepted| >= |r.returned| + Read(r) + Written(r)
      && Slice(r.data, r.tail, Waiting(r)) == Body(r) + Frames(Whole(r)) + Announced(r)
      && r.accepted == r.returned + r.accepted[|r.returned|..|r.returned| + Read(r)] + Whole(r)
                       + r.accepted[|r.accepted| - Written(r)..]
  {
    hide Slice, Frames, Encode, WriterOk, ReaderOk, CopyOk, Next;
    InvThroughout(states, steps, k);
    AcceptedParts(states[k]);
  }

  /** The writer never writes on a byte that is still to be read: the place of each byte it copies lies
      outside the stretch between tail and head. */
  lemma UnreadBytesAreSafe(r: Race, i: nat)
    requires Inv(r) && Enabled(r, WriterCopies) && i < Waiting(r)
    ensures Wrap(r.tail + i, |r.data|) != Wrap(r.head + r.writer.k, |r.data|)
    ensures Next(r, WriterCopies).data[Wrap(r.tail + i, |r.data|)] == r.data[Wrap(r.tail + i, |r.data|)]
  {
  }

  /** A header that is published before its message is never taken for a message: with nothing else in the
      buffer the reader decides that there is nothing to read. */
  lemma HeaderAloneIsLeft(r: Race)
    requires Inv(r) && r.reader == ReaderIdle && Whole(r) == []
    ensures Next(Next(r, ReaderLooks), ReaderDecides).reader == ReaderIdle
  {
  }

  /** Neither party is ever stuck half way. */
  lemma NeverStuck(r: Race)
    requires Inv(r)
    ensures r.writer == WriterIdle
            || Enabled(r, WriterDecides) || Enabled(r, WriterCopies) || Enabled(r, WriterPublishes)
    ensures r.reader == ReaderIdle
            || Enabled(r, ReaderDecides) || Enabled(r, ReaderCopies) || Enabled(r, ReaderConsumes)
  {
    hide Slice, Frames, Encode, StreamOk, Used;
  }
}
