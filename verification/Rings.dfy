/** Stretches of a circular store, and messages framed by their length. */
module Rings {

  type Byte = b: int | 0 <= b < 256

  /** One conditional subtraction, as the source wraps its indices. */
  function Wrap(n: nat, length: nat): (r: nat)
    requires n < 2 * length
    ensures r < length
  {
    if n >= length then n - length else n
  }

  /** prvBytesInBuffer */
  function Used(length: nat, head: nat, tail: nat): (n: nat)
    requires head < length && tail < length
    ensures n < length
    ensures head == Wrap(tail + n, length)
  {
    Wrap(length + head - tail, length)
  }

  /** xStreamBufferSpacesAvailable */
  function Free(length: nat, head: nat, tail: nat): (n: nat)
    requires head < length && tail < length
    ensures n < length
  {
    Wrap(length + tail - head - 1, length)
  }

  /** One byte of the store always stays unused. */
  lemma UsedPlusFree(length: nat, head: nat, tail: nat)
    requires head < length && tail < length
    ensures Used(length, head, tail) + Free(length, head, tail) == length - 1
  {
  }

  /** n bytes of the store from position start on, going round. */
  function Slice<T>(data: seq<T>, start: nat, n: nat): (r: seq<T>)
    requires start < |data| && n <= |data|
    ensures |r| == n
  {
    seq(n, i requires 0 <= i < n => data[Wrap(start + i, |data|)])
  }

  lemma SliceAt<T>(data: seq<T>, start: nat, n: nat, i: nat)
    requires start < |data| && i < n <= |data|
    ensures Slice(data, start, n)[i] == data[Wrap(start + i, |data|)]
  {
  }

  lemma SliceSplit<T>(data: seq<T>, start: nat, m: nat, n: nat)
    requires start < |data| && m + n <= |data|
    ensures Slice(data, start, m + n) == Slice(data, start, m) + Slice(data, Wrap(start + m, |data|), n)
  {
    var a, b := Slice(data, start, m + n), Slice(data, start, m) + Slice(data, Wrap(start + m, |data|), n);
    forall i | 0 <= i < m + n ensures a[i] == b[i] {
      if i >= m {
        assert Wrap(start + i, |data|) == Wrap(Wrap(start + m, |data|) + (i - m), |data|);
      }
    }
  }

  /** Writing beyond a stretch leaves it alone; writing next to it extends it. */
  lemma SliceWrite<T>(data: seq<T>, start: nat, n: nat, k: nat, b: T)
    requires start < |data| && n <= k < |data|
    ensures Slice(data[Wrap(start + k, |data|) := b], start, n) == Slice(data, start, n)
    ensures k == n ==> Slice(data[Wrap(start + k, |data|) := b], start, n + 1) == Slice(data, start, n) + [b]
  {
    var after := data[Wrap(start + k, |data|) := b];
    forall i | 0 <= i < n ensures Slice(after, start, n)[i] == Slice(data, start, n)[i] {
      assert Wrap(start + i, |data|) != Wrap(start + k, |data|);
    }
    if k == n {
      SliceSplit(after, start, n, 1);
      SliceAt(after, Wrap(start + n, |data|), 1, 0);
    }
  }

  /** A stretch that does not reach the end is a plain subsequence; one that does continues at the start. */
  lemma SliceParts<T>(data: seq<T>, start: nat, n: nat)
    requires start < |data| && n <= |data|
    ensures start + n <= |data| ==> Slice(data, start, n) == data[start..start + n]
    ensures start + n > |data| ==> Slice(data, start, n) == data[start..] + data[..n - (|data| - start)]
  {
    var parts := if start + n <= |data| then data[start..start + n] else data[start..] + data[..n - (|data| - start)];
    forall i | 0 <= i < n ensures Slice(data, start, n)[i] == parts[i] {
      SliceAt(data, start, n, i);
    }
  }

  /** The store after bytes are copied in at position head, going round at the end. */
  function Stored(data: seq<Byte>, head: nat, bytes: seq<Byte>): (r: seq<Byte>)
    requires head < |data| && |bytes| <= |data|
    ensures |r| == |data|
  {
    var first := |data| - head;
    if |bytes| <= first then data[..head] + bytes + data[head + |bytes|..]
    else bytes[first..] + data[|bytes| - first..head] + bytes[..first]
  }

  /** Two copies, the second from the start of the store, when the bytes go round. */
  lemma StoredPieces(data: seq<Byte>, head: nat, bytes: seq<Byte>, middle: seq<Byte>)
    requires head < |data| && |data| - head < |bytes| <= |data|
    requires middle == data[..head] + bytes[..|data| - head]
    ensures |middle| == |data|
    ensures bytes[|data| - head..] + middle[|bytes| - (|data| - head)..] == Stored(data, head, bytes)
  {
    var first := |data| - head;
    assert middle[|bytes| - first..] == data[|bytes| - first..head] + bytes[..first];
  }

  lemma StoredAt(data: seq<Byte>, tail: nat, k: nat, bytes: seq<Byte>, i: nat)
    requires tail < |data| && k + |bytes| <= |data| && i < k + |bytes|
    ensures Stored(data, Wrap(tail + k, |data|), bytes)[Wrap(tail + i, |data|)] ==
            if i < k then data[Wrap(tail + i, |data|)] else bytes[i - k]
  {
  }

  /** Bytes copied in just behind a stretch extend the stretch by themselves. */
  lemma StoredBehind(data: seq<Byte>, tail: nat, k: nat, bytes: seq<Byte>)
    requires tail < |data| && k + |bytes| <= |data| && k < |data|
    ensures Slice(Stored(data, Wrap(tail + k, |data|), bytes), tail, k + |bytes|) == Slice(data, tail, k) + bytes
  {
    var after := Stored(data, Wrap(tail + k, |data|), bytes);
    forall i | 0 <= i < k + |bytes| ensures Slice(after, tail, k + |bytes|)[i] == (Slice(data, tail, k) + bytes)[i] {
      StoredAt(data, tail, k, bytes, i);
    }
  }

  // ----- framing -----

  type Message = m: seq<Byte> | 0 < |m| < 0x1_0000_0000 witness [0]

  /** Bytes of configMESSAGE_BUFFER_LENGTH_TYPE, a 32-bit size_t. */
  const HEADER: nat := 4

  function Encode(n: nat): (h: seq<Byte>)
    requires n < 0x1_0000_0000
    ensures |h| == HEADER
  {
    [n % 0x100, n / 0x100 % 0x100, n / 0x1_0000 % 0x100, n / 0x100_0000]
  }

  function Decode(h: seq<Byte>): nat
    requires |h| == HEADER
  {
    var b0: int, b1: int, b2: int, b3: int := h[0], h[1], h[2], h[3];
    b0 + 0x100 * b1 + 0x1_0000 * b2 + 0x100_0000 * b3
  }

  lemma DecodeEncode(n: nat)
    requires n < 0x1_0000_0000
    ensures Decode(Encode(n)) == n
  {
    var a, b := n / 0x100, n / 0x1_0000;
    assert n == 0x100 * a + n % 0x100;
    DivideTwice(n);
    assert a == 0x100 * b + a % 0x100;
    assert b == 0x100 * (n / 0x100_0000) + b % 0x100;
  }

  lemma DivideTwice(n: nat)
    ensures n / 0x100 / 0x100 == n / 0x1_0000 && n / 0x1_0000 / 0x100 == n / 0x100_0000
  {
  }

  function Frame(m: Message): (f: seq<Byte>)
    ensures |f| == HEADER + |m|
  {
    Encode(|m|) + m
  }

  function Frames(queue: seq<Message>): seq<Byte> {
    if queue == [] then [] else Frame(queue[0]) + Frames(queue[1..])
  }

  lemma {:induction false} FramesAppend(queue: seq<Message>, m: Message)
    ensures Frames(queue + [m]) == Frames(queue) + Frame(m)
  {
    if queue != [] {
      FramesAppend(queue[1..], m);
      assert (queue + [m])[1..] == queue[1..] + [m];
    }
  }

  lemma FramesHead(queue: seq<Message>)
    requires queue != []
    ensures Frames(queue) == Encode(|queue[0]|) + queue[0] + Frames(queue[1..])
  {
    hide Encode;
  }

  lemma ThreeParts(a: seq<Byte>, b: seq<Byte>, c: seq<Byte>, d: seq<Byte>)
    ensures var all := (a + b + c) + d;
      && |all| >= |a| + |b| && all[..|a|] == a && all[|a|..][..|b|] == b && all[|a| + |b|..] == c + d
  {
  }

  /** A stream of frames followed by at most a header holds more than a header only if it starts with a
      whole frame. */
  lemma MoreThanHeader(queue: seq<Message>, rest: seq<Byte>)
    requires |rest| <= HEADER && |Frames(queue) + rest| > HEADER
    ensures queue != [] && |Frames(queue) + rest| >= HEADER + |queue[0]|
    ensures (Frames(queue) + rest)[..HEADER] == Encode(|queue[0]|)
    ensures (Frames(queue) + rest)[HEADER..][..|queue[0]|] == queue[0]
    ensures (Frames(queue) + rest)[HEADER + |queue[0]|..] == Frames(queue[1..]) + rest
  {
    assert queue == [] ==> |Frames(queue) + rest| == |rest|;
    FramesHead(queue);
    hide Frames, Encode;
    ThreeParts(Encode(|queue[0]|), queue[0], Frames(queue[1..]), rest);
  }

  /** The messages can be read back from their frames in one way only. */
  lemma {:induction false} FramesInjective(a: seq<Message>, b: seq<Message>)
    requires Frames(a) == Frames(b)
    ensures a == b
  {
    if a == [] || b == [] {
      assert a != [] ==> |Frames(a)| > 0;
      assert b != [] ==> |Frames(b)| > 0;
    } else {
      MoreThanHeader(a, []);
      MoreThanHeader(b, []);
      assert Frames(a) + [] == Frames(a) && Frames(b) + [] == Frames(b);
      DecodeEncode(|a[0]|);
      DecodeEncode(|b[0]|);
      assert Frames(a[1..]) + [] == Frames(a[1..]) && Frames(b[1..]) + [] == Frames(b[1..]);
      FramesInjective(a[1..], b[1..]);
    }
  }
}
