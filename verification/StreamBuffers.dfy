/** Stream and message buffers (stream_buffer.c) when sends and receives do not overlap. */
module StreamBuffers {
  import opened Rings

  function Min(a: nat, b: nat): nat { if a < b then a else b }

  class StreamBuffer {
    const buffer: array<Byte>
    var head: nat
    var tail: nat
    /** sbFLAGS_IS_MESSAGE_BUFFER */
    const isMessageBuffer: bool
    /** In a message buffer, the messages waiting. */
    ghost var messages: seq<Message>

    ghost predicate Valid()
      reads this, buffer
    {
      && head < buffer.Length && tail < buffer.Length
      && (isMessageBuffer ==> Contents() == Frames(messages))
    }

    /** The bytes waiting, in the order in which they will be read. */
    ghost function Contents(): (c: seq<Byte>)
      requires head < buffer.Length && tail < buffer.Length
      reads this, buffer
      ensures |c| == Used(buffer.Length, head, tail)
    {
      Slice(buffer[..], tail, Used(buffer.Length, head, tail))
    }

    /** The most bytes the buffer can hold: xLength - 1, the size the creator asked for. */
    function Capacity(): int
    {
      buffer.Length - 1
    }

    /** xStreamBufferGenericCreate: one byte more than asked for is allocated. */
    constructor (size: nat, isMessageBuffer: bool)
      requires if isMessageBuffer then size > HEADER else size > 0
      ensures Valid() && Contents() == [] && messages == [] && Capacity() == size
      ensures this.isMessageBuffer == isMessageBuffer && fresh(buffer)
    {
      buffer := new Byte[size + 1];
      head, tail := 0, 0;
      this.isMessageBuffer := isMessageBuffer;
      messages := [];
    }

    /** prvBytesInBuffer */
    method BytesAvailable() returns (n: nat)
      requires Valid()
      ensures n == |Contents()|
    {
      n := buffer.Length + head;
      n := n - tail;
      if n >= buffer.Length {
        n := n - buffer.Length;
      }
    }

    /** xStreamBufferSpacesAvailable */
    method SpacesAvailable() returns (n: nat)
      requires Valid()
      ensures n == Capacity() - |Contents()|
    {
      var space := buffer.Length + tail;
      space := space - head;
      space := space - 1;
      if space >= buffer.Length {
        space := space - buffer.Length;
      }
      n := space;
    }

    /** memcpy into the store. */
    method CopyIn(start: nat, bytes: seq<Byte>)
      requires start + |bytes| <= buffer.Length
      modifies buffer
      ensures buffer[..] == old(buffer[..start]) + bytes + old(buffer[start + |bytes|..])
    {
      var i := 0;
      while i < |bytes|
        invariant 0 <= i <= |bytes|
        invariant buffer[..] == old(buffer[..])[..start] + bytes[..i] + old(buffer[..])[start + i..]
      {
        ghost var before := buffer[..];
        buffer[start + i] := bytes[i];
        CopiedOne(old(buffer[..]), start, bytes, i, before, buffer[..]);
        i := i + 1;
      }
      assert bytes[..|bytes|] == bytes;
    }

    /** The one or two copies of prvWriteBytesToBuffer. */
    method Store(start: nat, bytes: seq<Byte>)
      requires start < buffer.Length && |bytes| <= buffer.Length
      modifies buffer
      ensures buffer[..] == Stored(old(buffer[..]), start, bytes)
    {
      ghost var before := buffer[..];
      var first := Min(buffer.Length - start, |bytes|);
      CopyIn(start, bytes[..first]);
      if |bytes| > first {
        ghost var middle := buffer[..];
        assert middle == before[..start] + bytes[..first];
        CopyIn(0, bytes[first..]);
        StoredPieces(before, start, bytes, middle);
      } else {
        assert bytes[..first] == bytes;
      }
    }

    /** prvWriteBytesToBuffer */
    method WriteBytes(bytes: seq<Byte>)
      requires head < buffer.Length && tail < buffer.Length
      requires 0 < |bytes| <= Capacity() - |Contents()|
      modifies `head, buffer
      ensures head < buffer.Length
      ensures Contents() == old(Contents()) + bytes
    {
      hide Stored, Slice;
      ghost var before, used := buffer[..], Used(buffer.Length, head, tail);
      var nextHead := head;
      Store(nextHead, bytes);
      StoredBehind(before, tail, used, bytes);
      nextHead := nextHead + |bytes|;
      if nextHead >= buffer.Length {
        nextHead := nextHead - buffer.Length;
      }
      head := nextHead;
    }

    /** prvReadBytesFromBuffer */
    method ReadBytes(maxCount: nat, bytesAvailable: nat) returns (bytes: seq<Byte>)
      requires head < buffer.Length && tail < buffer.Length && bytesAvailable <= |Contents()|
      modifies `tail
      ensures tail < buffer.Length
      ensures bytes == old(Contents())[..Min(bytesAvailable, maxCount)]
      ensures Contents() == old(Contents())[Min(bytesAvailable, maxCount)..]
    {
      var count := Min(bytesAvailable, maxCount);
      ghost var used := |Contents()|;
      SliceSplit(buffer[..], tail, count, used - count);
      SliceParts(buffer[..], tail, count);
      bytes := [];
      if count > 0 {
        var nextTail := tail;
        var first := Min(buffer.Length - nextTail, count);
        bytes := buffer[nextTail..nextTail + first];
        if count > first {
          bytes := bytes + buffer[..count - first];
        }
        assert bytes == Slice(buffer[..], nextTail, count);
        nextTail := nextTail + count;
        if nextTail >= buffer.Length {
          nextTail := nextTail - buffer.Length;
        }
        tail := nextTail;
      }
    }

    /** prvWriteMessageToBuffer, given a lower bound on the free space; returns the bytes accepted. */
    method WriteMessage(bytes: seq<Byte>, space: nat) returns (written: nat)
      requires Valid() && 0 < |bytes| && space <= Capacity() - |Contents()|
      requires isMessageBuffer ==> |bytes| < 0x1_0000_0000
      modifies `head, buffer, `messages
      ensures Valid()
      ensures if isMessageBuffer
        then written == (if space >= HEADER + |bytes| then |bytes| else 0)
             && messages == (if written == 0 then old(messages) else old(messages) + [bytes])
        else written == Min(|bytes|, space) && Contents() == old(Contents()) + bytes[..written]
    {
      written := 0;
      if space == 0 {
        return;
      }
      if !isMessageBuffer {
        written := Min(|bytes|, space);
        WriteBytes(bytes[..written]);
      } else if space >= HEADER + |bytes| {
        FramesAppend(messages, bytes);
        WriteBytes(Encode(|bytes|));
        WriteBytes(bytes);
        written := |bytes|;
        messages := messages + [bytes];
      }
    }

    /** prvReadMessageFromBuffer, given a lower bound on the bytes waiting, in a stream buffer. */
    method ReadStream(limit: nat, bytesAvailable: nat) returns (bytes: seq<Byte>)
      requires Valid() && !isMessageBuffer && bytesAvailable <= |Contents()|
      modifies `tail
      ensures Valid()
      ensures bytes == old(Contents())[..Min(bytesAvailable, limit)]
      ensures Contents() == old(Contents())[Min(bytesAvailable, limit)..]
    {
      bytes := ReadBytes(limit, bytesAvailable);
    }

    /** prvReadMessageFromBuffer in a message buffer: the next message whole, or, if the receiver offers
        too little room, nothing, and the message stays. */
    method ReadMessage(limit: nat, bytesAvailable: nat) returns (bytes: seq<Byte>)
      requires Valid() && isMessageBuffer && HEADER < bytesAvailable == |Contents()|
      modifies `tail, `messages
      ensures Valid() && old(messages) != []
      ensures if |old(messages)[0]| <= limit
        then bytes == old(messages)[0] && messages == old(messages)[1..]
        else bytes == [] && messages == old(messages) && tail == old(tail)
    {
      assert Frames(messages) + [] == Frames(messages);
      MoreThanHeader(messages, []);
      DecodeEncode(|messages[0]|);
      var originalTail := tail;
      var header := ReadBytes(HEADER, bytesAvailable);
      var next := Decode(header);
      if next > limit {
        tail := originalTail;
        next := 0;
        bytes := [];
      } else {
        assert Frames(messages[1..]) + [] == Frames(messages[1..]);
        bytes := ReadBytes(next, bytesAvailable - HEADER);
        messages := messages[1..];
      }
    }

    /** xStreamBufferSend that does not wait. */
    method Send(bytes: seq<Byte>) returns (sent: nat)
      requires Valid() && 0 < |bytes|
      requires isMessageBuffer ==> |bytes| < 0x1_0000_0000
      modifies `head, buffer, `messages
      ensures Valid()
      ensures isMessageBuffer ==>
                && sent == (if HEADER + |bytes| <= Capacity() - |old(Contents())| then |bytes| else 0)
                && messages == (if sent == 0 then old(messages) else old(messages) + [bytes])
      ensures !isMessageBuffer ==>
                && sent == Min(|bytes|, Capacity() - |old(Contents())|)
                && Contents() == old(Contents()) + bytes[..sent]
    {
      var space := SpacesAvailable();
      sent := WriteMessage(bytes, space);
    }

    /** xStreamBufferReceive that does not wait. */
    method Receive(limit: nat) returns (bytes: seq<Byte>)
      requires Valid()
      modifies `tail, `messages
      ensures Valid()
      ensures isMessageBuffer && old(messages) != [] && |old(messages)[0]| <= limit ==>
                bytes == old(messages)[0] && messages == old(messages)[1..]
      ensures isMessageBuffer && (old(messages) == [] || |old(messages)[0]| > limit) ==>
                bytes == [] && messages == old(messages) && Contents() == old(Contents())
      ensures !isMessageBuffer ==>
                && bytes == old(Contents())[..Min(|old(Contents())|, limit)]
                && Contents() == old(Contents())[Min(|old(Contents())|, limit)..]
    {
      bytes := [];
      var available := BytesAvailable();
      assert isMessageBuffer && messages != [] ==> available >= HEADER + |messages[0]|;
      if available > (if isMessageBuffer then HEADER else 0) {
        if isMessageBuffer {
          bytes := ReadMessage(limit, available);
        } else {
          bytes := ReadStream(limit, available);
        }
      }
    }

    /** xStreamBufferNextMessageLengthBytes */
    method NextMessageLength() returns (n: nat)
      requires Valid()
      modifies `tail
      ensures Valid() && tail == old(tail)
      ensures n == if isMessageBuffer && messages != [] then |messages[0]| else 0
    {
      n := 0;
      if isMessageBuffer {
        var available := BytesAvailable();
        assert messages != [] ==> available >= HEADER + |messages[0]|;
        if available > HEADER {
          assert Frames(messages) + [] == Frames(messages);
          MoreThanHeader(messages, []);
          DecodeEncode(|messages[0]|);
          var originalTail := tail;
          var header := ReadBytes(HEADER, available);
          n := Decode(header);
          tail := originalTail;
        }
      }
    }
  }

  /** One more byte of a copy. */
  lemma CopiedOne(data: seq<Byte>, start: nat, bytes: seq<Byte>, i: nat, before: seq<Byte>, after: seq<Byte>)
    requires i < |bytes| && start + |bytes| <= |data|
    requires before == data[..start] + bytes[..i] + data[start + i..]
    requires after == before[start + i := bytes[i]]
    ensures after == data[..start] + bytes[..i + 1] + data[start + i + 1..]
  {
    assert bytes[..i + 1] == bytes[..i] + [bytes[i]];
    assert data[start + i..] == [data[start + i]] + data[start + i + 1..];
  }
}
