/** The item storage of a queue (queue.c): a double-ended ring that is written behind its last item and
    read in front of its first. */
module QueueStorage {
  import opened Rings

  datatype Position = Back | Front | Overwrite

  /** What sending means for the items in the queue, from front to back. */
  function Placed<T>(contents: seq<T>, item: T, position: Position): seq<T> {
    match position
    case Back => contents + [item]
    case Front => [item] + contents
    case Overwrite => [item]
  }

  /** Slots stand for the uxItemSize-byte cells between pcHead and pcTail, indices for pointers. */
  class Storage<T(0)> {
    const slots: array<T>
    var writeTo: nat
    var readFrom: nat
    var messagesWaiting: nat

    /** The slot of the first item lies one behind pcReadFrom, and pcWriteTo as many further as there are
        items, modulo the length. */
    ghost predicate Valid()
      reads this
    {
      && readFrom < slots.Length && messagesWaiting <= slots.Length
      && writeTo == Wrap(Wrap(readFrom + 1, slots.Length) + messagesWaiting, slots.Length)
    }

    /** The items from front to back. */
    ghost function Contents(): (c: seq<T>)
      requires Valid()
      reads this, slots
      ensures |c| == messagesWaiting
    {
      Slice(slots[..], Wrap(readFrom + 1, slots.Length), messagesWaiting)
    }

    /** xQueueGenericReset of a new queue. */
    constructor (length: nat)
      requires length > 0
      ensures Valid() && Contents() == [] && slots.Length == length && fresh(slots)
      ensures writeTo == 0 && readFrom == length - 1
    {
      slots := new T[length];
      writeTo := 0;
      readFrom := length - 1;
      messagesWaiting := 0;
    }

    /** xQueueGenericReset of a queue in use. */
    method Reset()
      requires Valid()
      modifies this
      ensures Valid() && Contents() == [] && writeTo == 0 && readFrom == slots.Length - 1
    {
      messagesWaiting := 0;
      writeTo := 0;
      readFrom := slots.Length - 1;
    }

    /** prvCopyDataToQueue, when there is room or the only item is overwritten. */
    method CopyIn(item: T, position: Position)
      requires Valid()
      requires if position == Overwrite then slots.Length == 1 else messagesWaiting < slots.Length
      modifies this, slots
      ensures Valid()
      ensures Contents() == Placed(old(Contents()), item, position)
    {
      hide Slice;
      var waiting := messagesWaiting;
      ghost var before, first := slots[..], Wrap(readFrom + 1, slots.Length);
      if position == Back {
        slots[writeTo] := item;
        assert slots[..] == before[writeTo := item];
        SliceWrite(before, first, waiting, waiting, item);
        writeTo := writeTo + 1;
        if writeTo >= slots.Length {
          writeTo := 0;
        }
      } else {
        slots[readFrom] := item;
        assert slots[..] == before[readFrom := item];
        if readFrom == 0 {
          readFrom := slots.Length - 1;
        } else {
          readFrom := readFrom - 1;
        }
        if position == Overwrite {
          if waiting > 0 {
            waiting := waiting - 1;
          }
          OnlyItem(before, item);
        } else {
          InFront(before, old(readFrom), waiting, item);
        }
      }
      messagesWaiting := waiting + 1;
    }

    /** prvCopyDataFromQueue of a queue that holds an item. */
    method CopyOut() returns (item: T)
      requires Valid() && messagesWaiting > 0
      modifies `readFrom
      ensures readFrom == Wrap(old(readFrom) + 1, slots.Length)
      ensures item == old(Contents())[0]
    {
      SliceAt(slots[..], Wrap(readFrom + 1, slots.Length), messagesWaiting, 0);
      readFrom := readFrom + 1;
      if readFrom >= slots.Length {
        readFrom := 0;
      }
      item := slots[readFrom];
    }

    /** xQueueGenericSend and xQueueGenericSendFromISR, as far as the storage goes. */
    method Send(item: T, position: Position) returns (sent: bool)
      requires Valid() && (position == Overwrite ==> slots.Length == 1)
      modifies this, slots
      ensures Valid()
      ensures sent == (|old(Contents())| < slots.Length || position == Overwrite)
      ensures !sent ==> Contents() == old(Contents())
      ensures sent ==> Contents() == Placed(old(Contents()), item, position)
    {
      sent := messagesWaiting < slots.Length || position == Overwrite;
      if sent {
        CopyIn(item, position);
      }
    }

    /** xQueueReceive and xQueueReceiveFromISR. */
    method Receive(otherwise: T) returns (received: bool, item: T)
      requires Valid()
      modifies this
      ensures Valid()
      ensures received == (old(Contents()) != [])
      ensures received ==> [item] + Contents() == old(Contents())
      ensures !received ==> Contents() == []
    {
      received, item := messagesWaiting > 0, otherwise;
      if received {
        ghost var first, n := Wrap(readFrom + 1, slots.Length), messagesWaiting;
        item := CopyOut();
        messagesWaiting := messagesWaiting - 1;
        SliceSplit(slots[..], first, 1, n - 1);
        SliceAt(slots[..], first, 1, 0);
      }
    }

    /** xQueuePeek and xQueuePeekFromISR. */
    method Peek(otherwise: T) returns (peeked: bool, item: T)
      requires Valid()
      modifies this
      ensures Valid() && Contents() == old(Contents())
      ensures peeked == (Contents() != [])
      ensures peeked ==> item == Contents()[0]
    {
      peeked, item := messagesWaiting > 0, otherwise;
      if peeked {
        var originalReadPosition := readFrom;
        item := CopyOut();
        readFrom := originalReadPosition;
      }
    }
  }

  lemma OnlyItem<T>(data: seq<T>, item: T)
    requires |data| == 1
    ensures Slice(data[0 := item], 0, 1) == [item]
  {
    SliceAt(data[0 := item], 0, 1, 0);
  }

  /** An item written in the slot before the first becomes the first. */
  lemma InFront<T>(data: seq<T>, readFrom: nat, n: nat, item: T)
    requires readFrom < |data| && n < |data|
    ensures Slice(data[readFrom := item], readFrom, n + 1) == [item] + Slice(data, Wrap(readFrom + 1, |data|), n)
  {
    var after := data[readFrom := item];
    SliceSplit(after, readFrom, 1, n);
    SliceAt(after, readFrom, 1, 0);
    var rest, same := Slice(after, Wrap(readFrom + 1, |data|), n), Slice(data, Wrap(readFrom + 1, |data|), n);
    forall i | 0 <= i < n ensures rest[i] == same[i] {
      SliceAt(after, Wrap(readFrom + 1, |data|), n, i);
      SliceAt(data, Wrap(readFrom + 1, |data|), n, i);
    }
  }

  // ----- what a queue is for -----

  /** An operation on a queue that succeeds. */
  datatype Op<T> = Put(item: T) | Urgent(item: T) | Take

  /** The items left, and those received, after operations on a queue that is never full when written and never empty
      when read. */
  function Served<T>(contents: seq<T>, ops: seq<Op<T>>): (r: (seq<T>, seq<T>))
    decreases |ops|
  {
    if ops == [] then (contents, [])
    else
      var (before, taken) := Served(contents, ops[..|ops| - 1]);
      match ops[|ops| - 1]
      case Put(item) => (Placed(before, item, Back), taken)
      case Urgent(item) => (Placed(before, item, Front), taken)
      case Take => if before == [] then (before, taken) else (before[1..], taken + [before[0]])
  }

  function PutItems<T>(ops: seq<Op<T>>): seq<T> {
    if ops == [] then []
    else PutItems(ops[..|ops| - 1]) + if ops[|ops| - 1].Put? then [ops[|ops| - 1].item] else []
  }

  /** First in, first out: with sends to the back only, what has been received and what is left, one after the other,
      are the items that were there and those sent, in that order. */
  lemma {:induction false} FirstInFirstOut<T>(contents: seq<T>, ops: seq<Op<T>>)
    requires forall k :: 0 <= k < |ops| ==> !ops[k].Urgent?
    ensures var (left, taken) := Served(contents, ops); taken + left == contents + PutItems(ops)
    decreases |ops|
  {
    if ops != [] {
      FirstInFirstOut(contents, ops[..|ops| - 1]);
      var (before, taken) := Served(contents, ops[..|ops| - 1]);
      var op := ops[|ops| - 1];
      if op.Put? {
        assert taken + (before + [op.item]) == (taken + before) + [op.item];
      } else if before != [] {
        assert (taken + [before[0]]) + before[1..] == taken + before;
      }
    }
  }

  /** An item sent to the front is the next received, before everything that was there, and so what was there is
      left. */
  lemma UrgentIsNext<T>(contents: seq<T>, ops: seq<Op<T>>, item: T)
    ensures var (left, taken) := Served(contents, ops);
      Served(contents, ops + [Urgent(item), Take]) == (left, taken + [item])
  {
    var more := ops + [Urgent(item), Take];
    assert more[..|more| - 1] == ops + [Urgent(item)];
    assert (ops + [Urgent(item)])[..|ops|] == ops;
  }

  /** Of items overwriting each other in a queue of one only the last is left, and it is. */
  lemma LatestIsLeft<T>(contents: seq<T>, item: T)
    ensures Placed(contents, item, Overwrite) == Placed([], item, Back)
    ensures |Placed(contents, item, Overwrite)| == 1
  {
  }
}
