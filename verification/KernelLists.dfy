/** The circular doubly linked list of list.c and list.h.  Every operation on the pointers is proved
    to be the operation of the same name on the list value that the pointers stand for. */
module KernelLists {
  import opened Ticks
  import opened ListValues

  /** ListItem_t, and MiniListItem_t for the end marker. */
  class Item {
    var itemValue: Tick
    var next: Item?
    var previous: Item?
    var owner: nat
    var container: KernelList?

    /** vListInitialiseItem */
    constructor (owner: nat, value: Tick)
      ensures container == null && this.owner == owner && itemValue == value
    {
      this.owner, itemValue := owner, value;
      container, next, previous := null, null, null;
    }
  }

  /** The pointer writes of vListInsert: x goes behind walker. */
  method LinkBehind(walker: Item, x: Item)
    requires walker.next != null && x != walker && x != walker.next
    modifies x`next, x`previous, walker`next, walker.next`previous
    ensures walker.next == x && x.previous == walker
    ensures x.next == old(walker.next) && x.next.previous == x
  {
    x.next := walker.next;
    x.next.previous := x;
    x.previous := walker;
    walker.next := x;
  }

  /** The pointer writes of vListInsertEnd: x goes in front of index. */
  method LinkBefore(index: Item, x: Item)
    requires index.previous != null && x != index && x != index.previous
    modifies x`next, x`previous, index`previous, index.previous`next
    ensures index.previous == x && x.next == index
    ensures x.previous == old(index.previous) && x.previous.next == x
  {
    x.next := index;
    x.previous := index.previous;
    index.previous.next := x;
    index.previous := x;
  }

  /** The pointer writes of uxListRemove. */
  method Unlink(x: Item)
    requires x.next != null && x.previous != null && x.next != x && x.previous != x
    modifies x.next`previous, x.previous`next
    ensures x.next.previous == x.previous && x.previous.next == x.next
  {
    x.next.previous := x.previous;
    x.previous.next := x.next;
  }

  /** Once round the pointers, from the end marker back to it. */
  ghost function Path(end: Item, items: seq<Item>): seq<Item> {
    [end] + items + [end]
  }

  /** No two steps of the path leave from, or arrive at, the same place. */
  lemma PathDistinct(end: Item, items: seq<Item>, i: nat, j: nat)
    requires Distinct(items) && end !in items && i <= |items| && j <= |items| && i != j
    ensures Path(end, items)[i] != Path(end, items)[j] && Path(end, items)[i + 1] != Path(end, items)[j + 1]
  {
  }

  /** next leads along the path, previous leads back, and every item between the two end
      markers names the list as its container. */
  ghost predicate Linked(path: seq<Item>, list: KernelList)
    reads path
  {
    && (forall i {:trigger path[i].next} :: 0 <= i < |path| - 1 ==>
          path[i].next == path[i + 1] && path[i + 1].previous == path[i])
    && (forall i {:trigger path[i].container} :: 0 < i < |path| - 1 ==> path[i].container == list)
  }

  /** The four pointer writes that put x behind position p make the longer path linked. */
  lemma InsertionLinks(end: Item, items: seq<Item>, p: nat, x: Item, list: KernelList)
    requires p <= |items|
    requires var path := Path(end, items);
      && path[p].next == x && x.previous == path[p] && x.next == path[p + 1] && path[p + 1].previous == x
      && x.container == list
      && (forall i {:trigger path[i].next} :: 0 <= i < |path| - 1 && i != p ==>
            path[i].next == path[i + 1] && path[i + 1].previous == path[i])
      && (forall i {:trigger path[i].container} :: 0 < i < |path| - 1 ==> path[i].container == list)
    ensures Linked(Path(end, items[..p] + [x] + items[p..]), list)
  {
    var path, s := Path(end, items), Path(end, items[..p] + [x] + items[p..]);
    assert s == path[..p + 1] + [x] + path[p + 1..];
    forall i | 0 <= i < |s| - 1
      ensures s[i].next == s[i + 1] && s[i + 1].previous == s[i] && (i > 0 ==> s[i].container == list)
    {
      if i <= p {
        assert i < p ==> path[i].next == path[i + 1];
        assert s[i].container == path[i].container;
      } else if i > p + 1 {
        assert path[i - 1].next == path[i];
        assert s[i].container == path[i - 1].container;
      }
    }
  }

  /** With x behind position p of the path the value is valid, and index points where it did. */
  lemma InsertedView(end: Item, v: ListView<Item>, p: nat, x: Item)
    requires v.Valid() && p <= |v.items| && end !in v.items && x !in v.items && x != end
    ensures var w := v.InsertAt(p, x);
      && w.Valid() && end !in w.items && |w.items| == |v.items| + 1
      && Path(end, w.items)[w.cursor] == Path(end, v.items)[v.cursor]
  {
    InsertDistinct(v.items, p, x);
  }

  /** Without items[p] the value is valid; index points where it did, or back if that was items[p]. */
  lemma RemovedView(end: Item, v: ListView<Item>, p: nat)
    requires v.Valid() && p < |v.items| && end !in v.items
    ensures var path, c := Path(end, v.items), v.cursor;
      var w := ListView(v.items[..p] + v.items[p + 1..], if c > p then c - 1 else c);
      && w.Valid() && end !in w.items && |w.items| == |v.items| - 1
      && Path(end, w.items)[w.cursor] == (if path[c] == v.items[p] then path[p] else path[c])
  {
    RemoveDistinct(v.items, p);
  }

  /** The pointers lead round the path but past position p + 1. */
  ghost predicate LeadsPast(path: seq<Item>, p: nat)
    reads path`next, path`previous
  {
    && p + 2 < |path| && path[p].next == path[p + 2] && path[p + 2].previous == path[p]
    && (forall i {:trigger path[i].next} :: 0 <= i < |path| - 1 && i != p && i != p + 1 ==>
          path[i].next == path[i + 1] && path[i + 1].previous == path[i])
  }

  /** The two pointer writes that bypass items[p] make the shorter path linked. */
  lemma RemovalLinks(end: Item, items: seq<Item>, p: nat, list: KernelList)
    requires p < |items| && LeadsPast(Path(end, items), p)
    requires forall i :: 0 <= i < |items| && i != p ==> items[i].container == list
    ensures Linked(Path(end, items[..p] + items[p + 1..]), list)
  {
    var path, s := Path(end, items), Path(end, items[..p] + items[p + 1..]);
    assert s == path[..p + 1] + path[p + 2..];
    forall i | 0 <= i < |s| - 1
      ensures s[i].next == s[i + 1] && s[i + 1].previous == s[i] && (i > 0 ==> s[i].container == list)
    {
      if i <= p {
        assert i < p ==> path[i].next == path[i + 1];
        assert i > 0 ==> s[i] == items[i - 1];
      } else {
        assert path[i + 1].next == path[i + 2];
        assert s[i] == items[i];
      }
    }
  }

  lemma OthersContained(end: Item, v: ListView<Item>, p: nat, list: KernelList)
    requires v.Valid() && p < |v.items| && Linked(Path(end, v.items), list)
    ensures forall i :: 0 <= i < |v.items| && i != p ==> v.items[i] != v.items[p] && v.items[i].container == list
  {
    var path := Path(end, v.items);
    forall i | 0 <= i < |v.items| ensures v.items[i].container == list {
      assert path[i + 1].container == list;
    }
  }

  /** List_t */
  class KernelList {
    const end: Item
    var index: Item
    var numberOfItems: nat
    /** The list value these pointers represent. */
    ghost var view: ListView<Item>

    ghost predicate Valid()
      reads this, end, view.items
    {
      && numberOfItems == |view.items|
      && view.Valid()
      && index == Path(end, view.items)[view.cursor]
      && end.itemValue == MAX_DELAY
      && end !in view.items
      && Linked(Path(end, view.items), this)
    }

    ghost function Values(): seq<Tick>
      reads this, view.items
    {
      seq(|view.items|, i requires 0 <= i < |view.items| reads this, view.items => view.items[i].itemValue)
    }

    /** vListInitialise */
    constructor ()
      ensures Valid() && view == EmptyList() && fresh(end)
    {
      var e := new Item(0, MAX_DELAY);
      end, index, numberOfItems, view := e, e, 0, EmptyList();
      new;
      e.next, e.previous := e, e;
    }

    /** vListInsertEnd */
    method InsertEnd(x: Item)
      requires Valid() && x != end && x !in view.items && x.container == null
      modifies this, end`next, end`previous, view.items`next, view.items`previous, x`next, x`previous, x`container
      ensures Valid() && view == old(view).InsertEnd(x) && index == old(index)
    {
      hide ListView.InsertEnd, Distinct;
      ghost var path, items := Path(end, view.items), view.items;
      ghost var p := if view.cursor == 0 then |view.items| else view.cursor - 1;
      InsertEndPosition(view, x);
      InsertedView(end, view, p, x);
      assert path[p + 1] == index && path[p].next == path[p + 1];
      LinkBefore(index, x);
      x.container := this;
      numberOfItems := numberOfItems + 1;
      view := view.InsertAt(p, x);
      forall i | 0 <= i < |path| - 1 && i != p
        ensures path[i].next == path[i + 1] && path[i + 1].previous == path[i]
      {
        PathDistinct(end, items, i, p);
        assert old(path[i].next) == path[i + 1];
      }
      InsertionLinks(end, items, p, x, this);
    }

    /** The item behind which vListInsert links a new item of value v. */
    method InsertionPoint(v: Tick) returns (walker: Item, ghost p: nat)
      requires Valid()
      ensures p == StepOver(Values(), v) && walker == Path(end, view.items)[p]
    {
      ghost var path := Path(end, view.items);
      if v == MAX_DELAY {
        p := |view.items|;
        assert path[p].next == end;
        walker := end.previous;
      } else {
        walker, p := end, 0;
        assert path[p].next == path[p + 1];
        while walker.next.itemValue <= v
          invariant p <= |view.items| && walker == path[p] && path[p].next == path[p + 1]
          invariant forall i :: 0 <= i < p ==> Values()[i] <= v
          decreases |view.items| - p
        {
          walker, p := walker.next, p + 1;
        }
      }
      StepOverUnique(Values(), v, p);
    }

    /** vListInsert, once the place behind walker is found. */
    method InsertBehind(walker: Item, ghost p: nat, x: Item)
      requires Valid() && x != end && x !in view.items
      requires p <= |view.items| && walker == Path(end, view.items)[p]
      modifies this, end`next, end`previous, view.items`next, view.items`previous, x`next, x`previous, x`container
      ensures Valid() && view == old(view).InsertAt(p, x) && index == old(index)
    {
      hide Distinct;
      ghost var path, items := Path(end, view.items), view.items;
      InsertedView(end, view, p, x);
      assert path[p].next == path[p + 1];
      LinkBehind(walker, x);
      x.container := this;
      numberOfItems := numberOfItems + 1;
      view := view.InsertAt(p, x);
      forall i | 0 <= i < |path| - 1 && i != p
        ensures path[i].next == path[i + 1] && path[i + 1].previous == path[i]
      {
        PathDistinct(end, items, i, p);
        assert old(path[i].next) == path[i + 1];
      }
      InsertionLinks(end, items, p, x, this);
    }

    /** vListInsert */
    method Insert(x: Item)
      requires Valid() && x != end && x !in view.items && x.container == null
      modifies this, end`next, end`previous, view.items`next, view.items`previous, x`next, x`previous, x`container
      ensures Valid() && view == old(view).Insert(x, old(x.itemValue), old(Values())) && index == old(index)
    {
      var walker, p := InsertionPoint(x.itemValue);
      InsertBehind(walker, p, x);
    }

    /** The pointers lead past the item; nothing else changes. */
    method LeadPast(x: Item, ghost p: nat)
      requires Valid() && p < |view.items| && view.items[p] == x
      modifies end`next, end`previous, view.items`next, view.items`previous
      ensures LeadsPast(Path(end, view.items), p) && x.previous == Path(end, view.items)[p]
    {
      hide Distinct;
      ghost var path, items := Path(end, view.items), view.items;
      assert path[p + 1] == x && path[p].next == path[p + 1] && path[p + 1].next == path[p + 2];
      PathDistinct(end, items, p, p + 1);
      Unlink(x);
      forall i | 0 <= i < |path| - 1 && i != p && i != p + 1
        ensures path[i].next == path[i + 1] && path[i + 1].previous == path[i]
      {
        PathDistinct(end, items, i, p);
        PathDistinct(end, items, i, p + 1);
        assert old(path[i].next) == path[i + 1];
      }
    }

    /** uxListRemove, on the list that the item names as its container. */
    method Bypass(x: Item, ghost p: nat)
      requires Valid() && p < |view.items| && view.items[p] == x
      modifies this, end`next, end`previous, view.items`next, view.items`previous, x`container
      ensures Valid() && x.container == null
      ensures view.items == old(view.items[..p] + view.items[p + 1..])
      ensures view.cursor == if old(view.cursor) > p then old(view.cursor) - 1 else old(view.cursor)
    {
      hide Distinct, LeadsPast, Linked, ListView.Valid;
      ghost var items, c := view.items, view.cursor;
      RemovedView(end, view, p);
      OthersContained(end, view, p, this);
      LeadPast(x, p);
      if index == x {
        index := x.previous;
      }
      x.container := null;
      numberOfItems := numberOfItems - 1;
      view := ListView(items[..p] + items[p + 1..], if c > p then c - 1 else c);
      RemovalLinks(end, items, p, this);
    }

    /** uxListRemove */
    static method Remove(x: Item) returns (remaining: nat)
      requires x.container != null && x.container.Valid() && x in x.container.view.items
      modifies x.container, x.container.end`next, x.container.end`previous
      modifies x.container.view.items`next, x.container.view.items`previous, x`container
      ensures var l: KernelList := old(x.container);
              && l.Valid() && l.view == old(l.view).Remove(x)
              && x.container == null && remaining == |l.view.items|
    {
      var list := x.container;
      list.Bypass(x, IndexOf(list.view.items, x));
      remaining := list.numberOfItems;
    }

    /** listGET_OWNER_OF_NEXT_ENTRY */
    method OwnerOfNextEntry() returns (owner: nat)
      requires Valid() && view.items != []
      modifies this
      ensures Valid() && view == old(view).Advance()
      ensures owner == old(view).NextItem().owner
    {
      ghost var path := Path(end, view.items);
      assert path[view.cursor].next == path[view.cursor + 1];
      index := index.next;
      if index == end {
        assert path[0].next == path[1];
        index := index.next;
      }
      view := view.Advance();
      owner := index.owner;
    }
  }
}
