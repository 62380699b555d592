/** The other operations of core_list_join.c on linked nodes: taking an item out, putting it back, and
    reversing the list. */
module ListEdits {
  import opened ListSorts

  /** A list of distinct nodes that begins at head and ends in null. */
  ghost predicate Chain(nodes: seq<Node>, head: Node?)
    reads nodes
  {
    && (forall i, j :: 0 <= i < j < |nodes| ==> nodes[i] != nodes[j])
    && (forall i {:trigger nodes[i].next} :: 0 <= i < |nodes| ==> nodes[i].next == After(nodes, i + 1))
    && head == After(nodes, 0)
  }

  /** The node at position i, or null behind the last. */
  ghost function After(nodes: seq<Node>, i: nat): Node? {
    if i < |nodes| then nodes[i] else null
  }

  ghost function Infos(nodes: seq<Node>): (r: seq<Data>)
    reads nodes
    ensures |r| == |nodes| && forall i :: 0 <= i < |r| ==> r[i] == nodes[i].info
  {
    seq(|nodes|, i requires 0 <= i < |nodes| reads nodes => nodes[i].info)
  }

  ghost function Drop<T>(s: seq<T>, k: nat): seq<T>
    requires k < |s|
  {
    s[..k] + s[k + 1..]
  }

  ghost function Insert<T>(s: seq<T>, k: nat, x: T): seq<T>
    requires k <= |s|
  {
    s[..k] + [x] + s[k..]
  }

  lemma InsertDropped<T>(s: seq<T>, k: nat)
    requires k < |s|
    ensures Insert(Drop(s, k), k, s[k]) == s
  {
  }

  lemma DropAt<T>(s: seq<T>, k: nat, i: nat)
    requires k < |s| && i < |s| - 1
    ensures |Drop(s, k)| == |s| - 1 && Drop(s, k)[i] == s[if i < k then i else i + 1]
  {
  }

  lemma InsertAt<T>(s: seq<T>, k: nat, x: T, i: nat)
    requires k <= |s| && i <= |s|
    ensures |Insert(s, k, x)| == |s| + 1 && Insert(s, k, x)[i] == if i < k then s[i] else if i == k then x else s[i - 1]
  {
  }

  /** The links and cells after the node behind position k is bypassed. */
  lemma Bypassed(nodes: seq<Node>, k: nat, head: Node?, was: seq<Data>)
    requires k + 1 < |nodes| == |was| && forall i, j :: 0 <= i < j < |nodes| ==> nodes[i] != nodes[j]
    requires forall i {:trigger nodes[i].next} :: 0 <= i < |nodes| && i != k && i != k + 1 ==>
               nodes[i].next == After(nodes, i + 1) && nodes[i].info == was[i]
    requires nodes[k].next == After(nodes, k + 2) && nodes[k].info == was[k + 1] && head == nodes[0]
    ensures Chain(Drop(nodes, k + 1), head) && Infos(Drop(nodes, k + 1)) == Drop(was, k)
    ensures nodes[k + 1] !in Drop(nodes, k + 1)
  {
    ghost var rest := Drop(nodes, k + 1);
    forall i | 0 <= i < |rest|
      ensures rest[i] == nodes[if i <= k then i else i + 1] && Drop(was, k)[i] == was[if i < k then i else i + 1]
    {
      DropAt(nodes, k + 1, i);
      DropAt(was, k, i);
    }
    hide Drop;
    forall i | 0 <= i < |rest| ensures rest[i].next == After(rest, i + 1) && rest[i].info == Drop(was, k)[i] {
    }
  }

  /** The links and cells after x is linked in behind position k. */
  lemma LinkedIn(nodes: seq<Node>, k: nat, x: Node, head: Node?, was: seq<Data>, info: Data)
    requires k < |nodes| == |was| && x !in nodes && forall i, j :: 0 <= i < j < |nodes| ==> nodes[i] != nodes[j]
    requires forall i {:trigger nodes[i].next} :: 0 <= i < |nodes| && i != k ==>
               nodes[i].next == After(nodes, i + 1) && nodes[i].info == was[i]
    requires nodes[k].next == x && x.next == After(nodes, k + 1) && head == nodes[0]
    requires nodes[k].info == info && x.info == was[k]
    ensures Chain(Insert(nodes, k + 1, x), head) && Infos(Insert(nodes, k + 1, x)) == Insert(was, k, info)
  {
    ghost var more, data := Insert(nodes, k + 1, x), Insert(was, k, info);
    InsertAt(nodes, k + 1, x, 0);
    InsertAt(was, k, info, 0);
    InsertDistinct(nodes, k + 1, x);
    hide Insert;
    forall i | 0 <= i < |more| ensures more[i].next == After(more, i + 1) && more[i].info == data[i] {
      InsertAt(nodes, k + 1, x, i);
      InsertAt(was, k, info, i);
      if i < |nodes| {
        InsertAt(nodes, k + 1, x, i + 1);
      }
    }
  }

  lemma InsertDistinct(nodes: seq<Node>, k: nat, x: Node)
    requires k <= |nodes| && x !in nodes && forall i, j :: 0 <= i < j < |nodes| ==> nodes[i] != nodes[j]
    ensures var more := Insert(nodes, k, x); forall i, j :: 0 <= i < j < |more| ==> more[i] != more[j]
  {
  }

  /** core_list_remove: the item goes, though it is the node of its successor that leaves the list. */
  method Remove(item: Node, head: Node?, ghost nodes: seq<Node>, ghost k: nat) returns (removed: Node)
    requires Chain(nodes, head) && k + 1 < |nodes| && item == nodes[k]
    modifies item, item.next
    ensures removed == nodes[k + 1] && removed.next == null && removed.info == old(item.info)
    ensures Chain(Drop(nodes, k + 1), head)
    ensures Infos(Drop(nodes, k + 1)) == Drop(old(Infos(nodes)), k)
    ensures removed !in Drop(nodes, k + 1)
  {
    hide Drop;
    assert nodes[k].next == nodes[k + 1] && nodes[k + 1].next == After(nodes, k + 2);
    removed := item.next;
    var info := item.info;
    item.info := removed.info;
    removed.info := info;
    item.next := item.next.next;
    removed.next := null;
    Bypassed(nodes, k, head, old(Infos(nodes)));
  }

  /** core_list_undo_remove */
  method UndoRemove(removed: Node, modified: Node, head: Node?, ghost nodes: seq<Node>, ghost k: nat)
    requires Chain(nodes, head) && k < |nodes| && modified == nodes[k] && removed !in nodes
    modifies removed, modified
    ensures Chain(Insert(nodes, k + 1, removed), head)
    ensures Infos(Insert(nodes, k + 1, removed)) == Insert(old(Infos(nodes)), k, old(removed.info))
  {
    hide Insert;
    assert nodes[k].next == After(nodes, k + 1);
    var info := removed.info;
    removed.info := modified.info;
    modified.info := info;
    removed.next := modified.next;
    modified.next := removed;
    LinkedIn(nodes, k, removed, head, old(Infos(nodes)), info);
  }

  /** What an iteration of the benchmark does with an item: it takes it out, and after only reading the list
      puts it back.  Every link and every cell is then as it was. */
  method RemoveAndUndo(item: Node, head: Node?, ghost nodes: seq<Node>, ghost k: nat)
    requires Chain(nodes, head) && k + 1 < |nodes| && item == nodes[k]
    modifies item, item.next
    ensures Chain(nodes, head) && Infos(nodes) == old(Infos(nodes))
  {
    var removed := Remove(item, head, nodes, k);
    UndoRemove(removed, item, head, Drop(nodes, k + 1), k);
    InsertDropped(nodes, k + 1);
    InsertDropped(old(Infos(nodes)), k);
  }

  ghost function Reversed(nodes: seq<Node>): (r: seq<Node>)
    ensures |r| == |nodes| && forall i :: 0 <= i < |r| ==> r[i] == nodes[|nodes| - 1 - i]
  {
    seq(|nodes|, i requires 0 <= i < |nodes| => nodes[|nodes| - 1 - i])
  }

  /** core_list_reverse */
  method Reverse(list0: Node?, ghost nodes: seq<Node>) returns (next: Node?)
    requires Chain(nodes, list0)
    modifies nodes`next
    ensures Chain(Reversed(nodes), next)
  {
    next := null;
    var list := list0;
    ghost var k := 0;
    while list != null
      invariant k <= |nodes| && list == After(nodes, k) && next == if k == 0 then null else nodes[k - 1]
      invariant forall i {:trigger nodes[i].next} :: k <= i < |nodes| ==> nodes[i].next == After(nodes, i + 1)
      invariant forall i {:trigger nodes[i].next} :: 0 <= i < k ==>
        nodes[i].next == if i == 0 then null else nodes[i - 1]
      decreases |nodes| - k
    {
      var tmp := list.next;
      list.next := next;
      next := list;
      list := tmp;
      k := k + 1;
    }
    ghost var r := Reversed(nodes);
    forall i | 0 <= i < |r| ensures r[i].next == After(r, i + 1) {
      assert r[i] == nodes[|nodes| - 1 - i];
    }
  }
}
