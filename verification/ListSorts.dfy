/** core_list_mergesort on linked nodes, relinked in place. */
module ListSorts {
  import opened MergeSorts

  /** list_data */
  datatype Data = Data(data16: bv16, idx: int)

  /** What cmp_idx does to a cell when no results structure is passed: the low byte is set from the high. */
  function Restored(d: Data): Data {
    d.(data16 := (d.data16 & 0xff00) | (0x00ff & (d.data16 >> 8)))
  }

  /** Restoring copies the high byte to the low byte and leaves everything else. */
  lemma RestoredIs(d: Data)
    ensures Restored(d).data16 & 0xff == d.data16 >> 8 == Restored(d).data16 >> 8
    ensures Restored(d).idx == d.idx
  {
  }

  /** Restoring twice is restoring once. */
  lemma RestoredTwice(d: Data)
    ensures Restored(Restored(d)) == Restored(d)
  {
  }

  /** list_head; the cell that info points to is held by value. */
  class Node {
    var next: Node?
    var info: Data

    constructor (info: Data)
      ensures next == null && this.info == info
    {
      next := null;
      this.info := info;
    }
  }

  /** cmp(a, b) <= 0 */
  type Comparator = (Data, Data) -> bool

  ghost predicate IsPreorder(cmp: Comparator) {
    && (forall a, b :: cmp(a, b) || cmp(b, a))
    && (forall a, b, c :: cmp(a, b) && cmp(b, c) ==> cmp(a, c))
  }

  /** The outcome of the comparison does not depend on what restoring changes. */
  ghost predicate Unaffected(cmp: Comparator) {
    forall a, b :: cmp(Restored(a), b) == cmp(a, b) == cmp(a, Restored(b))
  }

  /** cmp_idx */
  function ByIdx(): Comparator {
    (a: Data, b: Data) => a.idx - b.idx <= 0
  }

  lemma ByIdxFits()
    ensures IsPreorder(ByIdx()) && Unaffected(ByIdx())
  {
  }

  /** By index means ascending. */
  lemma ByIdxAscends(infos: seq<Data>, s: seq<nat>)
    requires infos != [] && InRange(s, |infos|) && InOrder(Induced(ByIdx(), infos), s)
    ensures forall i, j :: 0 <= i < j < |s| ==> infos[s[i]].idx <= infos[s[j]].idx
  {
    forall i, j | 0 <= i < j < |s| ensures infos[s[i]].idx <= infos[s[j]].idx {
      assert Before(Induced(ByIdx(), infos), s[i], s[j]);
      InducedUnaffected(ByIdx(), infos, s[i], s[j]);
    }
  }

  function Cell(infos: seq<Data>, i: nat): Data
    requires infos != []
  {
    if i < |infos| then infos[i] else infos[0]
  }

  /** The order of positions that the comparator induces on the original list. */
  function Induced(cmp: Comparator, infos: seq<Data>): Order
    requires infos != []
  {
    (a: nat, b: nat) => cmp(Cell(infos, a), Cell(infos, b))
  }

  lemma InducedIsPreorder(cmp: Comparator, infos: seq<Data>)
    requires infos != [] && IsPreorder(cmp)
    ensures TotalPreorder(Induced(cmp, infos))
  {
    var le := Induced(cmp, infos);
    forall a: nat, b: nat ensures le(a, b) || le(b, a) {
      assert cmp(Cell(infos, a), Cell(infos, b)) || cmp(Cell(infos, b), Cell(infos, a));
    }
    forall a: nat, b: nat, c: nat | le(a, b) && le(b, c) ensures le(a, c) {
      assert cmp(Cell(infos, a), Cell(infos, b)) && cmp(Cell(infos, b), Cell(infos, c));
    }
  }

  /** Comparing restored cells is comparing the cells. */
  lemma InducedUnaffected(cmp: Comparator, infos: seq<Data>, i: nat, j: nat)
    requires i < |infos| && j < |infos|
    ensures Induced(cmp, infos)(i, j) == cmp(infos[i], infos[j])
    ensures Unaffected(cmp) ==> cmp(Restored(infos[i]), Restored(infos[j])) == cmp(infos[i], infos[j])
  {
    var le := Induced(cmp, infos);
    assert le(i, j) == cmp(Cell(infos, i), Cell(infos, j));
    if Unaffected(cmp) {
      assert cmp(Restored(infos[i]), Restored(infos[j])) == cmp(infos[i], Restored(infos[j]));
    }
  }

  // ----- chains of nodes -----

  ghost predicate Distinct(all: seq<Node>) {
    forall i, j :: 0 <= i < j < |all| ==> all[i] != all[j]
  }

  ghost predicate InRange(s: seq<nat>, n: nat) {
    forall i :: 0 <= i < |s| ==> s[i] < n
  }

  ghost predicate NoDuplicates(s: seq<nat>) {
    forall i, j :: 0 <= i < j < |s| ==> s[i] != s[j]
  }

  /** The nodes at the given positions are linked one to the next; the last link is left open. */
  ghost predicate Linked(all: seq<Node>, s: seq<nat>)
    requires InRange(s, |all|)
    reads all`next
  {
    forall i {:trigger all[s[i]].next} :: 0 <= i < |s| - 1 ==> all[s[i]].next == all[s[i + 1]]
  }

  /** A list that ends. */
  ghost predicate IsList(all: seq<Node>, s: seq<nat>, head: Node?)
    requires InRange(s, |all|)
    reads all`next
  {
    && Linked(all, s)
    && head == (if s == [] then null else all[s[0]])
    && (s != [] ==> all[s[|s| - 1]].next == null)
  }

  /** Each cell is as it was, or restored if it has been compared. */
  ghost predicate Cells(all: seq<Node>, infos: seq<Data>, seen: set<nat>, restore: bool)
    requires |infos| == |all|
    reads all`info
  {
    forall i :: 0 <= i < |all| ==> all[i].info == if restore && i in seen then Restored(infos[i]) else infos[i]
  }

  ghost predicate Apart(a: seq<nat>, b: seq<nat>) {
    forall i, j :: 0 <= i < |a| && 0 <= j < |b| ==> a[i] != b[j]
  }

  /** The three stretches of a list in the middle of a merge: merged, left run, and from the right run on. */
  ghost predicate Split(done: seq<nat>, left: seq<nat>, right: seq<nat>, n: nat) {
    && InRange(done, n) && InRange(left, n) && InRange(right, n)
    && NoDuplicates(done) && NoDuplicates(left) && NoDuplicates(right)
    && Apart(done, left) && Apart(done, right) && Apart(left, right)
  }

  lemma TakeLeft(done: seq<nat>, left: seq<nat>, right: seq<nat>, n: nat)
    requires Split(done, left, right, n) && left != []
    ensures Split(done + [left[0]], left[1..], right, n)
  {
  }

  lemma TakeRight(done: seq<nat>, left: seq<nat>, right: seq<nat>, n: nat)
    requires Split(done, left, right, n) && right != []
    ensures Split(done + [right[0]], left, right[1..], n)
  {
  }

  /** list and tail delimit what is merged. */
  ghost predicate Merged(all: seq<Node>, done: seq<nat>, list: Node?, tail: Node?)
    requires InRange(done, |all|)
    reads all`next
  {
    && Linked(all, done)
    && list == (if done == [] then null else all[done[0]])
    && tail == (if done == [] then null else all[done[|done| - 1]])
  }

  class Sorter {
    const all: seq<Node>
    const infos: seq<Data>
    const cmp: Comparator
    const restore: bool
    ghost var seen: set<nat>

    constructor (all: seq<Node>, infos: seq<Data>, cmp: Comparator, restore: bool)
      requires |infos| == |all| > 0
      ensures this.all == all && this.infos == infos && this.cmp == cmp && this.restore == restore && seen == {}
    {
      this.all, this.infos, this.cmp, this.restore := all, infos, cmp, restore;
      seen := {};
    }

    /** The comparison, with its side effect on the cells. */
    method Compare(p: Node, q: Node, ghost i: nat, ghost j: nat) returns (lessOrSame: bool)
      requires i < |all| && j < |all| && p == all[i] && q == all[j] && i != j && Distinct(all)
      requires |infos| == |all| > 0 && Cells(all, infos, seen, restore) && (restore ==> Unaffected(cmp))
      modifies p`info, q`info, `seen
      ensures seen == old(seen) + {i, j} && Cells(all, infos, seen, restore)
      ensures lessOrSame == Induced(cmp, infos)(i, j)
    {
      if restore {
        RestoredTwice(infos[i]);
        RestoredTwice(infos[j]);
        p.info := Restored(p.info);
        q.info := Restored(q.info);
      }
      InducedUnaffected(cmp, infos, i, j);
      lessOrSame := cmp(p.info, q.info);
      seen := seen + {i, j};
    }

    /** One round of the innermost loop: the next node of the merge is appended to what is merged. */
    method Append(e: Node, list: Node?, tail: Node?, ghost done: seq<nat>, ghost k: nat, ghost left: seq<nat>,
                  ghost right: seq<nat>)
      returns (list': Node?, tail': Node?)
      requires Distinct(all) && Split(done, left, right, |all|) && k < |all| && e == all[k]
      requires (left != [] && k == left[0]) || (right != [] && k == right[0])
      requires Merged(all, done, list, tail) && Linked(all, left) && Linked(all, right)
      requires right != [] ==> all[right[|right| - 1]].next == null
      modifies (if tail == null then {} else {tail})`next
      ensures Merged(all, done + [k], list', tail') && Linked(all, left) && Linked(all, right)
      ensures right != [] ==> all[right[|right| - 1]].next == null
    {
      list', tail' := list, e;
      if tail != null {
        tail.next := e;
      } else {
        list' := e;
      }
    }

    function Le(): Order
      requires infos != []
    {
      Induced(cmp, infos)
    }

    /** The list in the middle of a merge: merged up to tail, a run at p, and the rest from q on. */
    ghost predicate Middle(done: seq<nat>, left: seq<nat>, right: seq<nat>,
                           list: Node?, tail: Node?, p: Node?, q: Node?)
      reads all`next
    {
      && InRange(done, |all|) && InRange(left, |all|) && InRange(right, |all|)
      && Distinct(all) && Split(done, left, right, |all|)
      && Merged(all, done, list, tail) && Linked(all, left) && IsList(all, right, q)
      && (left != [] ==> p == all[left[0]])
    }

    method TakeFromP(list: Node?, tail: Node?, p: Node, q: Node?,
                     ghost done: seq<nat>, ghost left: seq<nat>, ghost right: seq<nat>)
      returns (list': Node?, tail': Node?, p': Node?)
      requires Middle(done, left, right, list, tail, p, q) && left != []
      modifies (if tail == null then {} else {tail})`next
      ensures Middle(done + [left[0]], left[1..], right, list', tail', p', q)
    {
      p' := p.next;
      list', tail' := Append(p, list, tail, done, left[0], left, right);
      TakeLeft(done, left, right, |all|);
    }

    method TakeFromQ(list: Node?, tail: Node?, p: Node?, q: Node,
                     ghost done: seq<nat>, ghost left: seq<nat>, ghost right: seq<nat>)
      returns (list': Node?, tail': Node?, q': Node?)
      requires Middle(done, left, right, list, tail, p, q) && right != []
      modifies (if tail == null then {} else {tail})`next
      ensures Middle(done + [right[0]], left, right[1..], list', tail', p, q')
    {
      q' := q.next;
      list', tail' := Append(q, list, tail, done, right[0], left, right);
      TakeRight(done, left, right, |all|);
    }

    ghost predicate Ready()
      reads this, all`info
    {
      && |infos| == |all| > 0 && Cells(all, infos, seen, restore) && (restore ==> Unaffected(cmp))
    }

    /** The innermost loop: a run of psize nodes at p and one of at most qsize nodes at q are merged behind
        tail. */
    method MergeTwo(p0: Node?, psize0: nat, q0: Node?, qsize0: nat, list0: Node?, tail0: Node?,
                    ghost done0: seq<nat>, ghost left0: seq<nat>, ghost right0: seq<nat>)
      returns (list: Node?, tail: Node?, q: Node?, ghost done: seq<nat>, ghost right: seq<nat>)
      requires Ready() && Middle(done0, left0, right0, list0, tail0, p0, q0) && psize0 == |left0|
      modifies all, `seen
      ensures var m := Min(qsize0, |right0|);
        && done == done0 + Merge(Le(), left0, right0[..m]) && right == right0[m..]
        && seen == old(seen) + MergeLooks(Le(), left0, right0[..m])
      ensures Ready() && Middle(done, [], right, list, tail, null, q)
    {
      hide Merge, MergeLooks, Cells, Induced, Distinct, Unaffected, Split, Merged, Linked, IsList, InRange, Middle,
           Progress;
      var p, psize, qsize := p0, psize0, qsize0;
      ProgressStart(Le(), done0, left0, right0, qsize0, seen);
      ghost var left := left0;
      list, tail, q, done, right := list0, tail0, q0, done0, right0;
      MiddleHeads(done, left, right, list, tail, p, q);
      while psize > 0 || (qsize > 0 && q != null)
        invariant Ready() && Middle(done, left, right, list, tail, p, q) && psize == |left|
        invariant (left != [] ==> p != null) && (q == null <==> right == [])
        invariant Progress(Le(), done, left, right, qsize, seen, done0, left0, right0, qsize0, old(seen))
        decreases |left| + Min(qsize, |right|)
      {
        MiddleHeads(done, left, right, list, tail, p, q);
        var fromP: bool;
        ghost var looked := seen;
        if psize == 0 {
          fromP := false;
        } else if qsize == 0 || q == null {
          fromP := true;
        } else {
          fromP := Compare(p, q, left[0], right[0]);
        }
        ProgressOne(Le(), done, left, right, qsize, looked, done0, left0, right0, qsize0, old(seen), fromP);
        if fromP {
          list, tail, p := TakeFromP(list, tail, p, q, done, left, right);
          psize := psize - 1;
          done, left := done + [left[0]], left[1..];
        } else {
          list, tail, q := TakeFromQ(list, tail, p, q, done, left, right);
          qsize := qsize - 1;
          done, right := done + [right[0]], right[1..];
        }
        MiddleHeads(done, left, right, list, tail, p, q);
      }
      MiddleHeads(done, left, right, list, tail, p, q);
      assert left == [];
      ProgressDone(Le(), done, right, qsize, seen, done0, left0, right0, qsize0, old(seen));
    }

    /** Stepping along the list by at most size nodes. */
    method StepAlong(p: Node, size: nat, ghost rest: seq<nat>) returns (q: Node?, psize: nat)
      requires size > 0 && InRange(rest, |all|) && rest != [] && IsList(all, rest, p)
      ensures psize == Min(size, |rest|) && q == if psize < |rest| then all[rest[psize]] else null
    {
      q, psize := p, 0;
      while psize < size && q != null
        invariant psize <= size && psize <= |rest|
        invariant q == if psize < |rest| then all[rest[psize]] else null
        decreases size - psize
      {
        psize := psize + 1;
        q := q.next;
      }
    }

    lemma CutRun(done: seq<nat>, rest: seq<nat>, m: nat, list: Node?, tail: Node?, p: Node, q: Node?)
      requires Middle(done, [], rest, list, tail, null, p) && 0 < m <= |rest|
      requires q == if m < |rest| then all[rest[m]] else null
      ensures Middle(done, rest[..m], rest[m..], list, tail, p, q)
    {
      hide Merged;
      assert rest == rest[..m] + rest[m..];
    }

    lemma StartMiddle(order: seq<nat>, p: Node?)
      requires Distinct(all) && InRange(order, |all|) && NoDuplicates(order) && IsList(all, order, p)
      ensures Middle([], [], order, null, null, null, p)
    {
    }

    /** The merged list is closed. */
    method Finish(list: Node?, tail: Node, ghost done: seq<nat>)
      requires Middle(done, [], [], list, tail, null, null)
      modifies tail`next
      ensures InRange(done, |all|) && NoDuplicates(done) && IsList(all, done, list)
    {
      tail.next := null;
    }

    /** One round of a pass: the next two runs are merged. */
    method MergeNext(insize: nat, p: Node, list0: Node?, tail0: Node?, ghost done0: seq<nat>, ghost rest0: seq<nat>)
      returns (list: Node?, tail: Node?, q: Node?, ghost done: seq<nat>, ghost rest: seq<nat>)
      requires Ready() && Middle(done0, [], rest0, list0, tail0, null, p) && insize > 0 && rest0 != []
      modifies all, `seen
      ensures Ready() && Middle(done, [], rest, list, tail, null, q)
      ensures var m, n := Min(insize, |rest0|), Min(2 * insize, |rest0|);
        && done == done0 + Merge(Le(), rest0[..m], rest0[m..n]) && rest == rest0[n..]
        && seen == old(seen) + MergeLooks(Le(), rest0[..m], rest0[m..n])
    {
      hide Merge, MergeLooks, Cells, Induced, Unaffected, Merged, Distinct, Split;
      var r, psize := StepAlong(p, insize, rest0);
      CutRun(done0, rest0, psize, list0, tail0, p, r);
      TwoCuts(rest0, insize);
      hide Middle;
      list, tail, q, done, rest := MergeTwo(p, psize, r, insize, list0, tail0, done0, rest0[..psize], rest0[psize..]);
    }

    /** The loop of one pass. */
    method MergeAll(list0: Node, insize: nat, ghost order: seq<nat>)
      returns (list: Node?, tail: Node?, nmerges: nat, ghost done: seq<nat>)
      requires infos != [] && Ready() && Middle([], [], order, null, null, null, list0) && insize > 0 && order != []
      modifies all, `seen
      ensures Ready() && Middle(done, [], [], list, tail, null, null)
      ensures PassProgress(Le(), done, [], insize, seen, nmerges, order, old(seen))
    {
      hide *;
      ghost var rest := order;
      done := [];
      var p: Node? := list0;
      list, tail, nmerges := null, null, 0;
      PassProgressStart(Le(), order, insize, seen);
      while p != null
        invariant Ready() && Middle(done, [], rest, list, tail, null, p)
        invariant PassProgress(Le(), done, rest, insize, seen, nmerges, order, old(seen))
        decreases |rest|
      {
        MiddleHeads(done, [], rest, list, tail, null, p);
        nmerges := nmerges + 1;
        PassProgressOne(Le(), done, rest, insize, seen, nmerges - 1, order, old(seen));
        CutShortens(rest, insize);
        list, tail, p, done, rest := MergeNext(insize, p, list, tail, done, rest);
      }
      MiddleHeads(done, [], rest, list, tail, null, p);
      assert rest == [];
    }

    /** One pass over the list. */
    method MergePass(list0: Node, insize: nat, ghost order: seq<nat>) returns (list: Node?, nmerges: nat)
      requires Ready() && Distinct(all) && insize > 0 && order != [] && InRange(order, |all|) && NoDuplicates(order)
      requires IsList(all, order, list0)
      modifies all, `seen
      ensures Ready() && InRange(Pass(Le(), order, insize), |all|) && NoDuplicates(Pass(Le(), order, insize))
      ensures IsList(all, Pass(Le(), order, insize), list)
      ensures seen == old(seen) + PassLooks(Le(), order, insize)
      ensures nmerges <= 1 <==> |order| <= 2 * insize
    {
      StartMiddle(order, list0);
      hide *;
      var tail: Node?;
      ghost var done;
      list, tail, nmerges, done := MergeAll(list0, insize, order);
      PassProgressDone(Le(), done, insize, seen, nmerges, order, old(seen));
      MiddleTail(done, list, tail);
      Finish(list, tail, done);
    }

    /** The outer loop of core_list_mergesort: passes over runs of doubling size, which never exceeds the number
        of nodes. */
    method SortLoop(list0: Node) returns (list: Node?)
      requires infos != [] && Ready() && Distinct(all) && seen == {}
      requires IsList(all, Original(|all|), list0)
      modifies all, `seen
      ensures var s := MergeSorts.MergeSort(Le(), |all|);
        InRange(s, |all|) && NoDuplicates(s) && IsList(all, s, list)
      ensures Ready() && seen == SortLooks(Le(), Original(|all|), 1)
    {
      ghost var n, order := |all|, Original(|all|);
      OriginalIs(n);
      SortIsFrom(Le(), n);
      hide *;
      var insize := 1;
      list := list0;
      assert infos != [] && n > 0;
      while true
        invariant 0 < insize <= n && |order| == n && InRange(order, n) && NoDuplicates(order) && list != null
        invariant Ready() && IsList(all, order, list)
        invariant SortFrom(Le(), order, insize) == MergeSorts.MergeSort(Le(), n)
        invariant seen + SortLooks(Le(), order, insize) == SortLooks(Le(), Original(n), 1)
        decreases n - insize
      {
        SortOne(Le(), order, insize);
        var nmerges;
        list, nmerges := MergePass(list, insize, order);
        order := Pass(Le(), order, insize);
        ListHead(order, list);
        if nmerges <= 1 {
          return;
        }
        insize := insize * 2;
      }
    }

    lemma ListHead(order: seq<nat>, list: Node?)
      requires InRange(order, |all|) && IsList(all, order, list) && order != []
      ensures list != null
    {
    }

    /** core_list_mergesort: the nodes that list leads to are relinked in the order in which the comparator
        puts them, equal ones as they came; and if there are two or more, every cell is restored by a
        comparator that restores. */
    method MergeSort(list0: Node) returns (list: Node?)
      requires Ready() && Distinct(all) && seen == {} && IsPreorder(cmp)
      requires IsList(all, Original(|all|), list0)
      modifies all, `seen
      ensures var s := MergeSorts.MergeSort(Le(), |all|);
        InRange(s, |all|) && NoDuplicates(s) && IsList(all, s, list) && InOrder(Le(), s)
      ensures forall i :: 0 <= i < |all| ==>
                all[i].info == if restore && |all| > 1 then Restored(infos[i]) else infos[i]
      ensures cmp == ByIdx() ==>
                var s := MergeSorts.MergeSort(Le(), |all|);
                forall i, j :: 0 <= i < j < |s| ==> all[s[i]].info.idx <= all[s[j]].info.idx
    {
      assert infos != [];
      list := SortLoop(list0);
      SortedAndRestored();
      ghost var s := MergeSorts.MergeSort(Le(), |all|);
      hide Restored, MergeSorts.MergeSort, InOrder, ByIdx, Induced;
      if cmp == ByIdx() {
        ByIdxAscends(infos, s);
        forall i | 0 <= i < |all| ensures all[i].info.idx == infos[i].idx {
          RestoredIs(infos[i]);
        }
      }
    }

    lemma SortedAndRestored()
      requires Ready() && IsPreorder(cmp) && seen == SortLooks(Le(), Original(|all|), 1)
      ensures InOrder(Le(), MergeSorts.MergeSort(Le(), |all|))
      ensures forall i :: 0 <= i < |all| ==>
                all[i].info == if restore && |all| > 1 then Restored(infos[i]) else infos[i]
    {
      InducedIsPreorder(cmp, infos);
      SortsStably(Le(), |all|);
      hide Induced, SortLooks, MergeSorts.MergeSort, TotalPreorder, Original, Unaffected, IsPreorder, InOrder;
      if |all| > 1 {
        forall i | 0 <= i < |all| ensures i in seen {
          EveryNodeIsCompared(Le(), |all|, i);
        }
      } else {
        SingleLooks(Le());
      }
    }

    lemma MiddleTail(done: seq<nat>, list: Node?, tail: Node?)
      requires Middle(done, [], [], list, tail, null, null) && done != []
      ensures tail != null && tail in all
    {
    }

    lemma MiddleHeads(done: seq<nat>, left: seq<nat>, right: seq<nat>, list: Node?, tail: Node?, p: Node?, q: Node?)
      requires Middle(done, left, right, list, tail, p, q)
      ensures Distinct(all) && (q == null <==> right == [])
      ensures left != [] ==> left[0] < |all| && p == all[left[0]]
      ensures right != [] ==> right[0] < |all| && q == all[right[0]]
      ensures left != [] && right != [] ==> left[0] != right[0]
      ensures tail != null ==> tail in all
      ensures left == [] ==> Middle(done, left, right, list, tail, null, q)
    {
    }
  }

  /** What is merged and what is still to be merged make up the whole merge, and likewise for the looks. */
  ghost predicate Progress(le: Order, done: seq<nat>, left: seq<nat>, right: seq<nat>, qsize: nat, seen: set<nat>,
                           done0: seq<nat>, left0: seq<nat>, right0: seq<nat>, qsize0: nat, seen0: set<nat>)
  {
    var m, qs := Min(qsize0, |right0|), Min(qsize, |right|);
    && right[qs..] == right0[m..]
    && done + Merge(le, left, right[..qs]) == done0 + Merge(le, left0, right0[..m])
    && seen + MergeLooks(le, left, right[..qs]) == seen0 + MergeLooks(le, left0, right0[..m])
  }

  lemma ProgressStart(le: Order, done: seq<nat>, left: seq<nat>, right: seq<nat>, qsize: nat, seen: set<nat>)
    ensures Progress(le, done, left, right, qsize, seen, done, left, right, qsize, seen)
  {
  }

  lemma ProgressOne(le: Order, done: seq<nat>, left: seq<nat>, right: seq<nat>, qsize: nat, seen: set<nat>,
                    done0: seq<nat>, left0: seq<nat>, right0: seq<nat>, qsize0: nat, seen0: set<nat>, fromLeft: bool)
    requires Progress(le, done, left, right, qsize, seen, done0, left0, right0, qsize0, seen0)
    requires left != [] || (right != [] && qsize > 0)
    requires fromLeft == (left != [] && (right == [] || qsize == 0 || le(left[0], right[0])))
    ensures var looked := if left != [] && right != [] && qsize > 0 then seen + {left[0], right[0]} else seen;
      if fromLeft
      then Progress(le, done + [left[0]], left[1..], right, qsize, looked, done0, left0, right0, qsize0, seen0)
      else Progress(le, done + [right[0]], left, right[1..], qsize - 1, looked, done0, left0, right0, qsize0, seen0)
  {
    hide Merge, MergeLooks;
    var qs := Min(qsize, |right|);
    MergeOne(le, left, right[..qs], fromLeft);
    if fromLeft {
      assert done + ([left[0]] + Merge(le, left[1..], right[..qs]))
          == (done + [left[0]]) + Merge(le, left[1..], right[..qs]);
    } else {
      assert right[1..][..qs - 1] == right[..qs][1..];
      var rest := Merge(le, left, right[1..][..qs - 1]);
      assert done + ([right[0]] + rest) == (done + [right[0]]) + rest;
    }
  }

  lemma ProgressDone(le: Order, done: seq<nat>, right: seq<nat>, qsize: nat, seen: set<nat>,
                     done0: seq<nat>, left0: seq<nat>, right0: seq<nat>, qsize0: nat, seen0: set<nat>)
    requires Progress(le, done, [], right, qsize, seen, done0, left0, right0, qsize0, seen0)
    requires right == [] || qsize == 0
    ensures var m := Min(qsize0, |right0|);
      && done == done0 + Merge(le, left0, right0[..m]) && right == right0[m..]
      && seen == seen0 + MergeLooks(le, left0, right0[..m])
  {
    MergeDone(le);
  }

  /** What is merged and the pass over the rest make up the whole pass; nmerges counts the rounds so far as
      far as it matters. */
  ghost predicate PassProgress(le: Order, done: seq<nat>, rest: seq<nat>, size: nat, seen: set<nat>, nmerges: nat,
                               order: seq<nat>, seen0: set<nat>)
    requires size > 0
  {
    && done + Pass(le, rest, size) == Pass(le, order, size)
    && seen + PassLooks(le, rest, size) == seen0 + PassLooks(le, order, size)
    && (nmerges == 0 ==> done == [] && rest == order)
    && (nmerges == 1 ==> |done| == Min(2 * size, |order|))
    && (nmerges > 1 ==> |order| > 2 * size)
    && |done| + |rest| == |order|
  }

  lemma PassProgressStart(le: Order, order: seq<nat>, size: nat, seen: set<nat>)
    requires size > 0
    ensures PassProgress(le, [], order, size, seen, 0, order, seen)
  {
  }

  lemma CutShortens(rest: seq<nat>, size: nat)
    requires size > 0 && rest != []
    ensures 0 < Min(2 * size, |rest|) <= |rest| && Min(size, |rest|) <= Min(2 * size, |rest|)
  {
  }

  lemma PassProgressOne(le: Order, done: seq<nat>, rest: seq<nat>, size: nat, seen: set<nat>, nmerges: nat,
                        order: seq<nat>, seen0: set<nat>)
    requires size > 0 && rest != [] && PassProgress(le, done, rest, size, seen, nmerges, order, seen0)
    ensures var m, n := Min(size, |rest|), Min(2 * size, |rest|);
      PassProgress(le, done + Merge(le, rest[..m], rest[m..n]), rest[n..], size,
                   seen + MergeLooks(le, rest[..m], rest[m..n]), nmerges + 1, order, seen0)
  {
    hide Pass, PassLooks, Merge, MergeLooks;
    PassOne(le, rest, size);
    var m, n := Min(size, |rest|), Min(2 * size, |rest|);
    var merged, after := Merge(le, rest[..m], rest[m..n]), Pass(le, rest[n..], size);
    assert done + (merged + after) == (done + merged) + after;
  }

  lemma PassProgressDone(le: Order, done: seq<nat>, size: nat, seen: set<nat>, nmerges: nat,
                         order: seq<nat>, seen0: set<nat>)
    requires size > 0 && order != [] && PassProgress(le, done, [], size, seen, nmerges, order, seen0)
    ensures done == Pass(le, order, size) && seen == seen0 + PassLooks(le, order, size) && done != []
    ensures nmerges <= 1 <==> |order| <= 2 * size
  {
  }

  lemma OriginalIs(n: nat)
    ensures |Original(n)| == n && InRange(Original(n), n) && NoDuplicates(Original(n))
  {
  }

  lemma SortIsFrom(le: Order, n: nat)
    ensures SortFrom(le, Original(n), 1) == MergeSorts.MergeSort(le, n)
  {
  }

  /** A single node is not compared with anything. */
  lemma SingleLooks(le: Order)
    ensures SortLooks(le, Original(1), 1) == {}
  {
    var s := Original(1);
    assert MergeLooks(le, s[..1], s[1..1]) == {};
    assert PassLooks(le, s[1..], 1) == {};
  }

  lemma SortOne(le: Order, order: seq<nat>, size: nat)
    requires size > 0
    ensures if |order| <= 2 * size
      then
        && SortFrom(le, order, size) == Pass(le, order, size)
        && SortLooks(le, order, size) == PassLooks(le, order, size)
      else SortFrom(le, order, size) == SortFrom(le, Pass(le, order, size), 2 * size)
           && SortLooks(le, order, size) == PassLooks(le, order, size) + SortLooks(le, Pass(le, order, size), 2 * size)
  {
  }

  lemma PassOne(le: Order, rest: seq<nat>, size: nat)
    requires size > 0 && rest != []
    ensures var m, n := Min(size, |rest|), Min(2 * size, |rest|);
      && Pass(le, rest, size) == Merge(le, rest[..m], rest[m..n]) + Pass(le, rest[n..], size)
      && PassLooks(le, rest, size) == MergeLooks(le, rest[..m], rest[m..n]) + PassLooks(le, rest[n..], size)
    ensures Pass(le, [], size) == [] && PassLooks(le, [], size) == {}
  {
  }

  lemma TwoCuts(rest: seq<nat>, size: nat)
    requires size > 0
    ensures var m, n := Min(size, |rest|), Min(2 * size, |rest|);
      var q := rest[m..];
      q[..Min(size, |q|)] == rest[m..n] && q[Min(size, |q|)..] == rest[n..]
  {
  }

  /** One node of the merge. */
  lemma MergeOne(le: Order, left: seq<nat>, right: seq<nat>, fromLeft: bool)
    requires left != [] || right != []
    requires fromLeft == (left != [] && (right == [] || le(left[0], right[0])))
    ensures fromLeft ==> Merge(le, left, right) == [left[0]] + Merge(le, left[1..], right)
    ensures !fromLeft ==> Merge(le, left, right) == [right[0]] + Merge(le, left, right[1..])
    ensures left != [] && right != [] ==>
              MergeLooks(le, left, right) ==
              {left[0], right[0]} +
              if fromLeft then MergeLooks(le, left[1..], right) else MergeLooks(le, left, right[1..])
    ensures left == [] || right == [] ==> MergeLooks(le, left, right) == {}
    ensures left == [] || right == [] ==>
              MergeLooks(le, if fromLeft then left[1..] else left, if fromLeft then right else right[1..]) == {}
  {
  }

  lemma MergeDone(le: Order)
    ensures Merge(le, [], []) == [] && MergeLooks(le, [], []) == {}
  {
  }
}
