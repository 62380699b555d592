/** The bottom-up merge sort of CoreMark's list benchmark (core_list_join.c), on the positions of the
    nodes in the original list. */
module MergeSorts {

  type Order = (nat, nat) -> bool

  /** le is what cmp(a, b) <= 0 says: a total preorder. */
  ghost predicate TotalPreorder(le: Order) {
    && (forall a: nat, b: nat :: le(a, b) || le(b, a))
    && (forall a: nat, b: nat, c: nat :: le(a, b) && le(b, c) ==> le(a, c))
  }

  /** a belongs before b: it is smaller, or it is as small and came first. */
  predicate Before(le: Order, a: nat, b: nat) {
    le(a, b) && (le(b, a) ==> a < b)
  }

  /** Sorted and stable. */
  ghost predicate InOrder(le: Order, s: seq<nat>) {
    forall i, j :: 0 <= i < j < |s| ==> Before(le, s[i], s[j])
  }

  function Min(a: nat, b: nat): nat { if a < b then a else b }

  // ----- the algorithm -----

  /** The merge of two adjacent runs. */
  function Merge(le: Order, p: seq<nat>, q: seq<nat>): (r: seq<nat>)
    ensures |r| == |p| + |q|
    decreases |p| + |q|
  {
    if p == [] then q
    else if q == [] then p
    else if le(p[0], q[0]) then [p[0]] + Merge(le, p[1..], q)
    else [q[0]] + Merge(le, p, q[1..])
  }

  /** One pass over the list, merging runs of the given size pairwise. */
  function Pass(le: Order, s: seq<nat>, size: nat): (r: seq<nat>)
    requires size > 0
    ensures |r| == |s|
    decreases |s|
  {
    if s == [] then []
    else
      var m := Min(size, |s|);
      var n := Min(2 * size, |s|);
      Merge(le, s[..m], s[m..n]) + Pass(le, s[n..], size)
  }

  /** Passes of doubling size until one of them merges no more than two runs. */
  function SortFrom(le: Order, s: seq<nat>, size: nat): (r: seq<nat>)
    requires size > 0
    ensures |r| == |s|
    decreases |s| - size
  {
    if |s| <= 2 * size then Pass(le, s, size) else SortFrom(le, Pass(le, s, size), 2 * size)
  }

  /** The original list. */
  function Original(n: nat): (s: seq<nat>)
    ensures |s| == n && forall i :: 0 <= i < n ==> s[i] == i
  {
    seq(n, i => i)
  }

  function MergeSort(le: Order, n: nat): seq<nat> {
    SortFrom(le, Original(n), 1)
  }

  // ----- runs -----

  /** A sorted rearrangement of the positions lo .. lo + |s| - 1. */
  ghost predicate Run(le: Order, s: seq<nat>, lo: nat) {
    InOrder(le, s) && Between(s, lo, lo + |s|)
  }

  ghost predicate Between(s: seq<nat>, lo: nat, hi: nat) {
    forall i :: 0 <= i < |s| ==> lo <= s[i] < hi
  }

  /** s is cut into runs of the given size, the last one perhaps shorter. */
  ghost predicate Runs(le: Order, s: seq<nat>, size: nat, lo: nat)
    requires size > 0
    decreases |s|
  {
    s != [] ==>
      var m := Min(size, |s|);
      Run(le, s[..m], lo) && Runs(le, s[m..], size, lo + m)
  }

  lemma {:induction false} MergeBetween(le: Order, p: seq<nat>, q: seq<nat>, lo: nat, hi: nat)
    requires Between(p, lo, hi) && Between(q, lo, hi)
    ensures Between(Merge(le, p, q), lo, hi)
    decreases |p| + |q|
  {
    if p != [] && q != [] {
      if le(p[0], q[0]) {
        MergeBetween(le, p[1..], q, lo, hi);
      } else {
        MergeBetween(le, p, q[1..], lo, hi);
      }
    }
  }

  /** x belongs before everything in s. */
  ghost predicate BeforeAll(le: Order, x: nat, s: seq<nat>) {
    forall i :: 0 <= i < |s| ==> Before(le, x, s[i])
  }

  lemma {:induction false} BeforeMerge(le: Order, x: nat, p: seq<nat>, q: seq<nat>)
    requires BeforeAll(le, x, p) && BeforeAll(le, x, q)
    ensures BeforeAll(le, x, Merge(le, p, q))
    decreases |p| + |q|
  {
    if p != [] && q != [] {
      if le(p[0], q[0]) {
        BeforeMerge(le, x, p[1..], q);
      } else {
        BeforeMerge(le, x, p, q[1..]);
      }
    }
  }

  lemma BeforeTransitive(le: Order, a: nat, b: nat, c: nat)
    requires TotalPreorder(le) && Before(le, a, b) && Before(le, b, c)
    ensures Before(le, a, c)
  {
  }

  lemma HeadFirst(le: Order, x: nat, s: seq<nat>)
    requires TotalPreorder(le) && s != [] && InOrder(le, s) && Before(le, x, s[0])
    ensures BeforeAll(le, x, s)
  {
    forall i | 0 <= i < |s| ensures Before(le, x, s[i]) {
      if i > 0 {
        BeforeTransitive(le, x, s[0], s[i]);
      }
    }
  }

  lemma ConsInOrder(le: Order, x: nat, s: seq<nat>)
    requires InOrder(le, s) && BeforeAll(le, x, s)
    ensures InOrder(le, [x] + s)
  {
  }

  /** Merging keeps order, and ties go to the run that came first. */
  lemma {:induction false} MergeInOrder(le: Order, p: seq<nat>, q: seq<nat>, cut: nat)
    requires TotalPreorder(le) && InOrder(le, p) && InOrder(le, q)
    requires Between(p, 0, cut) && forall i :: 0 <= i < |q| ==> q[i] >= cut
    ensures InOrder(le, Merge(le, p, q))
    decreases |p| + |q|
  {
    if p != [] && q != [] {
      if le(p[0], q[0]) {
        MergeInOrder(le, p[1..], q, cut);
        assert Before(le, p[0], q[0]);
        HeadFirst(le, p[0], q);
        BeforeMerge(le, p[0], p[1..], q);
        ConsInOrder(le, p[0], Merge(le, p[1..], q));
      } else {
        MergeInOrder(le, p, q[1..], cut);
        assert Before(le, q[0], p[0]);
        HeadFirst(le, q[0], p);
        BeforeMerge(le, q[0], p, q[1..]);
        ConsInOrder(le, q[0], Merge(le, p, q[1..]));
      }
    }
  }

  lemma MergeRuns(le: Order, p: seq<nat>, q: seq<nat>, lo: nat)
    requires TotalPreorder(le) && Run(le, p, lo) && Run(le, q, lo + |p|)
    ensures Run(le, Merge(le, p, q), lo)
  {
    MergeInOrder(le, p, q, lo + |p|);
    MergeBetween(le, p, q, lo, lo + |p| + |q|);
  }

  lemma EmptyRun(le: Order, lo: nat)
    ensures Run(le, [], lo)
  {
  }

  lemma TwoRuns(le: Order, s: seq<nat>, size: nat, lo: nat)
    requires size > 0 && s != [] && Runs(le, s, size, lo)
    ensures var m, n := Min(size, |s|), Min(2 * size, |s|);
      Run(le, s[..m], lo) && Run(le, s[m..n], lo + m) && Runs(le, s[n..], size, lo + n)
  {
    var m, n := Min(size, |s|), Min(2 * size, |s|);
    hide Run;
    if m == |s| {
      assert s[m..n] == [];
      EmptyRun(le, lo + m);
    } else {
      var t := s[m..];
      assert t[..Min(size, |t|)] == s[m..n];
      assert t[Min(size, |t|)..] == s[n..];
    }
  }

  /** A pass over runs of one size leaves runs of twice the size. */
  lemma {:induction false} PassRuns(le: Order, s: seq<nat>, size: nat, lo: nat)
    requires TotalPreorder(le) && size > 0 && Runs(le, s, size, lo)
    ensures Runs(le, Pass(le, s, size), 2 * size, lo)
    decreases |s|
  {
    if s != [] {
      var m, n := Min(size, |s|), Min(2 * size, |s|);
      TwoRuns(le, s, size, lo);
      MergeRuns(le, s[..m], s[m..n], lo);
      PassRuns(le, s[n..], size, lo + n);
      hide Run, Merge, Runs, TotalPreorder;
      var r := Pass(le, s, size);
      assert r[..n] == Merge(le, s[..m], s[m..n]);
      assert r[n..] == Pass(le, s[n..], size);
      RunsParts(le, r, size, lo);
    }
  }

  lemma RunsParts(le: Order, r: seq<nat>, size: nat, lo: nat)
    requires size > 0 && r != []
    requires var n := Min(2 * size, |r|); Run(le, r[..n], lo) && Runs(le, r[n..], 2 * size, lo + n)
    ensures Runs(le, r, 2 * size, lo)
  {
    hide Run;
  }

  lemma {:induction false} SingleRuns(le: Order, s: seq<nat>, lo: nat)
    requires forall i :: 0 <= i < |s| ==> s[i] == lo + i
    ensures Runs(le, s, 1, lo)
    decreases |s|
  {
    if s != [] {
      SingleRuns(le, s[1..], lo + 1);
    }
  }

  lemma OneRun(le: Order, s: seq<nat>, size: nat, lo: nat)
    requires size >= |s| && size > 0 && Runs(le, s, size, lo)
    ensures Run(le, s, lo)
  {
    if s != [] {
      assert s[..|s|] == s;
    }
  }

  lemma {:induction false} SortFromRuns(le: Order, s: seq<nat>, size: nat)
    requires TotalPreorder(le) && size > 0 && Runs(le, s, size, 0)
    ensures Run(le, SortFrom(le, s, size), 0)
    decreases |s| - size
  {
    PassRuns(le, s, size, 0);
    if |s| <= 2 * size {
      OneRun(le, Pass(le, s, size), 2 * size, 0);
    } else {
      SortFromRuns(le, Pass(le, s, size), 2 * size);
    }
  }

  lemma InOrderDistinct(le: Order, s: seq<nat>)
    requires InOrder(le, s)
    ensures forall i, j :: 0 <= i < j < |s| ==> s[i] != s[j]
  {
  }

  /** For every list and every total preorder the sort returns each node exactly once, in order, with equal
      nodes in the order in which they came. */
  lemma SortsStably(le: Order, n: nat)
    requires TotalPreorder(le)
    ensures var s := MergeSort(le, n);
      && |s| == n && InOrder(le, s)
      && (forall i :: 0 <= i < n ==> s[i] < n)
      && (forall i, j :: 0 <= i < j < n ==> s[i] != s[j])
  {
    SingleRuns(le, Original(n), 0);
    SortFromRuns(le, Original(n), 1);
    InOrderDistinct(le, MergeSort(le, n));
  }

  // ----- which nodes are looked at -----

  /** The positions handed to cmp during a merge. */
  function MergeLooks(le: Order, p: seq<nat>, q: seq<nat>): set<nat>
    decreases |p| + |q|
  {
    if p == [] || q == [] then {}
    else {p[0], q[0]} + if le(p[0], q[0]) then MergeLooks(le, p[1..], q) else MergeLooks(le, p, q[1..])
  }

  function PassLooks(le: Order, s: seq<nat>, size: nat): set<nat>
    requires size > 0
    decreases |s|
  {
    if s == [] then {}
    else
      var m := Min(size, |s|);
      var n := Min(2 * size, |s|);
      MergeLooks(le, s[..m], s[m..n]) + PassLooks(le, s[n..], size)
  }

  function SortLooks(le: Order, s: seq<nat>, size: nat): set<nat>
    requires size > 0
    decreases |s| - size
  {
    PassLooks(le, s, size) + if |s| <= 2 * size then {} else SortLooks(le, Pass(le, s, size), 2 * size)
  }

  ghost predicate Seen(s: seq<nat>, seen: set<nat>) {
    forall i :: 0 <= i < |s| ==> s[i] in seen
  }

  /** Every run of more than one node has been looked at. */
  ghost predicate RunsSeen(s: seq<nat>, size: nat, seen: set<nat>)
    requires size > 0
    decreases |s|
  {
    s != [] ==>
      var m := Min(size, |s|);
      (m > 1 ==> Seen(s[..m], seen)) && RunsSeen(s[m..], size, seen)
  }

  lemma {:induction false} MergeSeen(le: Order, p: seq<nat>, q: seq<nat>, seen: set<nat>)
    requires Seen(p, seen) && Seen(q, seen)
    ensures Seen(Merge(le, p, q), seen)
    decreases |p| + |q|
  {
    if p != [] && q != [] {
      if le(p[0], q[0]) {
        MergeSeen(le, p[1..], q, seen);
      } else {
        MergeSeen(le, p, q[1..], seen);
      }
    }
  }

  /** After the merge of two runs all of the result has been looked at, unless it is a single node. */
  lemma MergedRunSeen(le: Order, p: seq<nat>, q: seq<nat>, seen: set<nat>)
    requires p != [] && (|p| > 1 ==> Seen(p, seen)) && (|q| > 1 ==> Seen(q, seen)) && |p| + |q| > 1
    ensures Seen(Merge(le, p, q), seen + MergeLooks(le, p, q))
  {
    MergeSeen(le, p, q, seen + MergeLooks(le, p, q));
  }

  lemma {:induction false} MoreSeen(s: seq<nat>, size: nat, seen: set<nat>, more: set<nat>)
    requires size > 0 && RunsSeen(s, size, seen) && seen <= more
    ensures RunsSeen(s, size, more)
    decreases |s|
  {
    if s != [] {
      MoreSeen(s[Min(size, |s|)..], size, seen, more);
    }
  }

  lemma TwoRunsSeen(s: seq<nat>, size: nat, seen: set<nat>)
    requires size > 0 && s != [] && RunsSeen(s, size, seen)
    ensures var m, n := Min(size, |s|), Min(2 * size, |s|);
      && (m > 1 ==> Seen(s[..m], seen)) && (n - m > 1 ==> Seen(s[m..n], seen)) && RunsSeen(s[n..], size, seen)
  {
    var m, n := Min(size, |s|), Min(2 * size, |s|);
    hide Seen;
    if m < |s| {
      var t := s[m..];
      assert t[..Min(size, |t|)] == s[m..n];
      assert t[Min(size, |t|)..] == s[n..];
    }
  }

  lemma {:induction false} PassSeen(le: Order, s: seq<nat>, size: nat, seen: set<nat>)
    requires size > 0 && RunsSeen(s, size, seen)
    ensures RunsSeen(Pass(le, s, size), 2 * size, seen + PassLooks(le, s, size))
    decreases |s|
  {
    if s != [] {
      var m, n, after := Min(size, |s|), Min(2 * size, |s|), seen + PassLooks(le, s, size);
      TwoRunsSeen(s, size, seen);
      if n > 1 {
        MergedRunSeen(le, s[..m], s[m..n], seen);
      }
      PassSeen(le, s[n..], size, seen);
      MoreSeen(Pass(le, s[n..], size), 2 * size, seen + PassLooks(le, s[n..], size), after);
      hide Merge, MergeLooks, RunsSeen;
      var r := Pass(le, s, size);
      assert r[..n] == Merge(le, s[..m], s[m..n]);
      assert r[n..] == Pass(le, s[n..], size);
      RunsSeenParts(r, size, after);
    }
  }

  lemma RunsSeenParts(r: seq<nat>, size: nat, seen: set<nat>)
    requires size > 0 && r != []
    requires var n := Min(2 * size, |r|); (n > 1 ==> Seen(r[..n], seen)) && RunsSeen(r[n..], 2 * size, seen)
    ensures RunsSeen(r, 2 * size, seen)
  {
  }

  lemma {:induction false} SortSeen(le: Order, s: seq<nat>, size: nat, seen: set<nat>)
    requires size > 0 && RunsSeen(s, size, seen) && |s| > 1
    ensures Seen(SortFrom(le, s, size), seen + SortLooks(le, s, size))
    decreases |s| - size
  {
    PassSeen(le, s, size, seen);
    var r, after := Pass(le, s, size), seen + PassLooks(le, s, size);
    if |s| <= 2 * size {
      assert r[..|r|] == r;
    } else {
      SortSeen(le, r, 2 * size, after);
      assert after + SortLooks(le, r, 2 * size) == seen + SortLooks(le, s, size);
    }
  }

  lemma {:induction false} SinglesUnseen(s: seq<nat>)
    ensures RunsSeen(s, 1, {})
    decreases |s|
  {
    if s != [] {
      SinglesUnseen(s[1..]);
    }
  }

  /** Sorting two or more nodes hands every one of them to the comparator at least once, so a comparator
      that repairs what it looks at repairs the whole list. */
  lemma EveryNodeIsCompared(le: Order, n: nat, x: nat)
    requires TotalPreorder(le) && n > 1 && x < n
    ensures x in SortLooks(le, Original(n), 1)
  {
    SinglesUnseen(Original(n));
    SortSeen(le, Original(n), 1, {});
    SortsStably(le, n);
    Surjective(MergeSort(le, n), n, x);
  }

  /** n distinct numbers below n leave none out. */
  lemma Surjective(s: seq<nat>, n: nat, x: nat)
    requires |s| == n && x < n && (forall i :: 0 <= i < n ==> s[i] < n)
    requires forall i, j :: 0 <= i < j < n ==> s[i] != s[j]
    ensures x in s
  {
    var image := set i | 0 <= i < n :: s[i];
    var all := Below(n);
    DistinctImage(s, n);
    assert image <= all;
    if x !in s {
      assert image <= all - {x};
      SubsetSize(image, all - {x});
    }
  }

  lemma {:induction false} DistinctImage(s: seq<nat>, n: nat)
    requires n <= |s| && forall i, j :: 0 <= i < j < |s| ==> s[i] != s[j]
    ensures |set i | 0 <= i < n :: s[i]| == n
    decreases n
  {
    var image := set i | 0 <= i < n :: s[i];
    if n > 0 {
      DistinctImage(s, n - 1);
      assert image == (set i | 0 <= i < n - 1 :: s[i]) + {s[n - 1]};
    }
  }

  function Below(n: nat): (r: set<nat>)
    ensures |r| == n && forall x: nat :: x in r <==> x < n
  {
    if n == 0 then {} else Below(n - 1) + {n - 1}
  }

  lemma {:induction false} SubsetSize(a: set<nat>, b: set<nat>)
    requires a <= b
    ensures |a| <= |b|
  {
    if a != {} {
      var x :| x in a;
      SubsetSize(a - {x}, b - {x});
    }
  }
}
