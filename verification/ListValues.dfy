/** What a kernel list stands for: its items in list order and the place of the
    round-robin cursor.  Cursor 0 is the end marker; cursor k > 0 is items[k-1]. */
module ListValues {
  import opened Ticks

  ghost predicate Distinct<T>(s: seq<T>) {
    forall i, j :: 0 <= i < j < |s| ==> s[i] != s[j]
  }

  /** Index of the only occurrence of x. */
  function IndexOf<T(==)>(s: seq<T>, x: T): (i: nat)
    requires x in s
    ensures i < |s| && s[i] == x && x !in s[..i]
  {
    if s[0] == x then 0 else 1 + IndexOf(s[1..], x)
  }

  /** s without the first occurrence of x. */
  function Without<T(==)>(s: seq<T>, x: T): seq<T> {
    if x in s then var i := IndexOf(s, x); s[..i] + s[i + 1..] else s
  }

  ghost predicate Sorted(values: seq<Tick>) {
    forall i, j :: 0 <= i < j < |values| ==> values[i] <= values[j]
  }

  /** How many leading items vListInsert steps over, given the item values in list order. */
  function StepOver(values: seq<Tick>, v: Tick): (p: nat)
    ensures p <= |values|
    ensures forall i :: 0 <= i < p ==> values[i] <= v
    ensures p < |values| ==> values[p] > v
  {
    if values == [] || values[0] > v then 0 else 1 + StepOver(values[1..], v)
  }

  datatype ListView<T(==)> = ListView(items: seq<T>, cursor: nat) {

    ghost predicate Valid() {
      cursor <= |items| && Distinct(items)
    }

    /** The items in the order in which the cursor will reach them. */
    function Future(): seq<T>
      requires cursor <= |items|
    {
      items[cursor..] + items[..cursor]
    }

    /** vListInsertEnd: just behind the cursor. */
    function InsertEnd(x: T): ListView<T>
      requires cursor <= |items|
    {
      if cursor == 0 then ListView(items + [x], 0)
      else ListView(items[..cursor - 1] + [x] + items[cursor - 1..], cursor + 1)
    }

    /** Linking x in front of position p. */
    function InsertAt(p: nat, x: T): ListView<T>
      requires p <= |items|
    {
      ListView(items[..p] + [x] + items[p..], if cursor > p then cursor + 1 else cursor)
    }

    /** vListInsert of an item of value v, given the item values in list order. */
    function Insert(x: T, v: Tick, values: seq<Tick>): ListView<T>
      requires |values| == |items|
    {
      InsertAt(StepOver(values, v), x)
    }

    /** uxListRemove */
    function Remove(x: T): ListView<T>
      requires x in items
    {
      var i := IndexOf(items, x);
      ListView(items[..i] + items[i + 1..], if cursor > i then cursor - 1 else cursor)
    }

    /** The cursor after listGET_OWNER_OF_NEXT_ENTRY. */
    function Advance(): ListView<T>
      requires items != []
    {
      ListView(items, if cursor >= |items| then 1 else cursor + 1)
    }

    /** What listGET_OWNER_OF_NEXT_ENTRY returns. */
    function NextItem(): T
      requires items != []
    {
      items[Advance().cursor - 1]
    }
  }

  function EmptyList<T(==)>(): ListView<T> {
    ListView([], 0)
  }

  // ----- distinctness -----

  lemma InsertDistinct<T>(s: seq<T>, p: nat, x: T)
    requires Distinct(s) && x !in s && p <= |s|
    ensures Distinct(s[..p] + [x] + s[p..])
  {
  }

  lemma RemoveDistinct<T>(s: seq<T>, p: nat)
    requires Distinct(s) && p < |s|
    ensures Distinct(s[..p] + s[p + 1..]) && s[p] !in s[..p] + s[p + 1..]
  {
  }

  /** Where vListInsertEnd links the new item. */
  lemma InsertEndPosition<T>(l: ListView<T>, x: T)
    requires l.cursor <= |l.items|
    ensures l.InsertEnd(x) == l.InsertAt(if l.cursor == 0 then |l.items| else l.cursor - 1, x)
  {
  }

  // ----- the cursor's order -----

  /** Reading the next entry returns the head of the cursor's order and rotates it. */
  lemma NextReadsFuture<T>(l: ListView<T>)
    requires l.cursor <= |l.items| && l.items != []
    ensures l.NextItem() == l.Future()[0]
    ensures l.Advance().Future() == l.Future()[1..] + [l.Future()[0]]
  {
  }

  /** An item put in with vListInsertEnd is read after every other item, except that the item
      under the cursor (the one read last) comes after it. */
  lemma InsertEndFuture<T>(l: ListView<T>, x: T)
    requires l.cursor <= |l.items|
    ensures var f, n := l.Future(), |l.items|;
            l.InsertEnd(x).Future() == if l.cursor == 0 then f + [x] else f[..n - 1] + [x] + [f[n - 1]]
  {
    if l.cursor > 0 {
      var f, n, k := l.Future(), |l.items|, l.cursor;
      var m := l.InsertEnd(x);
      assert m.items[m.cursor..] == l.items[k..];
      assert m.items[..m.cursor] == l.items[..k - 1] + [x] + [l.items[k - 1]];
      assert f[..n - 1] == l.items[k..] + l.items[..k - 1];
    }
  }

  lemma WithoutDistinct<T>(s: seq<T>, x: T, i: nat)
    requires Distinct(s) && i < |s| && s[i] == x
    ensures Without(s, x) == s[..i] + s[i + 1..]
  {
  }

  lemma FutureDistinct<T>(l: ListView<T>)
    requires l.Valid()
    ensures Distinct(l.Future())
  {
  }

  lemma RemoveBeforeCursor<T>(l: ListView<T>, x: T, i: nat)
    requires l.Valid() && i < l.cursor && l.items[i] == x
    ensures Without(l.Future(), x) == l.items[l.cursor..] + (l.items[..i] + l.items[i + 1..l.cursor])
  {
    var f, k, n := l.Future(), l.cursor, |l.items|;
    FutureDistinct(l);
    WithoutDistinct(f, x, n - k + i);
    assert f[..n - k + i] == l.items[k..] + l.items[..i];
    assert f[n - k + i + 1..] == l.items[i + 1..k];
  }

  lemma RemoveAfterCursor<T>(l: ListView<T>, x: T, i: nat)
    requires l.Valid() && l.cursor <= i < |l.items| && l.items[i] == x
    ensures Without(l.Future(), x) == (l.items[l.cursor..i] + l.items[i + 1..]) + l.items[..l.cursor]
  {
    var f, k := l.Future(), l.cursor;
    FutureDistinct(l);
    WithoutDistinct(f, x, i - k);
    assert f[..i - k] == l.items[k..i];
    assert f[i - k + 1..] == l.items[i + 1..] + l.items[..k];
  }

  /** Removing an item leaves the order of all the others as the cursor will see them. */
  lemma RemoveFuture<T>(l: ListView<T>, x: T)
    requires l.Valid() && x in l.items
    ensures l.Remove(x).cursor <= |l.items| - 1
    ensures l.Remove(x).Future() == Without(l.Future(), x)
  {
    hide Distinct, Without;
    var i, k := IndexOf(l.items, x), l.cursor;
    var r := l.Remove(x);
    if k > i {
      RemoveBeforeCursor(l, x, i);
      assert r.items[r.cursor..] == l.items[k..];
      assert r.items[..r.cursor] == l.items[..i] + l.items[i + 1..k];
    } else {
      RemoveAfterCursor(l, x, i);
      assert r.items[r.cursor..] == l.items[k..i] + l.items[i + 1..];
      assert r.items[..r.cursor] == l.items[..k];
    }
  }

  /** n successive reads of an unchanged list. */
  function Reads<T(==)>(l: ListView<T>, n: nat): seq<T>
    requires n == 0 || l.items != []
    decreases n
  {
    if n == 0 then [] else [l.NextItem()] + Reads(l.Advance(), n - 1)
  }

  lemma {:induction false} ReadsPrefix<T>(l: ListView<T>, n: nat)
    requires l.cursor <= |l.items| && n <= |l.items|
    ensures Reads(l, n) == l.Future()[..n]
    decreases n
  {
    if n > 0 {
      NextReadsFuture(l);
      ReadsPrefix(l.Advance(), n - 1);
    }
  }

  /** A full round of reads returns every item exactly once, whatever the cursor. */
  lemma RoundRobin<T>(l: ListView<T>)
    requires l.Valid()
    ensures |Reads(l, |l.items|)| == |l.items|
    ensures Distinct(Reads(l, |l.items|))
    ensures forall x :: x in Reads(l, |l.items|) <==> x in l.items
  {
    ReadsPrefix(l, |l.items|);
    var f := l.Future();
    assert f[..|l.items|] == f;
    forall x | x in l.items ensures x in f {
      var i :| 0 <= i < |l.items| && l.items[i] == x;
      assert if i >= l.cursor then f[i - l.cursor] == x else f[|l.items| - l.cursor + i] == x;
    }
  }

  // ----- sorted insertion -----

  /** vListInsert keeps a sorted list sorted, and puts the new item behind its equals. */
  lemma InsertedAt<T>(s: seq<T>, p: nat, x: T, i: nat)
    requires p <= |s| && i <= |s|
    ensures (s[..p] + [x] + s[p..])[i] == if i < p then s[i] else if i == p then x else s[i - 1]
  {
  }

  lemma InsertSorted(values: seq<Tick>, v: Tick)
    requires Sorted(values)
    ensures var p := StepOver(values, v); Sorted(values[..p] + [v] + values[p..])
    ensures forall i :: 0 <= i < |values| ==> (i < StepOver(values, v) <==> values[i] <= v)
  {
    hide StepOver;
    var p := StepOver(values, v);
    var r := values[..p] + [v] + values[p..];
    forall i, j | 0 <= i < j < |r| ensures r[i] <= r[j] {
      InsertedAt(values, p, v, i);
      InsertedAt(values, p, v, j);
    }
  }

  /** The step-over count is determined by its meaning. */
  lemma StepOverUnique(values: seq<Tick>, v: Tick, p: nat)
    requires p <= |values|
    requires forall i :: 0 <= i < p ==> values[i] <= v
    requires p < |values| ==> values[p] > v
    ensures StepOver(values, v) == p
  {
  }
}
