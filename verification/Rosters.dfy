/** A family of kernel lists together with the container pointers of the items that are on them.
    uxListRemove finds the list to change through the container pointer alone, so every operation
    keeps the pointers and the lists in agreement. */
module Rosters {
  import opened Ticks
  import opened ListValues

  type Task = nat

  datatype Roster<!L(==)> = Roster(lists: map<L, ListView<Task>>, place: map<Task, L>) {

    /** pxContainer of every item on a list is that list, and every item is on the list it names. */
    ghost predicate Consistent() {
      && (forall l :: l in lists ==> lists[l].Valid())
      && (forall l, x {:trigger x in lists[l].items} :: l in lists && x in lists[l].items ==>
            x in place && place[x] == l)
      && (forall x :: x in place ==> place[x] in lists && x in lists[place[x]].items)
    }

    /** vListInsertEnd */
    function PutEnd(l: L, x: Task): (r: Roster<L>)
      requires Consistent() && l in lists && x !in place
      ensures r.Consistent() && r.lists.Keys == lists.Keys && r.place == place[x := l]
      ensures forall m :: m in lists && m != l ==> r.lists[m] == lists[m]
    {
      var v := lists[l].InsertEnd(x);
      InsertEndPosition(lists[l], x);
      Inserted(l, x, if lists[l].cursor == 0 then |lists[l].items| else lists[l].cursor - 1);
      Roster(lists[l := v], place[x := l])
    }

    /** vListInsert of an item of value v, given the values already on the list. */
    function PutSorted(l: L, x: Task, v: Tick, values: seq<Tick>): (r: Roster<L>)
      requires Consistent() && l in lists && x !in place && |values| == |lists[l].items|
      ensures r.Consistent() && r.lists.Keys == lists.Keys && r.place == place[x := l]
      ensures forall m :: m in lists && m != l ==> r.lists[m] == lists[m]
    {
      Inserted(l, x, StepOver(values, v));
      Roster(lists[l := lists[l].Insert(x, v, values)], place[x := l])
    }

    /** uxListRemove */
    function Take(x: Task): (r: Roster<L>)
      requires Consistent() && x in place
      ensures r.Consistent() && r.lists.Keys == lists.Keys && r.place == place - {x}
      ensures forall m :: m in lists && m != place[x] ==> r.lists[m] == lists[m]
      ensures r.lists[place[x]].items == Without(lists[place[x]].items, x)
    {
      Removed(x);
      Roster(lists[place[x] := lists[place[x]].Remove(x)], place - {x})
    }

    /** uxListRemove guarded by the test that the item is on a list at all. */
    function TakeIfPlaced(x: Task): (r: Roster<L>)
      requires Consistent()
      ensures r.Consistent() && r.lists.Keys == lists.Keys && r.place == place - {x}
    {
      if x in place then Take(x) else this
    }

    /** uxListRemove, then vListInsertEnd on another list. */
    function Move(x: Task, l: L): (r: Roster<L>)
      requires Consistent() && x in place && l in lists
      ensures r.Consistent() && r.lists.Keys == lists.Keys && r.place == place[x := l]
      ensures forall m :: m in lists && m != l ==>
                r.lists[m].items == if m == place[x] then Without(lists[m].items, x) else lists[m].items
    {
      hide *;
      ReplacePlace(place, x, l);
      Take(x).PutEnd(l, x)
    }

    lemma MoveGrows(x: Task, l: L)
      requires Consistent() && x in place && l in lists && l != place[x]
      ensures l in Move(x, l).lists && |Move(x, l).lists[l].items| == |lists[l].items| + 1
    {
      assert lists[l].Valid();
      hide Consistent, Take;
      InsertEndPosition(lists[l], x);
    }

    /** An item put at the end comes last in its list's turn, but for the item under the cursor. */
    lemma PutEndTurn(l: L, x: Task)
      requires Consistent() && l in lists && x !in place
      ensures Joined(lists[l], PutEnd(l, x).lists[l], [x])
    {
      InsertEndFuture(lists[l], x);
      assert lists[l].Valid();
      hide Consistent, ListView.Future;
    }

    /** Taking an item leaves the turns of all the others. */
    lemma TakeTurn(x: Task)
      requires Consistent() && x in place
      ensures place[x] in lists && x in lists[place[x]].items
      ensures Left(lists[place[x]], Take(x).lists[place[x]], x)
    {
      assert lists[place[x]].Valid();
      RemoveFuture(lists[place[x]], x);
      hide Consistent, ListView.Future, Without;
    }

    /** The elements whose item is on list l. */
    function On(l: L): (r: set<Task>)
      ensures forall x :: x in r <==> x in place && place[x] == l
    {
      set x | x in place && place[x] == l
    }

    lemma ListSize(l: L)
      requires Consistent() && l in lists
      ensures |On(l)| == |lists[l].items|
    {
      assert lists[l].Valid();
      DistinctSize(lists[l].items);
      assert On(l) == Elements(lists[l].items);
    }

    lemma Inserted(l: L, x: Task, p: nat)
      requires Consistent() && l in lists && x !in place && p <= |lists[l].items|
      ensures lists[l].InsertAt(p, x).Valid()
      ensures Roster(lists[l := lists[l].InsertAt(p, x)], place[x := l]).Consistent()
    {
      var v := lists[l].InsertAt(p, x);
      InsertDistinct(lists[l].items, p, x);
      forall y ensures y in v.items <==> y == x || y in lists[l].items {
        InsertMembers(lists[l].items, p, x, y);
      }
    }

    lemma Removed(x: Task)
      requires Consistent() && x in place
      ensures lists[place[x]].Remove(x).Valid()
      ensures Roster(lists[place[x] := lists[place[x]].Remove(x)], place - {x}).Consistent()
    {
      var s := lists[place[x]].items;
      var p := IndexOf(s, x);
      RemoveDistinct(s, p);
      forall y ensures y in lists[place[x]].Remove(x).items <==> y != x && y in s {
        RemoveMembers(s, p, y);
      }
    }
  }

  /** The list's turn, the order in which its cursor will reach the items, is as it was, with news behind
      all others, except that the item under the cursor, the one reached last, stays behind them. */
  ghost predicate Joined(v: ListView<Task>, w: ListView<Task>, news: seq<Task>) {
    && v.cursor <= |v.items| && w.cursor <= |w.items| && (w.cursor == 0 <==> v.cursor == 0)
    && var f, n := v.Future(), |v.items|;
       w.Future() == if v.cursor == 0 then f + news else f[..n - 1] + news + f[n - 1..]
  }

  /** The list's turn is as it was, without x; a cursor that was on x is on the item before it. */
  ghost predicate Left(v: ListView<Task>, w: ListView<Task>, x: Task) {
    && v.cursor <= |v.items| && w.cursor <= |w.items| && w.Future() == Without(v.Future(), x)
    && (w.cursor == 0 <==> v.cursor == 0 || (v.cursor == 1 && v.items[0] == x))
  }

  lemma JoinedTwice(v: ListView<Task>, u: ListView<Task>, w: ListView<Task>, a: seq<Task>, b: seq<Task>)
    requires Joined(v, u, a) && Joined(u, w, b)
    ensures Joined(v, w, a + b)
  {
    FutureLength(v);
    FutureLength(u);
    hide ListView.Future;
    var f := v.Future();
    if v.cursor == 0 {
      assert (f + a) + b == f + (a + b);
    } else {
      BehindTwice(f, a, b);
    }
  }

  lemma FutureLength(v: ListView<Task>)
    requires v.cursor <= |v.items|
    ensures |v.Future()| == |v.items|
  {
  }

  lemma BehindTwice(f: seq<Task>, a: seq<Task>, b: seq<Task>)
    requires f != []
    ensures var n := |f|;
      var g := f[..n - 1] + a + f[n - 1..];
      g[..|g| - 1] + b + g[|g| - 1..] == f[..n - 1] + (a + b) + f[n - 1..]
  {
    var n := |f|;
    var g := f[..n - 1] + a + f[n - 1..];
    assert g[..|g| - 1] == f[..n - 1] + a && g[|g| - 1..] == f[n - 1..];
  }

  lemma NobodyJoined(v: ListView<Task>)
    requires v.cursor <= |v.items|
    ensures Joined(v, v, [])
  {
    var f, n := v.Future(), |v.items|;
    assert v.cursor > 0 ==> f[..n - 1] + [] + f[n - 1..] == f;
  }

  function Elements<T>(items: seq<T>): set<T> {
    set x | x in items
  }

  lemma {:induction false} DistinctSize<T>(items: seq<T>)
    requires Distinct(items)
    ensures |Elements(items)| == |items|
  {
    if items != [] {
      var n := |items| - 1;
      assert Elements(items) == Elements(items[..n]) + {items[n]};
      DistinctSize(items[..n]);
    }
  }

  lemma ReplacePlace<L>(place: map<Task, L>, x: Task, l: L)
    requires x in place
    ensures (place - {x})[x := l] == place[x := l]
  {
  }

  lemma InsertMembers<T>(s: seq<T>, p: nat, x: T, y: T)
    requires p <= |s|
    ensures y in s[..p] + [x] + s[p..] <==> y == x || y in s
  {
    assert s == s[..p] + s[p..];
  }

  lemma RemoveMembers<T>(s: seq<T>, p: nat, y: T)
    requires Distinct(s) && p < |s|
    ensures y in s[..p] + s[p + 1..] <==> y != s[p] && y in s
  {
    assert s == s[..p] + [s[p]] + s[p + 1..];
    RemoveDistinct(s, p);
  }
}
