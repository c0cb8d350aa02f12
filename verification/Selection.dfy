/**
 * "The newest child": filter a List answer by controller, stable-sort newest first, take the head.
 * The module, stack and execution reconcilers all select their child this way.
 */
module Selection {
  import opened Basics
  import opened Objects

  function Owned<S, T>(items: seq<Object<S, T>>, uid: Uid): seq<Object<S, T>> {
    if items == [] then []
    else
      var rest, x := items[..|items| - 1], items[|items| - 1];
      Owned(rest, uid) + if ControlledBy(x.meta, uid) then [x] else []
  }

  /** The elements created at time t, in their order. */
  function CreatedAt<S, T>(items: seq<Object<S, T>>, t: nat): seq<Object<S, T>> {
    if items == [] then []
    else
      var rest, x := items[..|items| - 1], items[|items| - 1];
      CreatedAt(rest, t) + if x.meta.created == t then [x] else []
  }

  ghost predicate NewestFirst<S, T>(items: seq<Object<S, T>>) {
    forall i, j :: 0 <= i < j < |items| ==> items[i].meta.created >= items[j].meta.created
  }

  /** What any stable sort by "created after" returns: ordered, and each timestamp's elements kept in order. */
  ghost predicate IsStableSort<S, T>(items: seq<Object<S, T>>, sorted: seq<Object<S, T>>) {
    NewestFirst(sorted) && forall t :: CreatedAt(sorted, t) == CreatedAt(items, t)
  }

  function Insert<S, T>(sorted: seq<Object<S, T>>, x: Object<S, T>): seq<Object<S, T>> {
    if sorted == [] || sorted[|sorted| - 1].meta.created >= x.meta.created then sorted + [x]
    else Insert(sorted[..|sorted| - 1], x) + [sorted[|sorted| - 1]]
  }

  function Sort<S, T>(items: seq<Object<S, T>>): seq<Object<S, T>> {
    if items == [] then [] else Insert(Sort(items[..|items| - 1]), items[|items| - 1])
  }

  /** The selection as the controllers compute it. */
  function Select<S, T>(items: seq<Object<S, T>>, uid: Uid): Option<Object<S, T>> {
    var sorted := Sort(Owned(items, uid));
    if sorted == [] then None else Some(sorted[0])
  }

  /** The reference: one left-to-right pass that keeps the first maximum among controlled items. */
  function Scan<S, T>(items: seq<Object<S, T>>, uid: Uid): Option<Object<S, T>> {
    if items == [] then None
    else
      var best, x := Scan(items[..|items| - 1], uid), items[|items| - 1];
      if ControlledBy(x.meta, uid) && (best.None? || x.meta.created > best.value.meta.created) then Some(x) else best
  }

  lemma {:induction false} AtMembers<S, T>(items: seq<Object<S, T>>, t: nat)
    ensures forall x :: x in CreatedAt(items, t) <==> x in items && x.meta.created == t
  {
    if items != [] {
      AtMembers(items[..|items| - 1], t);
      assert items == items[..|items| - 1] + [items[|items| - 1]];
    }
  }

  lemma {:induction false} AtEmpty<S, T>(items: seq<Object<S, T>>, t: nat)
    requires forall x :: x in items ==> x.meta.created != t
    ensures CreatedAt(items, t) == []
  {
    if items != [] {
      assert items[|items| - 1] in items;
      AtEmpty(items[..|items| - 1], t);
    }
  }

  lemma {:induction false} NoneOwned<S, T>(items: seq<Object<S, T>>, uid: Uid)
    requires forall i :: 0 <= i < |items| ==> !ControlledBy(items[i].meta, uid)
    ensures Owned(items, uid) == [] && Select(items, uid) == None
  {
    if items != [] {
      NoneOwned(items[..|items| - 1], uid);
    }
  }

  lemma {:induction false} OwnedMembers<S, T>(items: seq<Object<S, T>>, uid: Uid)
    ensures forall x :: x in Owned(items, uid) <==> x in items && ControlledBy(x.meta, uid)
  {
    if items != [] {
      OwnedMembers(items[..|items| - 1], uid);
      assert items == items[..|items| - 1] + [items[|items| - 1]];
    }
  }

  lemma {:induction false} AtAppend<S, T>(a: seq<Object<S, T>>, x: Object<S, T>, t: nat)
    ensures CreatedAt(a + [x], t) == CreatedAt(a, t) + if x.meta.created == t then [x] else []
  {
    assert (a + [x])[..|a|] == a;
  }

  lemma {:induction false} InsertStable<S, T>(s: seq<Object<S, T>>, x: Object<S, T>)
    requires NewestFirst(s)
    ensures |Insert(s, x)| == |s| + 1
    ensures forall y :: y in Insert(s, x) <==> y in s || y == x
    ensures NewestFirst(Insert(s, x))
    ensures forall t :: CreatedAt(Insert(s, x), t) == CreatedAt(s, t) + if x.meta.created == t then [x] else []
  {
    if s == [] || s[|s| - 1].meta.created >= x.meta.created {
      forall t { AtAppend(s, x, t); }
    } else {
      var rest, last := s[..|s| - 1], s[|s| - 1];
      assert s == rest + [last];
      InsertStable(rest, x);
      forall t ensures CreatedAt(Insert(s, x), t) == CreatedAt(s, t) + if x.meta.created == t then [x] else [] {
        AtAppend(rest, last, t);
        AtAppend(Insert(rest, x), last, t);
      }
    }
  }

  lemma {:induction false} SortStable<S, T>(s: seq<Object<S, T>>)
    ensures IsStableSort(s, Sort(s))
    ensures |Sort(s)| == |s|
  {
    if s != [] {
      var rest, last := s[..|s| - 1], s[|s| - 1];
      assert s == rest + [last];
      SortStable(rest);
      InsertStable(Sort(rest), last);
      forall t ensures CreatedAt(Sort(s), t) == CreatedAt(s, t) { AtAppend(rest, last, t); }
    }
  }

  ghost predicate IsFirstMax<S, T>(items: seq<Object<S, T>>, best: Object<S, T>) {
    && best in items
    && (forall y :: y in items ==> y.meta.created <= best.meta.created)
    && CreatedAt(items, best.meta.created) != []
    && CreatedAt(items, best.meta.created)[0] == best
  }

  lemma FirstMaxKept<S, T>(items: seq<Object<S, T>>, best: Object<S, T>, x: Object<S, T>)
    requires IsFirstMax(items, best) && x.meta.created <= best.meta.created
    ensures IsFirstMax(items + [x], best)
  {
    AtAppend(items, x, best.meta.created);
  }

  lemma FirstMaxReplaced<S, T>(items: seq<Object<S, T>>, x: Object<S, T>)
    requires forall y :: y in items ==> y.meta.created < x.meta.created
    ensures IsFirstMax(items + [x], x)
  {
    AtAppend(items, x, x.meta.created);
    AtEmpty(items, x.meta.created);
  }

  lemma {:induction false} ScanIsFirstMax<S, T>(items: seq<Object<S, T>>, uid: Uid)
    ensures Scan(items, uid).None? <==> Owned(items, uid) == []
    ensures Scan(items, uid).Some? ==> IsFirstMax(Owned(items, uid), Scan(items, uid).value)
  {
    if items != [] {
      var rest, x := items[..|items| - 1], items[|items| - 1];
      var best := Scan(rest, uid);
      ScanIsFirstMax(rest, uid);
      if !ControlledBy(x.meta, uid) {
        assert Owned(items, uid) == Owned(rest, uid) && Scan(items, uid) == best;
      } else {
        assert Owned(items, uid) == Owned(rest, uid) + [x];
        FirstMaxNext(Owned(rest, uid), best, x);
      }
    }
  }

  lemma FirstMaxNext<S, T>(items: seq<Object<S, T>>, best: Option<Object<S, T>>, x: Object<S, T>)
    requires if best.None? then items == [] else IsFirstMax(items, best.value)
    ensures IsFirstMax(items + [x], if best.None? || x.meta.created > best.value.meta.created then x else best.value)
  {
    if best.Some? && x.meta.created <= best.value.meta.created {
      FirstMaxKept(items, best.value, x);
    } else {
      FirstMaxReplaced(items, x);
    }
  }

  lemma {:induction false} HeadAt<S, T>(s: seq<Object<S, T>>)
    requires s != []
    ensures CreatedAt(s, s[0].meta.created) != [] && CreatedAt(s, s[0].meta.created)[0] == s[0]
  {
    if |s| > 1 {
      HeadAt(s[..|s| - 1]);
    } else {
      assert s[..|s| - 1] == [];
    }
  }

  /**
   * Whatever stable sort runs, the head of its answer is what the one-pass scan keeps; and there is
   * no head exactly when nothing is controlled.
   */
  lemma StableHeadIsScan<S, T>(items: seq<Object<S, T>>, uid: Uid, sorted: seq<Object<S, T>>)
    requires IsStableSort(Owned(items, uid), sorted)
    ensures sorted == [] <==> Scan(items, uid).None?
    ensures sorted != [] ==> Scan(items, uid) == Some(sorted[0])
  {
    var own := Owned(items, uid);
    ScanIsFirstMax(items, uid);
    if own != [] {
      HeadAt(own);
      assert CreatedAt(sorted, own[0].meta.created) != [];
    }
    if sorted != [] {
      var t := sorted[0].meta.created;
      HeadAt(sorted);
      AtMembers(own, t);
      assert sorted[0] in own by { assert CreatedAt(own, t)[0] in CreatedAt(own, t); }
      var best := Scan(items, uid).value;
      AtMembers(sorted, best.meta.created);
      assert best in sorted by { assert CreatedAt(own, best.meta.created)[0] in CreatedAt(sorted, best.meta.created); }
    }
  }

  /** The controllers' selection is the one-pass scan, for every list. */
  lemma SelectIsScan<S, T>(items: seq<Object<S, T>>, uid: Uid)
    ensures Select(items, uid) == Scan(items, uid)
  {
    SortStable(Owned(items, uid));
    StableHeadIsScan(items, uid, Sort(Owned(items, uid)));
  }

  /** best is controlled by uid and stored, and nothing uid controls was created later. */
  ghost predicate IsLatest<S, T>(objects: map<Key, Object<S, T>>, uid: Uid, best: Object<S, T>) {
    && ControlledBy(best.meta, uid) && best.meta.key in objects && objects[best.meta.key] == best
    && forall k :: k in objects && ControlledBy(objects[k].meta, uid) ==> objects[k].meta.created <= best.meta.created
  }

  /** Another object of uid was created at the same time as best. */
  ghost predicate Tied<S, T>(objects: map<Key, Object<S, T>>, uid: Uid, best: Object<S, T>) {
    exists k :: k in objects && ControlledBy(objects[k].meta, uid) && k != best.meta.key
                && objects[k].meta.created == best.meta.created
  }

  /**
   * Selecting from a namespace's List answer, in any order, finds a latest child of the whole store, and none
   * exactly when there is none, provided the children live in that namespace. It is the newest, so that the order
   * does not matter, exactly when no other child was created at the same time.
   */
  lemma SelectFindsNewest<S, T>(objects: map<Key, Object<S, T>>, ns: string, items: seq<Object<S, T>>, uid: Uid)
    requires IsListing(objects, ns, items)
    requires forall k :: k in objects && ControlledBy(objects[k].meta, uid) ==> k.ns == ns && objects[k].meta.key == k
    ensures Select(items, uid).None? <==> forall k :: k in objects ==> !ControlledBy(objects[k].meta, uid)
    ensures Select(items, uid).Some? ==> IsLatest(objects, uid, Select(items, uid).value)
    ensures IsNewest(objects, uid, Select(items, uid)) <==>
            (Select(items, uid).Some? ==> !Tied(objects, uid, Select(items, uid).value))
  {
    SelectIsScan(items, uid);
    ScanIsFirstMax(items, uid);
    OwnedMembers(items, uid);
    assert forall k :: k in objects && ControlledBy(objects[k].meta, uid) ==> objects[k] in Owned(items, uid);
    match Scan(items, uid)
    case None =>
      assert Owned(items, uid) == [];
    case Some(best) =>
      assert best in Owned(items, uid);
      assert IsLatest(objects, uid, best);
      assert IsNewest(objects, uid, Some(best)) ==> !Tied(objects, uid, best);
  }

  lemma ScanPair<S, T>(a: Object<S, T>, b: Object<S, T>, uid: Uid)
    requires a.meta.created == b.meta.created && ControlledBy(a.meta, uid)
    ensures Scan([a, b], uid) == Some(a)
  {
    assert [a, b][..1] == [a] && [a][..0] == [];
    assert Scan([a][..0], uid) == None;
    assert Scan([a], uid) == Some(a);
  }

  /** With equal creation times the choice is the list's, not the store's: it changes with the order of the answer. */
  lemma TiesFollowListOrder<S, T>(a: Object<S, T>, b: Object<S, T>, uid: Uid)
    requires a != b && a.meta.created == b.meta.created && ControlledBy(a.meta, uid) && ControlledBy(b.meta, uid)
    ensures Select([a, b], uid) == Some(a) && Select([b, a], uid) == Some(b)
  {
    SelectIsScan([a, b], uid);
    SelectIsScan([b, a], uid);
    ScanPair(a, b, uid);
    ScanPair(b, a, uid);
  }

  ghost predicate StrictlyNewestFirst<S, T>(items: seq<Object<S, T>>) {
    forall i, j :: 0 <= i < j < |items| ==> items[i].meta.created > items[j].meta.created
  }

  lemma AllAbove<S, T>(all: seq<Object<S, T>>, rest: seq<Object<S, T>>, x: Object<S, T>, bound: nat)
    requires forall y :: y in all <==> y in rest || y == x
    requires forall y :: y in rest ==> y.meta.created > bound
    requires x.meta.created > bound
    ensures forall i :: 0 <= i < |all| ==> all[i].meta.created > bound
  {
    forall i | 0 <= i < |all| ensures all[i].meta.created > bound {
      assert all[i] in all;
    }
  }

  /** Inserting an element with a new creation time leaves no ties. */
  lemma {:induction false} InsertStrict<S, T>(s: seq<Object<S, T>>, x: Object<S, T>)
    requires StrictlyNewestFirst(s) && forall y :: y in s ==> y.meta.created != x.meta.created
    ensures StrictlyNewestFirst(Insert(s, x))
  {
    if s != [] && s[|s| - 1].meta.created < x.meta.created {
      var rest, last := s[..|s| - 1], s[|s| - 1];
      InsertStrict(rest, x);
      InsertStable(rest, x);
      assert forall y :: y in rest ==> y.meta.created > last.meta.created;
      AllAbove(Insert(rest, x), rest, x, last.meta.created);
    } else if s != [] {
      assert s[|s| - 1] in s;
    }
  }

  /** When no two controlled items share a creation time, the sort leaves no ties and loses nothing. */
  lemma {:induction false} SortOwnedStrict<S, T>(items: seq<Object<S, T>>, uid: Uid)
    requires forall i, j ::
               0 <= i < j < |items| && ControlledBy(items[i].meta, uid) && ControlledBy(items[j].meta, uid) ==>
                 items[i].meta.created != items[j].meta.created
    ensures StrictlyNewestFirst(Sort(Owned(items, uid)))
    ensures forall y :: y in Sort(Owned(items, uid)) <==> y in items && ControlledBy(y.meta, uid)
  {
    if items != [] {
      var rest, x := items[..|items| - 1], items[|items| - 1];
      assert items == rest + [x];
      SortOwnedStrict(rest, uid);
      if ControlledBy(x.meta, uid) {
        assert Owned(items, uid)[..|Owned(rest, uid)|] == Owned(rest, uid);
        assert Sort(Owned(items, uid)) == Insert(Sort(Owned(rest, uid)), x);
        forall y | y in Sort(Owned(rest, uid)) ensures y.meta.created != x.meta.created {
          var i :| 0 <= i < |rest| && rest[i] == y;
          assert items[i] == y;
        }
        InsertStrict(Sort(Owned(rest, uid)), x);
        InsertStable(Sort(Owned(rest, uid)), x);
      } else {
        assert Owned(items, uid) == Owned(rest, uid);
      }
    }
  }

  /** Where the shifting loop stops is where Insert puts the element. */
  lemma {:induction false} InsertShape<S, T>(s: seq<Object<S, T>>, x: Object<S, T>, i: nat)
    requires i <= |s|
    requires forall j :: i <= j < |s| ==> s[j].meta.created < x.meta.created
    requires i == 0 || s[i - 1].meta.created >= x.meta.created
    ensures Insert(s, x) == s[..i] + [x] + s[i..]
  {
    if i < |s| {
      var rest := s[..|s| - 1];
      InsertShape(rest, x, i);
      assert rest[..i] == s[..i] && rest[i..] + [s[|s| - 1]] == s[i..];
    } else {
      assert s[..i] == s && s[i..] == [];
    }
  }

  /** One pass of the in-place sort: the sorted prefix of length n grows by the element at n. */
  method InsertInPlace<S, T>(a: array<Object<S, T>>, n: nat)
    requires n < a.Length
    modifies a
    ensures a[..n + 1] == Insert(old(a[..n]), old(a[n]))
    ensures forall j :: n < j < a.Length ==> a[j] == old(a[j])
  {
    ghost var prefix := a[..n];
    var x := a[n];
    var i := n;
    while i > 0 && a[i - 1].meta.created < x.meta.created
      invariant 0 <= i <= n
      invariant forall j :: 0 <= j < i ==> a[j] == prefix[j]
      invariant forall j :: i < j <= n ==> a[j] == prefix[j - 1]
      invariant forall j :: n < j < a.Length ==> a[j] == old(a[j])
      invariant forall j :: i <= j < n ==> prefix[j].meta.created < x.meta.created
    {
      a[i] := a[i - 1];
      i := i - 1;
    }
    a[i] := x;
    InsertShape(prefix, x, i);
    assert a[..n + 1] == prefix[..i] + [x] + prefix[i..];
  }

  /** The in-place stable sort of the owned slice. */
  method SortInPlace<S, T>(a: array<Object<S, T>>)
    modifies a
    ensures a[..] == Sort(old(a[..]))
  {
    ghost var items := a[..];
    var n := 0;
    while n < a.Length
      invariant 0 <= n <= a.Length
      invariant a[..n] == Sort(items[..n])
      invariant forall j :: n <= j < a.Length ==> a[j] == items[j]
    {
      InsertInPlace(a, n);
      assert items[..n + 1][..n] == items[..n];
      n := n + 1;
    }
    assert a[..n] == a[..] && items[..n] == items;
  }

  /** The filter loop and the sort, as written in lastExecution and job. */
  method OwnedNewestFirst<S, T>(items: seq<Object<S, T>>, uid: Uid) returns (owned: seq<Object<S, T>>)
    ensures IsStableSort(Owned(items, uid), owned)
    ensures owned == Sort(Owned(items, uid))
    ensures |owned| == |Owned(items, uid)|
  {
    owned := [];
    for i := 0 to |items|
      invariant owned == Owned(items[..i], uid)
    {
      assert items[..i + 1][..i] == items[..i];
      if ControlledBy(items[i].meta, uid) {
        owned := owned + [items[i]];
      }
    }
    assert items[..|items|] == items;
    var a := new Object<S, T>[|owned|](i requires 0 <= i < |owned| => owned[i]);
    assert a[..] == owned;
    SortStable(owned);
    SortInPlace(a);
    owned := a[..];
  }
}
