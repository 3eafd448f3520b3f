/**
 * Stable sorting by a "comes before" relation. Both sorts of the core are
 * stable: lodash's `_.sortBy` breaks ties by original index, and V8's
 * `Array.prototype.sort` (TimSort) is stable. A stable sort's output is
 * determined by its input, so one definition — insertion sort, inserting each
 * element in front of the first element that does not come before it — stands
 * for both.
 */
module Sorting {
  import opened Lists

  /** `lt` orders by a key: irreflexive, transitive, and "incomparable" is transitive. */
  ghost predicate StrictWeakOrder<T(!new)>(lt: (T, T) -> bool) {
    && (forall a :: !lt(a, a))
    && (forall a, b, c :: lt(a, b) && lt(b, c) ==> lt(a, c))
    && (forall a, b, c :: lt(a, c) ==> lt(a, b) || lt(b, c))
  }

  /** No element comes before one placed ahead of it. */
  ghost predicate Sorted<T>(s: seq<T>, lt: (T, T) -> bool) {
    forall i, j :: 0 <= i < j < |s| ==> !lt(s[j], s[i])
  }

  /** Neither comes before the other: equal sort keys. */
  predicate Tied<T>(a: T, b: T, lt: (T, T) -> bool) {
    !lt(a, b) && !lt(b, a)
  }

  /** The elements of `s` tied with `y`, in their order in `s`. */
  function TiedWith<T>(s: seq<T>, y: T, lt: (T, T) -> bool): seq<T> {
    if s == [] then []
    else (if Tied(s[0], y, lt) then [s[0]] else []) + TiedWith(s[1..], y, lt)
  }

  function Insert<T>(x: T, s: seq<T>, lt: (T, T) -> bool): (r: seq<T>)
    ensures |r| == |s| + 1
    ensures multiset(r) == multiset(s) + multiset{x}
  {
    if s == [] || !lt(s[0], x) then [x] + s
    else
      assert s == [s[0]] + s[1..];
      [s[0]] + Insert(x, s[1..], lt)
  }

  /** The stable sort of `s` by `lt`. */
  function Sort<T>(s: seq<T>, lt: (T, T) -> bool): (r: seq<T>)
    ensures |r| == |s|
    ensures multiset(r) == multiset(s)
  {
    if s == [] then []
    else
      assert s == [s[0]] + s[1..];
      Insert(s[0], Sort(s[1..], lt), lt)
  }

  lemma {:induction false} InsertSorted<T(!new)>(x: T, s: seq<T>, lt: (T, T) -> bool)
    requires StrictWeakOrder(lt)
    requires Sorted(s, lt)
    ensures Sorted(Insert(x, s, lt), lt)
  {
    if s != [] && lt(s[0], x) {
      InsertSorted(x, s[1..], lt);
      var r := Insert(x, s, lt);
      forall j | 0 < j < |r|
        ensures !lt(r[j], s[0])
      {
        assert r[j] in multiset(Insert(x, s[1..], lt));
        assert r[j] in multiset(s[1..]) + multiset{x};
        if r[j] != x {
          var k :| 0 <= k < |s[1..]| && s[1..][k] == r[j];
          assert s[k + 1] == r[j];
        }
      }
    }
  }

  /** The sort puts its input in order. */
  lemma {:induction false} SortSorted<T(!new)>(s: seq<T>, lt: (T, T) -> bool)
    requires StrictWeakOrder(lt)
    ensures Sorted(Sort(s, lt), lt)
  {
    if s != [] {
      SortSorted(s[1..], lt);
      InsertSorted(s[0], Sort(s[1..], lt), lt);
    }
  }

  lemma {:induction false} InsertTied<T(!new)>(x: T, s: seq<T>, y: T, lt: (T, T) -> bool)
    requires StrictWeakOrder(lt)
    ensures TiedWith(Insert(x, s, lt), y, lt)
         == (if Tied(x, y, lt) then [x] else []) + TiedWith(s, y, lt)
  {
    if s == [] || !lt(s[0], x) {
      assert ([x] + s)[1..] == s;
    } else {
      InsertTied(x, s[1..], y, lt);
      var r := Insert(x, s, lt);
      assert r[1..] == Insert(x, s[1..], lt);
      var head := if Tied(s[0], y, lt) then [s[0]] else [];
      var mid := if Tied(x, y, lt) then [x] else [];
      assert TiedWith(r, y, lt) == head + (mid + TiedWith(s[1..], y, lt));
      assert TiedWith(s, y, lt) == head + TiedWith(s[1..], y, lt);
      if Tied(x, y, lt) {
        assert lt(s[0], y) || lt(y, x);
        assert head == [];
      }
    }
  }

  /** Stability: elements with equal keys keep their relative order. */
  lemma {:induction false} SortStable<T(!new)>(s: seq<T>, y: T, lt: (T, T) -> bool)
    requires StrictWeakOrder(lt)
    ensures TiedWith(Sort(s, lt), y, lt) == TiedWith(s, y, lt)
  {
    if s != [] {
      SortStable(s[1..], y, lt);
      InsertTied(s[0], Sort(s[1..], lt), y, lt);
    }
  }

  lemma {:induction false} InsertDistinct<T, K>(x: T, s: seq<T>, lt: (T, T) -> bool, f: T -> K)
    requires DistinctBy(s, f) && f(x) !in Project(s, f)
    ensures DistinctBy(Insert(x, s, lt), f)
  {
    if s != [] && lt(s[0], x) {
      var rest := Insert(x, s[1..], lt);
      assert f(x) !in Project(s[1..], f) by {
        assert Project(s, f) == [f(s[0])] + Project(s[1..], f);
      }
      InsertDistinct(x, s[1..], lt, f);
      forall k | 0 <= k < |rest|
        ensures f(rest[k]) != f(s[0])
      {
        assert rest[k] in multiset(s[1..]) + multiset{x};
        if rest[k] != x {
          assert rest[k] in s[1..];
          var m :| 0 <= m < |s[1..]| && s[1..][m] == rest[k];
          assert s[m + 1] == rest[k];
        } else {
          assert f(s[0]) == Project(s, f)[0];
        }
      }
    }
  }

  /** Sorting never makes two elements share a projection. */
  lemma {:induction false} SortDistinct<T, K>(s: seq<T>, lt: (T, T) -> bool, f: T -> K)
    requires DistinctBy(s, f)
    ensures DistinctBy(Sort(s, lt), f)
  {
    if s != [] {
      var sorted := Sort(s[1..], lt);
      SortDistinct(s[1..], lt, f);
      forall k | 0 <= k < |sorted|
        ensures f(sorted[k]) != f(s[0])
      {
        assert sorted[k] in multiset(s[1..]);
        var m :| 0 <= m < |s[1..]| && s[1..][m] == sorted[k];
        assert s[m + 1] == sorted[k];
      }
      InsertDistinct(s[0], sorted, lt, f);
    }
  }
  /** Sorting keeps exactly the elements it was given, and so their projections. */
  lemma SortMembers<T, K>(s: seq<T>, lt: (T, T) -> bool, f: T -> K)
    ensures forall x :: x in Sort(s, lt) <==> x in s
    ensures forall k :: k in Project(Sort(s, lt), f) <==> k in Project(s, f)
  {
    var r := Sort(s, lt);
    assert forall x :: x in r <==> x in multiset(r);
    assert forall x :: x in s <==> x in multiset(s);
    SameProjections(r, s, f);
  }
}
