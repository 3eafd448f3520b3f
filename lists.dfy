/** Sequence helpers shared by the modules: lodash's `_.uniqBy` and `_.uniq`. */
module Lists {

  /** `s.map(f)` for a projection `f`. */
  function Project<T, K>(s: seq<T>, f: T -> K): (r: seq<K>)
    ensures |r| == |s|
    ensures forall i :: 0 <= i < |s| ==> r[i] == f(s[i])
  {
    seq(|s|, i requires 0 <= i < |s| => f(s[i]))
  }

  /** Projecting a prefix and its last element. */
  lemma ProjectLast<T, K>(s: seq<T>, f: T -> K)
    requires s != []
    ensures Project(s, f) == Project(s[..|s| - 1], f) + [f(s[|s| - 1])]
  {
    var r := Project(s[..|s| - 1], f) + [f(s[|s| - 1])];
    assert |r| == |s|;
    forall i | 0 <= i < |s|
      ensures Project(s, f)[i] == r[i]
    {
      if i < |s| - 1 {
        assert r[i] == Project(s[..|s| - 1], f)[i];
      }
    }
  }

  /** Projecting a non-empty sequence: its head's projection, then the rest's. */
  lemma ProjectCons<T, K>(s: seq<T>, f: T -> K)
    requires s != []
    ensures Project(s, f) == [f(s[0])] + Project(s[1..], f)
  {
    assert Project(s, f) == [f(s[0])] + Project(s[1..], f);
  }

  /** No two elements share a projection. */
  predicate DistinctBy<T, K(==)>(s: seq<T>, f: T -> K) {
    forall i, j :: 0 <= i < j < |s| ==> f(s[i]) != f(s[j])
  }

  /** The first element of `s` whose projection is `k`. */
  function First<T, K(==)>(s: seq<T>, f: T -> K, k: K): (x: T)
    requires k in Project(s, f)
    ensures x in s && f(x) == k
  {
    if f(s[0]) == k then s[0]
    else
      ProjectCons(s, f);
      First(s[1..], f, k)
  }

  /** The position of the first element of `s` whose projection is `k`. */
  function FirstIndex<T, K(==)>(s: seq<T>, f: T -> K, k: K): (i: nat)
    requires k in Project(s, f)
    ensures i < |s| && f(s[i]) == k
  {
    if f(s[0]) == k then 0
    else
      ProjectCons(s, f);
      1 + FirstIndex(s[1..], f, k)
  }

  /** No earlier element has projection `k`. */
  lemma {:induction false} FirstIndexMin<T, K>(s: seq<T>, f: T -> K, k: K)
    requires k in Project(s, f)
    ensures forall j :: 0 <= j < FirstIndex(s, f, k) ==> f(s[j]) != k
  {
    if f(s[0]) != k {
      FirstIndexTail(s, f, k);
      FirstIndexMin(s[1..], f, k);
      forall j | 1 <= j < FirstIndex(s, f, k) ensures f(s[j]) != k {
        assert s[j] == s[1..][j - 1];
      }
    }
  }

  /** The position of the first occurrence of `x` in `s`. */
  function Position<T(==)>(s: seq<T>, x: T): (i: nat)
    requires x in s
    ensures i < |s| && s[i] == x && x !in s[..i]
  {
    if s[0] == x then 0
    else
      var i := Position(s[1..], x);
      assert s[..i + 1] == [s[0]] + s[1..][..i];
      i + 1
  }

  /**
   * `_.uniqBy(s, f)`: the elements of `s` in order, dropping every element whose
   * projection was already seen.
   */
  function UniqBy<T, K(==)>(s: seq<T>, f: T -> K): (r: seq<T>)
    ensures DistinctBy(r, f)
    ensures forall i :: 0 <= i < |r| ==> r[i] in s
    ensures forall i :: 0 <= i < |s| ==> f(s[i]) in Project(r, f)
    ensures InFirstOrder(r, s, f)
    ensures forall i :: 0 <= i < |r| ==> r[i] == First(s, f, f(r[i]))
    ensures s != [] ==> r != [] && r[0] == s[0]
  {
    var r := UniqAfter(s, f, {});
    UniqAfterOrdered(s, f, {});
    assert forall i :: 0 <= i < |r| ==> r[i] == First(s, f, f(r[i])) by {
      forall i | 0 <= i < |r| ensures f(r[i]) in Project(s, f) && r[i] == First(s, f, f(r[i])) {
        UniqAfterFirst(s, f, {}, i);
      }
    }
    r
  }

  function UniqAfter<T, K(==)>(s: seq<T>, f: T -> K, seen: set<K>): (r: seq<T>)
    ensures DistinctBy(r, f)
    ensures forall i :: 0 <= i < |r| ==> r[i] in s && f(r[i]) !in seen
    ensures forall i :: 0 <= i < |s| ==> f(s[i]) in seen || f(s[i]) in Project(r, f)
  {
    if s == [] then []
    else if f(s[0]) in seen then
      var r := UniqAfter(s[1..], f, seen);
      UniqAfterSkipStep(s, f, seen, r);
      r
    else
      var tail := UniqAfter(s[1..], f, seen + {f(s[0])});
      UniqAfterKeepStep(s, f, seen, tail);
      [s[0]] + tail
  }

  /** The contract of `UniqAfter` carries over a skipped head. */
  lemma UniqAfterSkipStep<T, K>(s: seq<T>, f: T -> K, seen: set<K>, r: seq<T>)
    requires s != [] && f(s[0]) in seen
    requires forall i :: 0 <= i < |r| ==> r[i] in s[1..] && f(r[i]) !in seen
    requires forall i :: 0 <= i < |s[1..]| ==> f(s[1..][i]) in seen || f(s[1..][i]) in Project(r, f)
    ensures forall i :: 0 <= i < |r| ==> r[i] in s
    ensures forall i :: 0 <= i < |s| ==> f(s[i]) in seen || f(s[i]) in Project(r, f)
  {
    forall i | 1 <= i < |s| ensures f(s[i]) in seen || f(s[i]) in Project(r, f) {
      assert s[i] == s[1..][i - 1];
    }
  }

  /** The contract of `UniqAfter` carries over a kept head. */
  lemma UniqAfterKeepStep<T, K>(s: seq<T>, f: T -> K, seen: set<K>, tail: seq<T>)
    requires s != [] && f(s[0]) !in seen
    requires DistinctBy(tail, f)
    requires forall i :: 0 <= i < |tail| ==> tail[i] in s[1..] && f(tail[i]) !in seen + {f(s[0])}
    requires forall i :: 0 <= i < |s[1..]| ==> f(s[1..][i]) in seen + {f(s[0])} || f(s[1..][i]) in Project(tail, f)
    ensures DistinctBy([s[0]] + tail, f)
    ensures forall i :: 0 <= i < |[s[0]] + tail| ==> ([s[0]] + tail)[i] in s && f(([s[0]] + tail)[i]) !in seen
    ensures forall i :: 0 <= i < |s| ==> f(s[i]) in seen || f(s[i]) in Project([s[0]] + tail, f)
  {
    KeepStepMembers(s, f, seen, tail);
    KeepStepCovers(s, f, seen, tail);
  }

  /** Membership and distinctness part of `UniqAfterKeepStep`. */
  lemma KeepStepMembers<T, K>(s: seq<T>, f: T -> K, seen: set<K>, tail: seq<T>)
    requires s != [] && f(s[0]) !in seen
    requires DistinctBy(tail, f)
    requires forall i :: 0 <= i < |tail| ==> tail[i] in s[1..] && f(tail[i]) !in seen + {f(s[0])}
    ensures DistinctBy([s[0]] + tail, f)
    ensures forall i :: 0 <= i < |[s[0]] + tail| ==> ([s[0]] + tail)[i] in s && f(([s[0]] + tail)[i]) !in seen
  {
    var r := [s[0]] + tail;
    forall i | 0 <= i < |r| ensures r[i] in s && f(r[i]) !in seen {
      if i > 0 {
        assert r[i] == tail[i - 1];
        var k :| 0 <= k < |s[1..]| && s[1..][k] == tail[i - 1];
        assert s[k + 1] == r[i];
      }
    }
    forall i, j | 0 <= i < j < |r| ensures f(r[i]) != f(r[j]) {
      assert r[j] == tail[j - 1];
      if i > 0 {
        assert r[i] == tail[i - 1];
      }
    }
  }

  /** Coverage part of `UniqAfterKeepStep`. */
  lemma KeepStepCovers<T, K>(s: seq<T>, f: T -> K, seen: set<K>, tail: seq<T>)
    requires s != []
    requires forall i :: 0 <= i < |s[1..]| ==> f(s[1..][i]) in seen + {f(s[0])} || f(s[1..][i]) in Project(tail, f)
    ensures forall i :: 0 <= i < |s| ==> f(s[i]) in seen || f(s[i]) in Project([s[0]] + tail, f)
  {
    var r := [s[0]] + tail;
    ProjectCons(r, f);
    assert r[1..] == tail;
    var p := Project(r, f);
    assert p == [f(s[0])] + Project(tail, f);
    assert f(s[0]) == p[0];
    forall i | 0 <= i < |s| ensures f(s[i]) in seen || f(s[i]) in p {
      if i > 0 {
        assert s[i] == s[1..][i - 1];
        if f(s[i]) in Project(tail, f) {
          var k :| 0 <= k < |Project(tail, f)| && Project(tail, f)[k] == f(s[i]);
          assert p[k + 1] == f(s[i]);
        }
      }
    }
  }

  /** The kept element at `i` is the first element of `s` with its projection. */
  lemma {:induction false} UniqAfterFirst<T, K>(s: seq<T>, f: T -> K, seen: set<K>, i: nat)
    requires i < |UniqAfter(s, f, seen)|
    ensures var r := UniqAfter(s, f, seen);
      f(r[i]) in Project(s, f) && r[i] == First(s, f, f(r[i]))
  {
    var r := UniqAfter(s, f, seen);
    if f(s[0]) in seen {
      var tail := UniqAfter(s[1..], f, seen);
      assert r == tail;
      UniqAfterFirst(s[1..], f, seen, i);
      FirstTail(s, f, f(tail[i]));
    } else {
      var tail := UniqAfter(s[1..], f, seen + {f(s[0])});
      assert r == [s[0]] + tail;
      if i == 0 {
        FirstHead(s, f);
      } else {
        assert r[i] == tail[i - 1];
        UniqAfterFirst(s[1..], f, seen + {f(s[0])}, i - 1);
        FirstTail(s, f, f(tail[i - 1]));
      }
    }
  }

  /** The head is the first element with its own projection. */
  lemma FirstHead<T, K>(s: seq<T>, f: T -> K)
    requires s != []
    ensures f(s[0]) in Project(s, f) && First(s, f, f(s[0])) == s[0]
  {
    assert Project(s, f)[0] == f(s[0]);
  }

  /** A projection other than the head's is first found in the rest. */
  lemma FirstTail<T, K>(s: seq<T>, f: T -> K, k: K)
    requires s != [] && k in Project(s[1..], f) && f(s[0]) != k
    ensures k in Project(s, f) && First(s, f, k) == First(s[1..], f, k)
  {
    ProjectCons(s, f);
  }

  /** The projections of `r` occur in `s`, in the order of their first occurrences there. */
  predicate InFirstOrder<T, K(==)>(r: seq<T>, s: seq<T>, f: T -> K) {
    && (forall i :: 0 <= i < |r| ==> f(r[i]) in Project(s, f))
    && (forall i, j :: 0 <= i < j < |r| ==> FirstIndex(s, f, f(r[i])) < FirstIndex(s, f, f(r[j])))
  }

  /** A projection other than the head's is first found one step further in. */
  lemma FirstIndexTail<T, K>(s: seq<T>, f: T -> K, k: K)
    requires s != [] && k in Project(s, f) && f(s[0]) != k
    ensures k in Project(s[1..], f) && FirstIndex(s, f, k) == 1 + FirstIndex(s[1..], f, k)
  {
    ProjectCons(s, f);
  }

  /** Putting `x` in front of `t` shifts the first occurrence of any other projection by one. */
  lemma FirstIndexShift<T, K>(x: T, t: seq<T>, f: T -> K, k: K)
    requires k in Project(t, f) && k != f(x)
    ensures k in Project([x] + t, f) && FirstIndex([x] + t, f, k) == 1 + FirstIndex(t, f, k)
  {
    var s := [x] + t;
    assert s[1..] == t;
    ProjectCons(s, f);
    FirstIndexTail(s, f, k);
  }

  /** Putting an element in front of `t` keeps the order of the first occurrences found in `t`. */
  lemma InFirstOrderSkip<T, K>(x: T, r: seq<T>, t: seq<T>, f: T -> K)
    requires InFirstOrder(r, t, f)
    requires forall i :: 0 <= i < |r| ==> f(r[i]) != f(x)
    ensures InFirstOrder(r, [x] + t, f)
  {
    var s := [x] + t;
    forall i | 0 <= i < |r| ensures f(r[i]) in Project(s, f) {
      FirstIndexShift(x, t, f, f(r[i]));
    }
    forall i, j | 0 <= i < j < |r|
      ensures FirstIndex(s, f, f(r[i])) < FirstIndex(s, f, f(r[j]))
    {
      FirstIndexShift(x, t, f, f(r[i]));
      FirstIndexShift(x, t, f, f(r[j]));
    }
  }

  /** The head's projection is first found at position 0. */
  lemma FirstIndexHead<T, K>(s: seq<T>, f: T -> K)
    requires s != []
    ensures f(s[0]) in Project(s, f) && FirstIndex(s, f, f(s[0])) == 0
  {
    assert Project(s, f)[0] == f(s[0]);
  }

  /** Prepending an element whose projection the rest lacks keeps the order. */
  lemma InFirstOrderCons<T, K>(x: T, r: seq<T>, t: seq<T>, f: T -> K)
    requires InFirstOrder(r, t, f)
    requires forall i :: 0 <= i < |r| ==> f(r[i]) != f(x)
    ensures InFirstOrder([x] + r, [x] + t, f)
  {
    ConsFound(x, r, t, f);
    ConsOrdered(x, r, t, f);
  }

  /** Found part of `InFirstOrderCons`. */
  lemma ConsFound<T, K>(x: T, r: seq<T>, t: seq<T>, f: T -> K)
    requires forall i :: 0 <= i < |r| ==> f(r[i]) in Project(t, f)
    requires forall i :: 0 <= i < |r| ==> f(r[i]) != f(x)
    ensures forall i :: 0 <= i < |[x] + r| ==> f(([x] + r)[i]) in Project([x] + t, f)
  {
    var s, r' := [x] + t, [x] + r;
    FirstIndexHead(s, f);
    forall i | 0 <= i < |r'|
      ensures f(r'[i]) in Project(s, f)
    {
      if i > 0 {
        assert r'[i] == r[i - 1];
        FirstIndexShift(x, t, f, f(r[i - 1]));
      }
    }
  }

  /** Order part of `InFirstOrderCons`. */
  lemma ConsOrdered<T, K>(x: T, r: seq<T>, t: seq<T>, f: T -> K)
    requires InFirstOrder(r, t, f)
    requires forall i :: 0 <= i < |r| ==> f(r[i]) != f(x)
    ensures forall i :: 0 <= i < |[x] + r| ==> f(([x] + r)[i]) in Project([x] + t, f)
    ensures forall i, j :: 0 <= i < j < |[x] + r| ==>
      FirstIndex([x] + t, f, f(([x] + r)[i])) < FirstIndex([x] + t, f, f(([x] + r)[j]))
  {
    var s, r' := [x] + t, [x] + r;
    ConsFound(x, r, t, f);
    FirstIndexHead(s, f);
    forall i, j | 0 <= i < j < |r'|
      ensures FirstIndex(s, f, f(r'[i])) < FirstIndex(s, f, f(r'[j]))
    {
      assert r'[j] == r[j - 1];
      FirstIndexShift(x, t, f, f(r[j - 1]));
      if i > 0 {
        assert r'[i] == r[i - 1];
        FirstIndexShift(x, t, f, f(r[i - 1]));
      }
    }
  }

  /** The kept elements appear in the order of their projections' first occurrences in `s`. */
  lemma {:induction false} UniqAfterOrdered<T, K>(s: seq<T>, f: T -> K, seen: set<K>)
    ensures InFirstOrder(UniqAfter(s, f, seen), s, f)
  {
    if s != [] {
      var t := s[1..];
      assert s == [s[0]] + t;
      var seen' := if f(s[0]) in seen then seen else seen + {f(s[0])};
      UniqAfterOrdered(t, f, seen');
      if f(s[0]) in seen {
        InFirstOrderSkip(s[0], UniqAfter(t, f, seen'), t, f);
      } else {
        InFirstOrderCons(s[0], UniqAfter(t, f, seen'), t, f);
      }
    }
  }

  /** `_.uniq(s)`: first occurrences, in order. */
  function Uniq<T(==)>(s: seq<T>): (r: seq<T>)
    ensures forall i, j :: 0 <= i < j < |r| ==> r[i] != r[j]
    ensures forall i :: 0 <= i < |r| ==> r[i] in s
    ensures forall i :: 0 <= i < |s| ==> s[i] in r
    ensures s != [] ==> r != [] && r[0] == s[0]
    ensures forall i, j :: 0 <= i < j < |r| ==> Position(s, r[i]) < Position(s, r[j])
  {
    var id := (x: T) => x;
    var r := UniqBy(s, id);
    assert forall i :: 0 <= i < |s| ==> s[i] in r by {
      forall i | 0 <= i < |s| ensures s[i] in r {
        assert s[i] in Project(r, id);
        var k :| 0 <= k < |r| && Project(r, id)[k] == s[i];
      }
    }
    assert forall i :: 0 <= i < |r| ==> Position(s, r[i]) == FirstIndex(s, id, r[i]) by {
      forall i | 0 <= i < |r| ensures Position(s, r[i]) == FirstIndex(s, id, r[i]) {
        FirstIndexMin(s, id, r[i]);
      }
    }
    r
  }
  /** Nothing is kept from a sequence whose projections were all seen. */
  lemma {:induction false} UniqAfterAllSeen<T, K>(b: seq<T>, f: T -> K, seen: set<K>)
    requires forall i :: 0 <= i < |b| ==> f(b[i]) in seen
    ensures UniqAfter(b, f, seen) == []
  {
    if b != [] {
      UniqAfterAllSeen(b[1..], f, seen);
    }
  }

  /**
   * Deduplicating `a + b` keeps exactly `a` when `a` is already duplicate-free,
   * shares no projection with `seen`, and covers every projection of `b`.
   */
  lemma {:induction false} UniqAfterPrefix<T, K>(a: seq<T>, b: seq<T>, f: T -> K, seen: set<K>)
    requires DistinctBy(a, f)
    requires forall i :: 0 <= i < |a| ==> f(a[i]) !in seen
    requires forall j :: 0 <= j < |b| ==> f(b[j]) in seen || f(b[j]) in Project(a, f)
    ensures UniqAfter(a + b, f, seen) == a
  {
    if a == [] {
      assert a + b == b;
      UniqAfterAllSeen(b, f, seen);
    } else {
      assert (a + b)[0] == a[0];
      assert (a + b)[1..] == a[1..] + b;
      var seen' := seen + {f(a[0])};
      forall j | 0 <= j < |b|
        ensures f(b[j]) in seen' || f(b[j]) in Project(a[1..], f)
      {
        if f(b[j]) !in seen {
          var k :| 0 <= k < |a| && Project(a, f)[k] == f(b[j]);
          if k > 0 {
            assert Project(a[1..], f)[k - 1] == f(b[j]);
          }
        }
      }
      UniqAfterPrefix(a[1..], b, f, seen');
    }
  }

  /** `_.uniqBy(a.concat(b), f)` is `a` when `a` is duplicate-free and covers `b`. */
  lemma UniqByPrefix<T, K>(a: seq<T>, b: seq<T>, f: T -> K)
    requires DistinctBy(a, f)
    requires forall j :: 0 <= j < |b| ==> f(b[j]) in Project(a, f)
    ensures UniqBy(a + b, f) == a
  {
    UniqAfterPrefix(a, b, f, {});
  }
  /** Sequences with the same elements have the same projections. */
  lemma SameProjections<T, K>(a: seq<T>, b: seq<T>, f: T -> K)
    requires forall x :: x in a <==> x in b
    ensures forall k :: k in Project(a, f) <==> k in Project(b, f)
  {
    forall k | k in Project(a, f)
      ensures k in Project(b, f)
    {
      var i :| 0 <= i < |a| && Project(a, f)[i] == k;
      assert a[i] in b;
      var j :| 0 <= j < |b| && b[j] == a[i];
      assert Project(b, f)[j] == k;
    }
    forall k | k in Project(b, f)
      ensures k in Project(a, f)
    {
      var j :| 0 <= j < |b| && Project(b, f)[j] == k;
      assert b[j] in a;
      var i :| 0 <= i < |a| && a[i] == b[j];
      assert Project(a, f)[i] == k;
    }
  }

  /** The first element with a projection found in `a` comes from `a`, whatever follows. */
  lemma {:induction false} FirstOfPrefix<T, K>(a: seq<T>, b: seq<T>, f: T -> K, k: K)
    requires k in Project(a, f)
    ensures k in Project(a + b, f)
    ensures First(a + b, f, k) == First(a, f, k)
  {
    var i :| 0 <= i < |a| && Project(a, f)[i] == k;
    assert Project(a + b, f)[i] == k;
    if f(a[0]) != k {
      assert Project(a[1..], f)[i - 1] == k;
      assert (a + b)[1..] == a[1..] + b;
      FirstOfPrefix(a[1..], b, f, k);
    }
  }

  /** An element whose projection is new is the first with that projection. */
  lemma {:induction false} FirstOfNew<T, K>(a: seq<T>, x: T, f: T -> K)
    requires f(x) !in Project(a, f)
    ensures f(x) in Project(a + [x], f)
    ensures First(a + [x], f, f(x)) == x
  {
    assert Project(a + [x], f)[|a|] == f(x);
    if a != [] {
      assert f(a[0]) == Project(a, f)[0];
      assert (a + [x])[1..] == a[1..] + [x];
      assert forall j :: 0 <= j < |a[1..]| ==> Project(a[1..], f)[j] == Project(a, f)[j + 1];
      FirstOfNew(a[1..], x, f);
    }
  }
}
