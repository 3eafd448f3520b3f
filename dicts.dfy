/**
 * A JavaScript plain object used as a dictionary. Its `for ... in` loops, `_.keys`
 * and `Object.entries` visit string keys in insertion order, so the model keeps the
 * entries as a sequence of pairs: assigning an existing key replaces its value in
 * place, assigning a new key appends it, and `delete` removes it.
 */
module Dicts {
  import opened Wrappers

  type Dict<V> = seq<(string, V)>

  /** The keys of `d` in iteration order (`_.keys`, `for ... in`). */
  function Keys<V>(d: Dict<V>): (ks: seq<string>)
    ensures |ks| == |d|
    ensures forall i {:trigger ks[i]} :: 0 <= i < |d| ==> ks[i] == d[i].0
  {
    if d == [] then [] else [d[0].0] + Keys(d[1..])
  }

  /** No key occurs twice: true of every dictionary built by `Set` and `Delete`. */
  predicate NoDup(ks: seq<string>) {
    ks == [] || (ks[0] !in ks[1..] && NoDup(ks[1..]))
  }

  predicate Unique<V>(d: Dict<V>) {
    NoDup(Keys(d))
  }

  /** `d[k]`: the value stored under `k`, or `None` (JavaScript's `undefined`). */
  function Get<V>(d: Dict<V>, k: string): (r: Option<V>)
    ensures r.Some? <==> k in Keys(d)
    ensures r.Some? ==> (k, r.value) in d
  {
    if d == [] then None
    else if d[0].0 == k then Some(d[0].1)
    else Get(d[1..], k)
  }

  /** `d[k] = v`: an existing key keeps its position, a new key goes last. */
  function Set<V>(d: Dict<V>, k: string, v: V): (r: Dict<V>)
    ensures Keys(r) == if k in Keys(d) then Keys(d) else Keys(d) + [k]
    ensures Get(r, k) == Some(v)
    ensures forall k' :: k' != k ==> Get(r, k') == Get(d, k')
  {
    if d == [] then [(k, v)]
    else if d[0].0 == k then [(k, v)] + d[1..]
    else
      var rest := Set(d[1..], k, v);
      assert Keys([d[0]] + rest) == [d[0].0] + Keys(rest);
      [d[0]] + rest
  }

  /** `delete d[k]`: every other key keeps its value and its relative order. */
  function Delete<V>(d: Dict<V>, k: string): (r: Dict<V>)
    ensures k !in Keys(r)
    ensures forall x :: x in Keys(r) <==> x in Keys(d) && x != k
    ensures forall k' :: k' != k ==> Get(r, k') == Get(d, k')
    ensures k !in Keys(d) ==> r == d
    ensures |r| <= |d|
    ensures forall p :: p in r ==> p in d
    ensures KeepsOrder(r, d)
  {
    if d == [] then []
    else
      var rest := Delete(d[1..], k);
      assert d == [d[0]] + d[1..];
      if d[0].0 == k then
        KeepsOrderSkip(d[0], rest, d[1..]);
        rest
      else
        assert Keys([d[0]] + rest) == [d[0].0] + Keys(rest);
        KeepsOrderCons(d[0], rest, d[1..]);
        [d[0]] + rest
  }

  /** `a` occurs in `d` at some position before an occurrence of `b`. */
  ghost predicate Before<T>(d: seq<T>, a: T, b: T) {
    exists p, q :: 0 <= p < q < |d| && d[p] == a && d[q] == b
  }

  /** Any two entries of `r` occur in `d` in the same relative order. */
  ghost predicate KeepsOrder<T>(r: seq<T>, d: seq<T>) {
    forall i, j :: 0 <= i < j < |r| ==> Before(d, r[i], r[j])
  }

  lemma KeepsOrderSkip<T>(x: T, r: seq<T>, d: seq<T>)
    requires KeepsOrder(r, d)
    ensures KeepsOrder(r, [x] + d)
  {
    var d' := [x] + d;
    forall i, j | 0 <= i < j < |r|
      ensures Before(d', r[i], r[j])
    {
      var p, q :| 0 <= p < q < |d| && d[p] == r[i] && d[q] == r[j];
      assert d'[p + 1] == r[i] && d'[q + 1] == r[j];
    }
  }

  lemma KeepsOrderCons<T>(x: T, r: seq<T>, d: seq<T>)
    requires KeepsOrder(r, d)
    requires forall e :: e in r ==> e in d
    ensures KeepsOrder([x] + r, [x] + d)
  {
    var r', d' := [x] + r, [x] + d;
    forall i, j | 0 <= i < j < |r'|
      ensures Before(d', r'[i], r'[j])
    {
      assert r'[j] == r[j - 1];
      if i == 0 {
        assert r[j - 1] in d;
        var q :| 0 <= q < |d| && d[q] == r[j - 1];
        assert d'[0] == r'[0] && d'[q + 1] == r'[j];
      } else {
        assert r'[i] == r[i - 1];
        var p, q :| 0 <= p < q < |d| && d[p] == r[i - 1] && d[q] == r[j - 1];
        assert d'[p + 1] == r'[i] && d'[q + 1] == r'[j];
      }
    }
  }

  /** Deleting twice is deleting once. */
  lemma DeleteIdempotent<V>(d: Dict<V>, k: string)
    ensures Delete(Delete(d, k), k) == Delete(d, k)
  {
  }

  /** `d[k] = v` adds no entry but `(k, v)`. */
  lemma {:induction false} SetEntries<V>(d: Dict<V>, k: string, v: V)
    ensures forall p :: p in Set(d, k, v) ==> p == (k, v) || p in d
  {
    if d != [] && d[0].0 != k {
      SetEntries(d[1..], k, v);
      assert Set(d, k, v) == [d[0]] + Set(d[1..], k, v);
    }
  }

  /** Assigning a key twice is assigning the second value. */
  lemma {:induction false} SetTwice<V>(d: Dict<V>, k: string, v: V, w: V)
    ensures Set(Set(d, k, v), k, w) == Set(d, k, w)
  {
    if d != [] && d[0].0 != k {
      SetTwice(d[1..], k, v, w);
      assert Set(d, k, v) == [d[0]] + Set(d[1..], k, v);
      assert Set(d, k, v)[1..] == Set(d[1..], k, v);
    }
  }

  /** Assigning a key keeps the keys distinct. */
  lemma {:induction false} SetUnique<V>(d: Dict<V>, k: string, v: V)
    requires Unique(d)
    ensures Unique(Set(d, k, v))
  {
    if d != [] && d[0].0 != k {
      SetUnique(d[1..], k, v);
      var rest := Set(d[1..], k, v);
      assert Keys([d[0]] + rest) == [d[0].0] + Keys(rest);
    }
  }

  /** Deleting a key keeps the keys distinct. */
  lemma {:induction false} DeleteUnique<V>(d: Dict<V>, k: string)
    requires Unique(d)
    ensures Unique(Delete(d, k))
  {
    if d != [] {
      DeleteUnique(d[1..], k);
      if d[0].0 != k {
        var rest := Delete(d[1..], k);
        assert Keys([d[0]] + rest) == [d[0].0] + Keys(rest);
      }
    }
  }
}
