/** Python's `sorted(xs, key=..., reverse=True)` for integer-pair keys: a stable sort into
    descending key order (`reverse=True` keeps equal elements in their original order). */
module Sorting {

  /** Lexicographic `>=` on pairs, as Python compares tuples. */
  predicate KeyGe(a: (int, int), b: (int, int)) {
    a.0 > b.0 || (a.0 == b.0 && a.1 >= b.1)
  }

  predicate SortedDesc<T>(xs: seq<T>, key: T -> (int, int)) {
    forall i, j :: 0 <= i < j < |xs| ==> KeyGe(key(xs[i]), key(xs[j]))
  }

  /** Places `x` in front of the first element whose key it is at least. */
  function Insert<T>(x: T, xs: seq<T>, key: T -> (int, int)): (r: seq<T>)
    ensures multiset(r) == multiset(xs) + multiset{x}
    ensures |r| == |xs| + 1
  {
    if xs == [] || KeyGe(key(x), key(xs[0])) then [x] + xs
    else
      assert xs == [xs[0]] + xs[1..];
      [xs[0]] + Insert(x, xs[1..], key)
  }

  lemma {:induction false} InsertSorted<T>(x: T, xs: seq<T>, key: T -> (int, int))
    requires SortedDesc(xs, key)
    ensures SortedDesc(Insert(x, xs, key), key)
    ensures Insert(x, xs, key) != [] && (Insert(x, xs, key)[0] == x || Insert(x, xs, key)[0] == xs[0])
  {
    if xs == [] || KeyGe(key(x), key(xs[0])) {
      var r := [x] + xs;
      forall i, j | 0 <= i < j < |r| ensures KeyGe(key(r[i]), key(r[j])) {
        if i == 0 && j > 1 {
          assert KeyGe(key(xs[0]), key(xs[j - 1]));
        }
      }
    } else {
      var tail := xs[1..];
      assert SortedDesc(tail, key);
      InsertSorted(x, tail, key);
      var r := [xs[0]] + Insert(x, tail, key);
      var t := Insert(x, tail, key);
      forall i, j | 0 <= i < j < |r| ensures KeyGe(key(r[i]), key(r[j])) {
        if i == 0 {
          assert r[j] in multiset(t);
          assert r[j] == x || r[j] in multiset(tail);
          if r[j] != x {
            var k :| 0 <= k < |tail| && tail[k] == r[j];
            assert KeyGe(key(xs[0]), key(xs[k + 1]));
          }
        }
      }
    }
  }

  /** `sorted(xs, key=key, reverse=True)` */
  function SortDesc<T>(xs: seq<T>, key: T -> (int, int)): (r: seq<T>)
    ensures multiset(r) == multiset(xs)
    ensures |r| == |xs|
  {
    if xs == [] then []
    else
      assert xs == [xs[0]] + xs[1..];
      Insert(xs[0], SortDesc(xs[1..], key), key)
  }

  /** The result is in descending key order. */
  lemma {:induction false} SortDescSorted<T>(xs: seq<T>, key: T -> (int, int))
    ensures SortedDesc(SortDesc(xs, key), key)
  {
    if xs != [] {
      SortDescSorted(xs[1..], key);
      InsertSorted(xs[0], SortDesc(xs[1..], key), key);
    }
  }

  /** The elements of `xs` with key `k`, in order. */
  function WithKey<T>(xs: seq<T>, key: T -> (int, int), k: (int, int)): seq<T> {
    if xs == [] then [] else (if key(xs[0]) == k then [xs[0]] else []) + WithKey(xs[1..], key, k)
  }

  lemma {:induction false} InsertStable<T>(x: T, xs: seq<T>, key: T -> (int, int), k: (int, int))
    requires SortedDesc(xs, key)
    ensures WithKey(Insert(x, xs, key), key, k) == (if key(x) == k then [x] else []) + WithKey(xs, key, k)
  {
    if xs == [] || KeyGe(key(x), key(xs[0])) {
      assert ([x] + xs)[1..] == xs;
    } else {
      var tail := xs[1..];
      assert SortedDesc(tail, key);
      InsertStable(x, tail, key, k);
      assert ([xs[0]] + Insert(x, tail, key))[1..] == Insert(x, tail, key);
      if key(x) == k {
        // x's key is strictly below xs[0]'s, so xs[0] is not among the elements with key k
        assert key(xs[0]) != k;
      }
    }
  }

  /** Stability: the elements sharing any one key keep their original relative order. */
  lemma {:induction false} SortDescStable<T>(xs: seq<T>, key: T -> (int, int), k: (int, int))
    ensures WithKey(SortDesc(xs, key), key, k) == WithKey(xs, key, k)
  {
    if xs != [] {
      SortDescStable(xs[1..], key, k);
      SortDescSorted(xs[1..], key);
      InsertStable(xs[0], SortDesc(xs[1..], key), key, k);
    }
  }

  /** A prefix of a descending sequence is descending. */
  lemma {:induction false} TakeSorted<T>(xs: seq<T>, key: T -> (int, int), n: nat)
    requires n <= |xs| && SortedDesc(xs, key)
    ensures SortedDesc(xs[..n], key)
  {
    var p := xs[..n];
    forall i, j | 0 <= i < j < |p| ensures KeyGe(key(p[i]), key(p[j])) {
      assert p[i] == xs[i] && p[j] == xs[j];
    }
  }
}
