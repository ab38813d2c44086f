/**
 * Python's `sorted`/`list.sort` with a key: a stable sort. A descending sort
 * (`reverse=True`) keeps equal elements in their original order too, so it is
 * the ascending stable sort on the negated key.
 */
module Sorting {
  predicate SortedBy<T>(xs: seq<T>, key: T -> real) {
    forall i, j :: 0 <= i < j < |xs| ==> key(xs[i]) <= key(xs[j])
  }

  /** Insert `x` after every element whose key is not greater than its own. */
  function Insert<T>(x: T, ys: seq<T>, key: T -> real): (r: seq<T>)
    ensures |r| == |ys| + 1
    ensures multiset(r) == multiset(ys) + multiset{x}
  {
    if ys == [] then [x]
    else if key(ys[0]) <= key(x) then
      assert ys == [ys[0]] + ys[1..];
      [ys[0]] + Insert(x, ys[1..], key)
    else [x] + ys
  }

  /** `sorted(xs, key=key)`. */
  function SortBy<T>(xs: seq<T>, key: T -> real): (r: seq<T>)
    ensures |r| == |xs|
    ensures multiset(r) == multiset(xs)
  {
    if xs == [] then []
    else
      assert xs == xs[..|xs| - 1] + [xs[|xs| - 1]];
      Insert(xs[|xs| - 1], SortBy(xs[..|xs| - 1], key), key)
  }

  /** The elements of `xs` whose key is `v`, in order. */
  function WithKey<T>(xs: seq<T>, key: T -> real, v: real): seq<T>
  {
    if xs == [] then []
    else (if key(xs[0]) == v then [xs[0]] else []) + WithKey(xs[1..], key, v)
  }

  lemma {:induction false} WithKeyAppend<T>(xs: seq<T>, ys: seq<T>, key: T -> real, v: real)
    ensures WithKey(xs + ys, key, v) == WithKey(xs, key, v) + WithKey(ys, key, v)
  {
    if xs != [] {
      assert (xs + ys)[1..] == xs[1..] + ys;
      WithKeyAppend(xs[1..], ys, key, v);
    } else {
      assert xs + ys == ys;
    }
  }

  lemma {:induction false} InsertSorted<T>(x: T, ys: seq<T>, key: T -> real)
    requires SortedBy(ys, key)
    ensures SortedBy(Insert(x, ys, key), key)
    ensures ys != [] ==> Insert(x, ys, key)[0] == x || Insert(x, ys, key)[0] == ys[0]
  {
    if ys != [] && key(ys[0]) <= key(x) {
      var r := Insert(x, ys, key);
      var tail := Insert(x, ys[1..], key);
      InsertSorted(x, ys[1..], key);
      assert r[1..] == tail;
      forall i, j | 0 <= i < j < |r|
        ensures key(r[i]) <= key(r[j])
      {
        if i == 0 && j > 1 {
          assert key(r[0]) <= key(r[1]);
          assert key(tail[0]) <= key(tail[j - 1]);
        }
      }
    }
  }

  lemma {:induction false} InsertWithKey<T>(x: T, ys: seq<T>, key: T -> real, v: real)
    requires SortedBy(ys, key)
    ensures WithKey(Insert(x, ys, key), key, v) == WithKey(ys + [x], key, v)
  {
    if ys != [] {
      if key(ys[0]) <= key(x) {
        var tail := ys[1..];
        assert SortedBy(tail, key) by {
          forall i, j | 0 <= i < j < |tail| ensures key(tail[i]) <= key(tail[j]) {
            assert tail[i] == ys[i + 1] && tail[j] == ys[j + 1];
          }
        }
        InsertWithKey(x, tail, key, v);
        assert Insert(x, ys, key) == [ys[0]] + Insert(x, tail, key);
        assert (ys + [x])[0] == ys[0] && (ys + [x])[1..] == tail + [x];
      } else {
        // every element of ys has a larger key than x, so at most one side lists any
        assert Insert(x, ys, key) == [x] + ys;
        WithKeyAppend([x], ys, key, v);
        WithKeyAppend(ys, [x], key, v);
        assert WithKey([x], key, v) == (if key(x) == v then [x] else []) by {
          assert [x][1..] == [];
        }
        if key(x) == v {
          forall i | 0 <= i < |ys| ensures key(ys[i]) != v {
            if i > 0 {
              assert key(ys[0]) <= key(ys[i]);
            }
          }
          WithKeyNone(ys, key, v);
        }
      }
    }
  }

  lemma {:induction false} WithKeyNone<T>(ys: seq<T>, key: T -> real, v: real)
    requires forall i :: 0 <= i < |ys| ==> key(ys[i]) != v
    ensures WithKey(ys, key, v) == []
  {
    if ys != [] {
      WithKeyNone(ys[1..], key, v);
    }
  }

  /** The result is in key order. */
  lemma {:induction false} SortBySorted<T>(xs: seq<T>, key: T -> real)
    ensures SortedBy(SortBy(xs, key), key)
  {
    if xs != [] {
      SortBySorted(xs[..|xs| - 1], key);
      InsertSorted(xs[|xs| - 1], SortBy(xs[..|xs| - 1], key), key);
    }
  }

  /** Stability: the elements sharing a key keep their relative order. */
  lemma {:induction false} SortByStable<T>(xs: seq<T>, key: T -> real, v: real)
    ensures WithKey(SortBy(xs, key), key, v) == WithKey(xs, key, v)
  {
    if xs != [] {
      var init := xs[..|xs| - 1];
      var x := xs[|xs| - 1];
      SortByStable(init, key, v);
      SortBySorted(init, key);
      InsertWithKey(x, SortBy(init, key), key, v);
      WithKeyAppend(SortBy(init, key), [x], key, v);
      WithKeyAppend(init, [x], key, v);
      assert xs == init + [x];
    }
  }

  /** The first `n` elements (`xs[:n]`). */
  function Take<T>(xs: seq<T>, n: nat): (r: seq<T>)
    ensures |r| == if n <= |xs| then n else |xs|
    ensures forall i :: 0 <= i < |r| ==> r[i] == xs[i]
  {
    if n <= |xs| then xs[..n] else xs
  }

  /**
   * The first `n` of a sorted sequence are among the smallest keys: an
   * element left out has a key no smaller than any element kept.
   */
  lemma TakeSortedSmallest<T>(xs: seq<T>, key: T -> real, n: nat)
    ensures forall t :: t in Take(SortBy(xs, key), n) ==> t in xs
    ensures forall i, j :: 0 <= i < j < |Take(SortBy(xs, key), n)| ==>
      key(Take(SortBy(xs, key), n)[i]) <= key(Take(SortBy(xs, key), n)[j])
    ensures forall p, t :: p in xs && t in Take(SortBy(xs, key), n) && p !in Take(SortBy(xs, key), n) ==> key(t) <= key(p)
  {
    var sorted := SortBy(xs, key);
    var top := Take(sorted, n);
    SortBySorted(xs, key);
    forall t | t in top ensures t in xs {
      assert t in multiset(sorted);
    }
    forall p, t | p in xs && t in top && p !in top ensures key(t) <= key(p) {
      assert p in multiset(sorted);
      var j :| 0 <= j < |sorted| && sorted[j] == p;
      var i :| 0 <= i < |top| && top[i] == t;
      if j < |top| {
        assert false;
      } else {
        assert key(sorted[i]) <= key(sorted[j]);
      }
    }
  }
}
