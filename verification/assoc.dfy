/**
 * Python dicts as insertion-ordered association lists. Assigning to a key
 * already present keeps its position; a new key goes to the end; `update`
 * assigns every pair of the argument in its order.
 */
module Assoc {
  import opened Wrappers
  import opened Text

  type Dict<K, V> = seq<(K, V)>

  function Keys<K(==), V>(d: Dict<K, V>): (r: seq<K>)
    ensures |r| == |d|
    ensures forall i :: 0 <= i < |d| ==> r[i] == d[i].0
  {
    if d == [] then [] else [d[0].0] + Keys(d[1..])
  }

  function Values<K(==), V>(d: Dict<K, V>): (r: seq<V>)
    ensures |r| == |d|
    ensures forall i :: 0 <= i < |d| ==> r[i] == d[i].1
  {
    if d == [] then [] else [d[0].1] + Values(d[1..])
  }

  /** A well-formed dict: no key twice. */
  predicate DistinctKeys<K(==), V>(d: Dict<K, V>) { NoDup(Keys(d)) }

  predicate HasKey<K(==), V>(d: Dict<K, V>, k: K) { k in Keys(d) }

  /** `d.get(k)`: the value stored under the first pair with key `k`. */
  function Get<K(==), V>(d: Dict<K, V>, k: K): (r: Option<V>)
    ensures r.None? <==> !HasKey(d, k)
  {
    if d == [] then None
    else if d[0].0 == k then Some(d[0].1)
    else
      assert Keys(d) == [d[0].0] + Keys(d[1..]);
      Get(d[1..], k)
  }

  /** `d.get(k, dflt)`. */
  function GetOr<K(==), V>(d: Dict<K, V>, k: K, dflt: V): V
  {
    match Get(d, k)
    case Some(v) => v
    case None => dflt
  }

  /** `d[k] = v`. */
  function Put<K(==), V>(d: Dict<K, V>, k: K, v: V): (r: Dict<K, V>)
    ensures HasKey(d, k) ==> Keys(r) == Keys(d)
    ensures !HasKey(d, k) ==> Keys(r) == Keys(d) + [k]
  {
    if d == [] then [(k, v)]
    else if d[0].0 == k then [(k, v)] + d[1..]
    else
      assert Keys(d) == [d[0].0] + Keys(d[1..]);
      var r := [d[0]] + Put(d[1..], k, v);
      assert Keys(r) == [d[0].0] + Keys(Put(d[1..], k, v));
      r
  }

  /** `d.update(e)`: assign every pair of `e`, in its order. */
  function Update<K(==), V>(d: Dict<K, V>, e: Dict<K, V>): Dict<K, V>
    decreases |e|
  {
    if e == [] then d else Update(Put(d, e[0].0, e[0].1), e[1..])
  }

  lemma {:induction false} GetPut<K, V>(d: Dict<K, V>, k: K, v: V, k': K)
    requires DistinctKeys(d)
    ensures DistinctKeys(Put(d, k, v))
    ensures Get(Put(d, k, v), k') == if k' == k then Some(v) else Get(d, k')
  {
    PutDistinct(d, k, v);
    GetPutAny(d, k, v, k');
  }

  /** Assigning a key keeps the keys distinct. */
  lemma PutDistinct<K, V>(d: Dict<K, V>, k: K, v: V)
    requires DistinctKeys(d)
    ensures DistinctKeys(Put(d, k, v))
  {
    if !HasKey(d, k) {
      var ks := Keys(Put(d, k, v));
      assert ks == Keys(d) + [k];
      forall i, j | 0 <= i < j < |ks| ensures ks[i] != ks[j] {
        if j == |ks| - 1 {
          assert ks[i] in Keys(d);
        }
      }
    }
  }

  /** `d[k] = v` then `d.get(k')`, for any list of pairs. */
  lemma {:induction false} GetPutAny<K, V>(d: Dict<K, V>, k: K, v: V, k': K)
    ensures Get(Put(d, k, v), k') == if k' == k then Some(v) else Get(d, k')
  {
    if d != [] && d[0].0 != k {
      GetPutAny(d[1..], k, v, k');
      assert Put(d, k, v)[0] == d[0];
      assert Put(d, k, v)[1..] == Put(d[1..], k, v);
    } else if d != [] && k' != k {
      assert Put(d, k, v)[1..] == d[1..];
    }
  }

  /** `d[k] = v` then `d.get(k', dflt)`. */
  lemma GetOrPut<K, V>(d: Dict<K, V>, k: K, v: V, k': K, dflt: V)
    ensures GetOr(Put(d, k, v), k', dflt) == if k' == k then v else GetOr(d, k', dflt)
  {
    GetPutAny(d, k, v, k');
  }

  /** Assigning a key twice keeps the second value, in the first one's place. */
  lemma {:induction false} PutPut<K, V>(d: Dict<K, V>, k: K, v1: V, v2: V)
    ensures Put(Put(d, k, v1), k, v2) == Put(d, k, v2)
  {
    if d != [] && d[0].0 != k {
      PutPut(d[1..], k, v1, v2);
      assert Put(d, k, v1)[0] == d[0];
      assert Put(d, k, v1)[1..] == Put(d[1..], k, v1);
    }
  }

  /** Assigning the value a key already has changes nothing. */
  lemma {:induction false} PutSame<K, V>(d: Dict<K, V>, k: K, v: V)
    requires Get(d, k) == Some(v)
    ensures Put(d, k, v) == d
  {
    if d[0].0 != k {
      PutSame(d[1..], k, v);
    }
  }

  /** Assigning one pair is a `Put`. */
  lemma UpdateOne<K, V>(m: Dict<K, V>, k: K, v: V)
    ensures Update(m, [(k, v)]) == Put(m, k, v)
  {
    assert [(k, v)][1..] == [];
  }

  lemma {:induction false} GetUpdate<K, V>(d: Dict<K, V>, e: Dict<K, V>, k: K)
    requires DistinctKeys(d)
    ensures DistinctKeys(Update(d, e))
    ensures Get(Update(d, e), k) == if HasKey(e, k) then LastValue(e, k) else Get(d, k)
    decreases |e|
  {
    if e != [] {
      GetPut(d, e[0].0, e[0].1, k);
      GetUpdate(Put(d, e[0].0, e[0].1), e[1..], k);
      assert Keys(e) == [e[0].0] + Keys(e[1..]);
    }
  }

  /** The value of the last pair of `e` with key `k`: the one an update keeps. */
  function LastValue<K(==), V>(e: Dict<K, V>, k: K): (r: Option<V>)
    ensures r.Some? <==> HasKey(e, k)
    decreases |e|
  {
    if e == [] then None
    else
      assert Keys(e) == [e[0].0] + Keys(e[1..]);
      var rest := LastValue(e[1..], k);
      if rest.Some? then rest else if e[0].0 == k then Some(e[0].1) else None
  }

  /** Updating with `e1 + e2` is updating with `e1`, then with `e2`. */
  lemma {:induction false} UpdateAppend<K, V>(d: Dict<K, V>, e1: Dict<K, V>, e2: Dict<K, V>)
    ensures Update(d, e1 + e2) == Update(Update(d, e1), e2)
    decreases |e1|
  {
    if e1 == [] {
      assert e1 + e2 == e2;
    } else {
      assert (e1 + e2)[1..] == e1[1..] + e2;
      UpdateAppend(Put(d, e1[0].0, e1[0].1), e1[1..], e2);
    }
  }

  /** A key all of whose pairs carry the same value ends with that value. */
  lemma {:induction false} LastValueUniform<K, V>(e: Dict<K, V>, k: K, v: V)
    requires HasKey(e, k)
    requires forall p :: p in e && p.0 == k ==> p.1 == v
    ensures LastValue(e, k) == Some(v)
    decreases |e|
  {
    assert Keys(e) == [e[0].0] + Keys(e[1..]);
    if HasKey(e[1..], k) {
      LastValueUniform(e[1..], k, v);
    } else {
      assert e[0] in e;
    }
  }

  /** A key with a pair in `e` is a key of `e`. */
  lemma PairHasKey<K, V>(e: Dict<K, V>, p: (K, V))
    requires p in e
    ensures HasKey(e, p.0)
  {
    var i :| 0 <= i < |e| && e[i] == p;
    assert Keys(e)[i] == p.0;
  }

  /** A key of `e` has a pair in `e`. */
  lemma KeyHasPair<K, V>(e: Dict<K, V>, k: K)
    requires HasKey(e, k)
    ensures exists p :: p in e && p.0 == k
  {
    var i :| 0 <= i < |Keys(e)| && Keys(e)[i] == k;
    assert e[i] in e;
  }

  /** A pair appended at the end decides its key's last value. */
  lemma {:induction false} LastValueSnoc<K, V>(e: Dict<K, V>, p: (K, V), k: K)
    ensures LastValue(e + [p], k) == if p.0 == k then Some(p.1) else LastValue(e, k)
    decreases |e|
  {
    if e == [] {
      assert (e + [p])[1..] == [];
    } else {
      assert (e + [p])[1..] == e[1..] + [p];
      LastValueSnoc(e[1..], p, k);
    }
  }

  /** The last value of a key is the value of one of its pairs. */
  lemma {:induction false} LastValueIn<K, V>(e: Dict<K, V>, k: K)
    requires LastValue(e, k).Some?
    ensures (k, LastValue(e, k).value) in e
    decreases |e|
  {
    if LastValue(e[1..], k).Some? {
      LastValueIn(e[1..], k);
    }
  }

  /** In a dict without repeated keys the first pair of a key is also its last. */
  lemma {:induction false} GetIsLastValue<K, V>(d: Dict<K, V>, k: K)
    requires DistinctKeys(d)
    ensures Get(d, k) == LastValue(d, k)
    decreases |d|
  {
    if d != [] {
      assert Keys(d) == [d[0].0] + Keys(d[1..]);
      assert DistinctKeys(d[1..]) by {
        var ks := Keys(d[1..]);
        forall i, j | 0 <= i < j < |ks| ensures ks[i] != ks[j] {
          assert ks[i] == Keys(d)[i + 1] && ks[j] == Keys(d)[j + 1];
        }
      }
      GetIsLastValue(d[1..], k);
      if d[0].0 == k {
        assert !HasKey(d[1..], k) by {
          forall i | 0 <= i < |Keys(d[1..])| ensures Keys(d[1..])[i] != k {
            assert Keys(d)[i + 1] == Keys(d[1..])[i];
          }
        }
      }
    }
  }

  /** Assigning a new key appends its pair. */
  lemma {:induction false} PutAbsent<K, V>(d: Dict<K, V>, k: K, v: V)
    requires !HasKey(d, k)
    ensures Put(d, k, v) == d + [(k, v)]
  {
    if d != [] {
      assert Keys(d)[0] == d[0].0;
      assert !HasKey(d[1..], k) by {
        forall i | 0 <= i < |d| - 1 ensures Keys(d[1..])[i] != k {
          assert Keys(d[1..])[i] == Keys(d)[i + 1];
        }
      }
      PutAbsent(d[1..], k, v);
      calc {
        Put(d, k, v);
        [d[0]] + Put(d[1..], k, v);
        [d[0]] + (d[1..] + [(k, v)]);
        { assert [d[0]] + d[1..] == d; }
        d + [(k, v)];
      }
    }
  }

  /** A pair of `d[k] = v` was in `d` or is the new one. */
  lemma {:induction false} PutSource<K, V>(d: Dict<K, V>, k: K, v: V, p: (K, V))
    requires p in Put(d, k, v)
    ensures p in d || p == (k, v)
  {
    if d != [] && d[0].0 != k {
      assert Keys(d) == [d[0].0] + Keys(d[1..]);
      if p != d[0] {
        PutSource(d[1..], k, v, p);
      }
    }
  }

  /** A pair of `d.update(e)` comes from `d` or from `e`. */
  lemma {:induction false} UpdateSource<K, V>(d: Dict<K, V>, e: Dict<K, V>, p: (K, V))
    requires p in Update(d, e)
    ensures p in d || p in e
    decreases |e|
  {
    if e != [] {
      UpdateSource(Put(d, e[0].0, e[0].1), e[1..], p);
      if p in Put(d, e[0].0, e[0].1) {
        PutSource(d, e[0].0, e[0].1, p);
      }
    }
  }

  /**
   * A loop storing `f` of each value under its key in a fresh dict, in
   * order; the first value `f` fails on raises its error.
   */
  function MapValues<K(==), D, V, E>(f: D -> Result<V, E>, ds: Dict<K, D>): Result<Dict<K, V>, E>
  {
    if ds == [] then Ok([])
    else match MapValues(f, ds[..|ds| - 1])
      case Err(e) => Err(e)
      case Ok(all) =>
        match f(ds[|ds| - 1].1)
        case Err(e) => Err(e)
        case Ok(v) => Ok(Put(all, ds[|ds| - 1].0, v))
  }

  /** Once a value fails, the later ones are not looked at. */
  lemma {:induction false} MapValuesErrorStops<K, D, V, E>(f: D -> Result<V, E>, ds: Dict<K, D>, n: nat)
    requires n <= |ds| && MapValues(f, ds[..n]).Err?
    ensures MapValues(f, ds) == MapValues(f, ds[..n])
    decreases |ds|
  {
    if n < |ds| {
      var init := ds[..|ds| - 1];
      assert init[..n] == ds[..n];
      MapValuesErrorStops(f, init, n);
    } else {
      assert ds[..n] == ds;
    }
  }

  /** A prefix of a dict without repeated keys has none either. */
  lemma DistinctPrefix<K, V>(d: Dict<K, V>, n: nat)
    requires DistinctKeys(d) && n <= |d|
    ensures DistinctKeys(d[..n])
  {
    forall i, j | 0 <= i < j < n ensures Keys(d[..n])[i] != Keys(d[..n])[j] {
      assert Keys(d[..n])[i] == Keys(d)[i] && Keys(d[..n])[j] == Keys(d)[j];
    }
  }

  /** When the loop raises, it raises the error of the first value that fails. */
  lemma {:induction false} MapValuesFirstError<K, D, V, E>(f: D -> Result<V, E>, ds: Dict<K, D>)
    ensures MapValues(f, ds).Err? ==>
              exists i :: 0 <= i < |ds| && f(ds[i].1) == Err(MapValues(f, ds).error)
                          && forall j :: 0 <= j < i ==> f(ds[j].1).Ok?
    ensures MapValues(f, ds).Ok? ==> forall i :: 0 <= i < |ds| ==> f(ds[i].1).Ok?
    decreases |ds|
  {
    if ds != [] {
      var n := |ds| - 1;
      var init := ds[..n];
      MapValuesFirstError(f, init);
      if MapValues(f, init).Err? {
        var e := MapValues(f, init).error;
        var i :| 0 <= i < n && f(init[i].1) == Err(e) && forall j :: 0 <= j < i ==> f(init[j].1).Ok?;
        FirstErrorInPrefix(f, ds, n, i, e);
      } else {
        AllOkInPrefix(f, ds, n);
        if f(ds[n].1).Err? {
          assert MapValues(f, ds) == Err(f(ds[n].1).error);
        }
      }
    }
  }

  lemma AllOkInPrefix<K, D, V, E>(f: D -> Result<V, E>, ds: Dict<K, D>, n: nat)
    requires n <= |ds| && forall j :: 0 <= j < n ==> f(ds[..n][j].1).Ok?
    ensures forall j :: 0 <= j < n ==> f(ds[j].1).Ok?
  {
    forall j | 0 <= j < n ensures f(ds[j].1).Ok? {
      assert ds[..n][j] == ds[j];
    }
  }

  /** A first failing value of a prefix is a first failing value of the whole dict. */
  lemma FirstErrorInPrefix<K, D, V, E>(f: D -> Result<V, E>, ds: Dict<K, D>, n: nat, i: nat, e: E)
    requires i < n <= |ds|
    requires f(ds[..n][i].1) == Err(e) && forall j :: 0 <= j < i ==> f(ds[..n][j].1).Ok?
    ensures f(ds[i].1) == Err(e) && forall j :: 0 <= j < i ==> f(ds[j].1).Ok?
  {
    assert ds[..n][i] == ds[i];
    forall j | 0 <= j < i ensures f(ds[j].1).Ok? {
      assert ds[..n][j] == ds[j];
    }
  }

  /**
   * Over distinct keys the loop succeeds exactly when every value does; it
   * then keeps the keys and their order and stores `f` of each value.
   */
  lemma {:induction false} MapValuesEntries<K, D, V, E>(f: D -> Result<V, E>, ds: Dict<K, D>)
    requires DistinctKeys(ds)
    ensures MapValues(f, ds).Ok? <==> forall i :: 0 <= i < |ds| ==> f(ds[i].1).Ok?
    ensures MapValues(f, ds).Ok? ==> Keys(MapValues(f, ds).value) == Keys(ds)
    ensures MapValues(f, ds).Ok? ==> forall i :: 0 <= i < |ds| ==> f(ds[i].1) == Ok(MapValues(f, ds).value[i].1)
    decreases |ds|
  {
    MapValuesFirstError(f, ds);
    if ds != [] {
      var n := |ds| - 1;
      var init := ds[..n];
      DistinctPrefix(ds, n);
      MapValuesEntries(f, init);
      if forall i :: 0 <= i < |ds| ==> f(ds[i].1).Ok? {
        assert forall i :: 0 <= i < n ==> init[i] == ds[i];
        MapValuesOkStep(f, ds);
      }
    }
  }

  lemma MapValuesOkStep<K, D, V, E>(f: D -> Result<V, E>, ds: Dict<K, D>)
    requires ds != [] && DistinctKeys(ds)
    requires MapValues(f, ds[..|ds| - 1]).Ok? && f(ds[|ds| - 1].1).Ok?
    requires Keys(MapValues(f, ds[..|ds| - 1]).value) == Keys(ds[..|ds| - 1])
    requires forall i :: 0 <= i < |ds| - 1 ==> f(ds[i].1) == Ok(MapValues(f, ds[..|ds| - 1]).value[i].1)
    ensures MapValues(f, ds).Ok?
    ensures Keys(MapValues(f, ds).value) == Keys(ds)
    ensures forall i :: 0 <= i < |ds| ==> f(ds[i].1) == Ok(MapValues(f, ds).value[i].1)
  {
    var all := MapValues(f, ds[..|ds| - 1]).value;
    var v := f(ds[|ds| - 1].1).value;
    assert MapValues(f, ds) == Ok(Put(all, ds[|ds| - 1].0, v));
    StoreNewEntry(f, ds, all, v);
  }

  /** Storing the last value under its fresh key extends the stored entries by one. */
  lemma StoreNewEntry<K, D, V, E>(f: D -> Result<V, E>, ds: Dict<K, D>, all: Dict<K, V>, v: V)
    requires ds != [] && DistinctKeys(ds)
    requires Keys(all) == Keys(ds[..|ds| - 1])
    requires forall i :: 0 <= i < |ds| - 1 ==> f(ds[i].1) == Ok(all[i].1)
    requires f(ds[|ds| - 1].1) == Ok(v)
    ensures Keys(Put(all, ds[|ds| - 1].0, v)) == Keys(ds)
    ensures forall i :: 0 <= i < |ds| ==> f(ds[i].1) == Ok(Put(all, ds[|ds| - 1].0, v)[i].1)
  {
    var n := |ds| - 1;
    var init := ds[..n];
    KeysSnoc(init, ds[n]);
    assert init + [ds[n]] == ds;
    NewKeyAbsent(ds, n);
    assert !HasKey(all, ds[n].0) by {
      forall i | 0 <= i < |all| ensures Keys(all)[i] != ds[n].0 {
        assert Keys(all)[i] == Keys(init)[i] == ds[i].0;
      }
    }
    PutAbsent(all, ds[n].0, v);
    var r := all + [(ds[n].0, v)];
    KeysSnoc(all, (ds[n].0, v));
    forall i | 0 <= i < |ds| ensures f(ds[i].1) == Ok(r[i].1) {
      if i < n {
        assert r[i] == all[i];
      }
    }
  }

  lemma KeysSnoc<K, V>(d: Dict<K, V>, p: (K, V))
    ensures Keys(d + [p]) == Keys(d) + [p.0]
  {
  }

  /** The key at position `n` of a dict without repeated keys is not among the keys before it. */
  lemma NewKeyAbsent<K, V>(ds: Dict<K, V>, n: nat)
    requires DistinctKeys(ds) && n < |ds|
    ensures forall j :: 0 <= j < n ==> ds[j].0 != ds[n].0
  {
    forall j | 0 <= j < n ensures ds[j].0 != ds[n].0 {
      assert Keys(ds)[j] == ds[j].0 && Keys(ds)[n] == ds[n].0;
    }
  }

  /** In a dict without repeated keys, every pair is what its key looks up. */
  lemma {:induction false} GetAt<K, V>(d: Dict<K, V>, i: nat)
    requires DistinctKeys(d) && i < |d|
    ensures Get(d, d[i].0) == Some(d[i].1)
    decreases i
  {
    if i > 0 {
      assert Keys(d)[0] != Keys(d)[i];
      assert DistinctKeys(d[1..]) by {
        forall a, b | 0 <= a < b < |d| - 1 ensures Keys(d[1..])[a] != Keys(d[1..])[b] {
          assert Keys(d)[a + 1] != Keys(d)[b + 1];
        }
      }
      GetAt(d[1..], i - 1);
    }
  }

  /** A dict filled from empty by `d[key(x)] = val(x)` for each `x` of `xs` with `keep(x)`, in order. */
  function Collect<T, K(==), V>(xs: seq<T>, keep: T -> bool, key: T -> K, val: T -> V): Dict<K, V>
  {
    if xs == [] then []
    else
      var x := xs[|xs| - 1];
      var d := Collect(xs[..|xs| - 1], keep, key, val);
      if keep(x) then Put(d, key(x), val(x)) else d
  }

  /** One more element of `xs` is one more step of the fold. */
  lemma CollectSnoc<T, K, V>(xs: seq<T>, keep: T -> bool, key: T -> K, val: T -> V, i: nat)
    requires i < |xs|
    ensures Collect(xs[..i + 1], keep, key, val)
            == if keep(xs[i]) then Put(Collect(xs[..i], keep, key, val), key(xs[i]), val(xs[i]))
               else Collect(xs[..i], keep, key, val)
  {
    assert xs[..i + 1][..i] == xs[..i];
  }

  /** The fold over a whole sequence. */
  lemma CollectAll<T, K, V>(xs: seq<T>, keep: T -> bool, key: T -> K, val: T -> V)
    ensures Collect(xs[..|xs|], keep, key, val) == Collect(xs, keep, key, val)
  {
    assert xs[..|xs|] == xs;
  }

  /** A key's entry is the value of the last kept element with that key: a later assignment overwrites. */
  lemma {:induction false} CollectLast<T, K, V>(xs: seq<T>, keep: T -> bool, key: T -> K, val: T -> V, i: nat)
    requires i < |xs| && keep(xs[i])
    requires forall j :: i < j < |xs| && keep(xs[j]) ==> key(xs[j]) != key(xs[i])
    ensures Get(Collect(xs, keep, key, val), key(xs[i])) == Some(val(xs[i]))
  {
    var n := |xs| - 1;
    var init := xs[..n];
    GetPutAny(Collect(init, keep, key, val), key(xs[n]), val(xs[n]), key(xs[i]));
    if i < n {
      assert init[i] == xs[i];
      forall j | i < j < |init| && keep(init[j])
        ensures key(init[j]) != key(init[i])
      {
        assert init[j] == xs[j];
      }
      CollectLast(init, keep, key, val, i);
    }
  }

  /** A key has an entry exactly when some kept element has that key. */
  lemma {:induction false} CollectHasKey<T, K, V>(xs: seq<T>, keep: T -> bool, key: T -> K, val: T -> V, k: K)
    ensures Get(Collect(xs, keep, key, val), k).Some? <==> exists i :: 0 <= i < |xs| && keep(xs[i]) && key(xs[i]) == k
  {
    if xs != [] {
      var n := |xs| - 1;
      var init := xs[..n];
      GetPutAny(Collect(init, keep, key, val), key(xs[n]), val(xs[n]), k);
      CollectHasKey(init, keep, key, val, k);
      if exists i :: 0 <= i < |xs| && keep(xs[i]) && key(xs[i]) == k {
        var i :| 0 <= i < |xs| && keep(xs[i]) && key(xs[i]) == k;
        if i < n {
          assert init[i] == xs[i];
        }
      }
      if exists i :: 0 <= i < |init| && keep(init[i]) && key(init[i]) == k {
        var i :| 0 <= i < |init| && keep(init[i]) && key(init[i]) == k;
        assert xs[i] == init[i];
      }
    }
  }
}
