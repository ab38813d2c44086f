/**
 * Character classes and string helpers shared by the model.
 * Python's str methods and regex classes are modelled on ASCII only:
 * \w is [A-Za-z0-9_], \d is [0-9], \s is the six ASCII white-space characters.
 */
module Text {
  import opened Wrappers

  predicate IsUpper(c: char) { 'A' <= c <= 'Z' }
  predicate IsLower(c: char) { 'a' <= c <= 'z' }
  predicate IsDigit(c: char) { '0' <= c <= '9' }
  predicate IsAlpha(c: char) { IsUpper(c) || IsLower(c) }
  predicate IsWordChar(c: char) { IsAlpha(c) || IsDigit(c) || c == '_' }
  predicate IsSpace(c: char) {
    c == ' ' || c == '\t' || c == '\n' || c == '\r' || c == '\U{0B}' || c == '\U{0C}'
  }
  predicate IsWordOrSpace(c: char) { IsWordChar(c) || IsSpace(c) }
  predicate IsUpperOrUnderscore(c: char) { IsUpper(c) || c == '_' }

  /** A non-empty run of upper-case letters ([A-Z]+). */
  predicate AllUpper(s: string) { |s| > 0 && forall i :: 0 <= i < |s| ==> IsUpper(s[i]) }

  /** A non-empty run of decimal digits (\d+). */
  predicate AllDigits(s: string) { |s| > 0 && forall i :: 0 <= i < |s| ==> IsDigit(s[i]) }

  /** Python's str.isalpha on ASCII text: non-empty and letters only. */
  predicate AllAlpha(s: string) { |s| > 0 && forall i :: 0 <= i < |s| ==> IsAlpha(s[i]) }

  predicate StartsWith(s: string, prefix: string) {
    |prefix| <= |s| && s[..|prefix|] == prefix
  }

  predicate EndsWith(s: string, suffix: string) {
    |suffix| <= |s| && s[|s| - |suffix|..] == suffix
  }

  /** s[a:b] where the bounds are known to be in range ("" otherwise, which no caller reaches). */
  function Slice(s: string, a: nat, b: nat): (r: string)
    ensures a <= b <= |s| ==> r == s[a..b]
  {
    if a <= b <= |s| then s[a..b] else ""
  }

  /** Python's `sub in s`. */
  predicate Contains(s: string, sub: string)
    decreases |s|
  {
    StartsWith(s, sub) || (|s| > 0 && Contains(s[1..], sub))
  }

  /** A text contains every slice of itself. */
  lemma {:induction false} ContainsAt(s: string, i: nat, j: nat)
    requires i <= j <= |s|
    ensures Contains(s, s[i..j])
    decreases i
  {
    if i == 0 {
      assert s[..j - i] == s[i..j];
    } else {
      var t := s[1..];
      ContainsAt(t, i - 1, j - 1);
      assert t[i - 1..j - 1] == s[i..j] by {
        assert forall k :: 0 <= k < j - i ==> t[i - 1..j - 1][k] == s[i..j][k];
      }
    }
  }

  /** `s.replace(c, '')` for a single character. */
  function RemoveChar(s: string, c: char): (r: string)
    ensures !HasChar(r, c)
    decreases |s|
  {
    if s == [] then []
    else
      var rest := RemoveChar(s[1..], c);
      if s[0] == c then rest
      else
        assert forall i :: 1 <= i < |rest| + 1 ==> ([s[0]] + rest)[i] == rest[i - 1];
        [s[0]] + rest
  }

  lemma {:induction false} RemoveCharConcat(a: string, b: string, c: char)
    ensures RemoveChar(a + b, c) == RemoveChar(a, c) + RemoveChar(b, c)
    decreases |a|
  {
    if a == [] {
      assert a + b == b;
    } else {
      assert (a + b)[1..] == a[1..] + b;
      RemoveCharConcat(a[1..], b, c);
    }
  }

  lemma {:induction false} RemoveCharAbsent(s: string, c: char)
    requires !HasChar(s, c)
    ensures RemoveChar(s, c) == s
    decreases |s|
  {
    if s != [] {
      assert s[0] != c;
      assert !HasChar(s[1..], c) by {
        forall i | 0 <= i < |s| - 1 ensures s[1..][i] != c {
          assert s[1..][i] == s[i + 1];
        }
      }
      RemoveCharAbsent(s[1..], c);
    }
  }

  /** A slice without `c` is still a substring once every `c` is removed from the text. */
  lemma SliceSurvivesRemoval(s: string, i: nat, j: nat, c: char)
    requires i <= j <= |s| && !HasChar(s[i..j], c)
    ensures Contains(RemoveChar(s, c), s[i..j])
  {
    var a, m, b := s[..i], s[i..j], s[j..];
    assert s == a + m + b;
    RemoveCharConcat(a + m, b, c);
    RemoveCharConcat(a, m, c);
    RemoveCharAbsent(m, c);
    var t := RemoveChar(a, c) + m + RemoveChar(b, c);
    var n := |RemoveChar(a, c)|;
    assert t[n..n + |m|] == m;
    ContainsAt(t, n, n + |m|);
  }

  /** Python's `c in s` for a single character. */
  predicate HasChar(s: string, c: char) { exists i :: 0 <= i < |s| && s[i] == c }

  function Upper(c: char): (r: char)
    ensures IsLower(c) ==> IsUpper(r)
    ensures !IsLower(c) ==> r == c
  {
    if IsLower(c) then (c as int - 32) as char else c
  }

  function Lower(c: char): (r: char)
    ensures IsUpper(c) ==> IsLower(r)
    ensures !IsUpper(c) ==> r == c
  {
    if IsUpper(c) then (c as int + 32) as char else c
  }

  /** Column letters hold no '!'. */
  lemma UpperHasNoBang(x: string)
    requires AllUpper(x)
    ensures !HasChar(x, '!')
  {
    forall i | 0 <= i < |x|
      ensures x[i] != '!'
    {
      assert IsUpper(x[i]);
    }
  }

  /** Python's str.upper on ASCII text. */
  function UpperStr(s: string): (r: string)
    ensures |r| == |s|
    ensures forall i :: 0 <= i < |s| ==> r[i] == Upper(s[i])
  {
    if s == [] then [] else [Upper(s[0])] + UpperStr(s[1..])
  }

  /** Python's str.lower on ASCII text. */
  function LowerStr(s: string): (r: string)
    ensures |r| == |s|
    ensures forall i :: 0 <= i < |s| ==> r[i] == Lower(s[i])
  {
    if s == [] then [] else [Lower(s[0])] + LowerStr(s[1..])
  }

  /** Python's str.strip() with no argument. */
  function Strip(s: string): (r: string)
    ensures |r| <= |s|
    ensures r != [] ==> !IsSpace(r[0]) && !IsSpace(r[|r| - 1])
    decreases |s|
  {
    if s == [] then []
    else if IsSpace(s[0]) then Strip(s[1..])
    else if IsSpace(s[|s| - 1]) then Strip(s[..|s| - 1])
    else s
  }

  /** The text after the last `c` (the whole text when there is none): `s.split(c)[-1]`. */
  function AfterLast(s: string, c: char): (r: string)
    ensures |r| <= |s|
    ensures !HasChar(r, c)
    ensures s[|s| - |r|..] == r
    decreases |s|
  {
    if s == [] then []
    else if s[|s| - 1] == c then []
    else AfterLast(s[..|s| - 1], c) + [s[|s| - 1]]
  }

  /** The text after the last `c` of `a + b` is `b` when `a` is empty or ends with `c` and `b` holds no `c`. */
  lemma {:induction false} AfterLastSuffix(a: string, b: string, c: char)
    requires a == [] || a[|a| - 1] == c
    requires c !in b
    ensures AfterLast(a + b, c) == b
    decreases |b|
  {
    if b == [] {
      assert a + b == a;
    } else {
      var s, b', last := a + b, b[..|b| - 1], b[|b| - 1];
      assert b == b' + [last];
      assert s[..|s| - 1] == a + b' && s[|s| - 1] == last;
      AfterLastSuffix(a, b', c);
    }
  }

  /** Index of the first `c` in `s`, if any. */
  function FindChar(s: string, c: char): (r: int)
    ensures -1 <= r < |s|
    ensures r == -1 <==> !HasChar(s, c)
    ensures r >= 0 ==> s[r] == c && !HasChar(s[..r], c)
  {
    if s == [] then -1
    else if s[0] == c then 0
    else
      var k := FindChar(s[1..], c);
      assert forall i :: 0 <= i < |s| - 1 ==> s[1..][i] == s[i + 1];
      if k == -1 then -1
      else
        assert s[..k + 1] == [s[0]] + s[1..][..k];
        k + 1
  }

  /** `dep.split('!', 1)`: the text before the first '!' and the text after it. */
  function SplitAtBang(dep: string): (r: (string, string))
    requires HasChar(dep, '!')
    ensures !HasChar(r.0, '!') && dep == r.0 + "!" + r.1
  {
    var b := FindChar(dep, '!');
    assert dep == dep[..b] + "!" + dep[b + 1..];
    (dep[..b], dep[b + 1..])
  }

  /** Splitting "Sheet!rest" at its first '!' gives back the parts when the sheet has no '!'. */
  lemma SplitJoin(sheet: string, rest: string)
    requires !HasChar(sheet, '!')
    ensures HasChar(sheet + "!" + rest, '!')
    ensures SplitAtBang(sheet + "!" + rest) == (sheet, rest)
  {
    var k := sheet + "!" + rest;
    assert k[|sheet|] == '!';
    var r := SplitAtBang(k);
    var b := FindChar(k, '!');
    if b < |sheet| {
      assert k[b] == sheet[b];
      assert HasChar(sheet, '!');
    } else if b == |sheet| {
      assert k[..b] == sheet && k[b + 1..] == rest;
    }
  }

  function DigitValue(c: char): nat
    requires IsDigit(c)
  {
    c as int - '0' as int
  }

  /** Python's int() on a string of decimal digits. */
  function DecimalValue(s: string): nat
    requires forall i :: 0 <= i < |s| ==> IsDigit(s[i])
  {
    if s == [] then 0 else 10 * DecimalValue(s[..|s| - 1]) + DigitValue(s[|s| - 1])
  }

  function DigitChar(d: nat): (c: char)
    requires d < 10
    ensures IsDigit(c) && DigitValue(c) == d
  {
    ('0' as int + d) as char
  }

  /** Python's str() of a non-negative int. */
  function NatToString(n: nat): (s: string)
    ensures AllDigits(s)
    ensures DecimalValue(s) == n
  {
    if n < 10 then [DigitChar(n)]
    else
      var s := NatToString(n / 10) + [DigitChar(n % 10)];
      assert s[..|s| - 1] == NatToString(n / 10);
      s
  }

  /** Python's str() of an int. */
  function IntToString(n: int): string
  {
    if n < 0 then "-" + NatToString(-n) else NatToString(n)
  }

  /** The elements of `xs` are pairwise distinct. */
  predicate NoDup<T(==)>(xs: seq<T>) {
    forall i, j :: 0 <= i < j < |xs| ==> xs[i] != xs[j]
  }

  /**
   * `list(dict.fromkeys(xs))`: each element once, at its first occurrence.
   * The source writes `list(set(xs))`, whose order Python leaves open; this
   * model fixes the first-occurrence order, which is one of the orders allowed.
   */
  function Dedup<T(==,!new)>(xs: seq<T>): (r: seq<T>)
    ensures NoDup(r)
    ensures forall x :: x in r <==> x in xs
    ensures |r| <= |xs|
  {
    DedupFrom(xs, [])
  }

  function DedupFrom<T(==,!new)>(xs: seq<T>, seen: seq<T>): (r: seq<T>)
    requires NoDup(seen)
    ensures NoDup(r)
    ensures forall x :: x in r <==> x in xs || x in seen
    ensures |seen| <= |r| <= |xs| + |seen|
    ensures r[..|seen|] == seen
    decreases |xs|
  {
    if xs == [] then seen
    else if xs[0] in seen then DedupFrom(xs[1..], seen)
    else DedupFrom(xs[1..], seen + [xs[0]])
  }

  function Count<T(==)>(xs: seq<T>, x: T): nat
  {
    if xs == [] then 0 else (if xs[0] == x then 1 else 0) + Count(xs[1..], x)
  }

  function Sum(xs: seq<int>): int
  {
    if xs == [] then 0 else xs[0] + Sum(xs[1..])
  }

  function Join(parts: seq<string>, sep: string): string
  {
    if parts == [] then ""
    else if |parts| == 1 then parts[0]
    else parts[0] + sep + Join(parts[1..], sep)
  }

  /** `[f(x) for x in xs if f(x) is not None]`: the present results of `f`, in order. */
  function FilterMap<A, B>(xs: seq<A>, f: A -> Option<B>): seq<B>
  {
    if xs == [] then []
    else
      FilterMap(xs[..|xs| - 1], f) + match f(xs[|xs| - 1]) case Some(b) => [b] case None => []
  }

  /** An element of the result is the present result of some element. */
  lemma {:induction false} FilterMapMembers<A, B>(xs: seq<A>, f: A -> Option<B>, b: B)
    ensures b in FilterMap(xs, f) <==> exists i :: 0 <= i < |xs| && f(xs[i]) == Some(b)
  {
    if xs != [] {
      var n := |xs| - 1;
      var init := xs[..n];
      FilterMapMembers(init, f, b);
      if exists i :: 0 <= i < |xs| && f(xs[i]) == Some(b) {
        var i :| 0 <= i < |xs| && f(xs[i]) == Some(b);
        if i < n {
          assert init[i] == xs[i];
        }
      }
      if exists i :: 0 <= i < n && f(init[i]) == Some(b) {
        var i :| 0 <= i < n && f(init[i]) == Some(b);
        assert xs[i] == init[i];
      }
    }
  }

  /** One more element is one more step. */
  lemma FilterMapSnoc<A, B>(xs: seq<A>, f: A -> Option<B>, i: nat)
    requires i < |xs|
    ensures FilterMap(xs[..i + 1], f) == FilterMap(xs[..i], f) + match f(xs[i]) case Some(b) => [b] case None => []
  {
    assert xs[..i + 1][..i] == xs[..i];
  }

  // Sequence identities stated once for any element type, so that proofs
  // about sequences of records do not compare the records themselves.

  lemma TailOfCons<T>(x: T, r: seq<T>)
    ensures ([x] + r)[1..] == r
  {
  }

  lemma AppendAssoc<T>(a: seq<T>, b: seq<T>, c: seq<T>)
    ensures (a + b) + c == a + (b + c)
  {
  }

  lemma InitLast<T>(xs: seq<T>)
    requires xs != []
    ensures xs == xs[..|xs| - 1] + [xs[|xs| - 1]]
  {
  }

  lemma AppendEmpty<T>(xs: seq<T>)
    ensures xs + [] == xs
  {
  }

  lemma {:induction false} CountAppend<T>(xs: seq<T>, ys: seq<T>, x: T)
    ensures Count(xs + ys, x) == Count(xs, x) + Count(ys, x)
  {
    if xs == [] {
      assert xs + ys == ys;
    } else {
      assert (xs + ys)[1..] == xs[1..] + ys;
      CountAppend(xs[1..], ys, x);
    }
  }

  /** The last element is counted on top of the ones before it. */
  lemma CountLast<T>(xs: seq<T>, x: T)
    requires xs != []
    ensures Count(xs, x) == Count(xs[..|xs| - 1], x) + (if xs[|xs| - 1] == x then 1 else 0)
  {
    var init, y := xs[..|xs| - 1], xs[|xs| - 1];
    assert xs == init + [y];
    assert [y][1..] == [];
    CountAppend(init, [y], x);
  }

  lemma {:induction false} CountPositive<T>(xs: seq<T>, x: T)
    ensures Count(xs, x) > 0 <==> x in xs
  {
    if xs != [] {
      CountPositive(xs[1..], x);
      assert xs == [xs[0]] + xs[1..];
    }
  }

  /** A new element goes to the end of the deduplicated list; a repeated one changes nothing. */
  lemma {:induction false} DedupSnoc<T(!new)>(xs: seq<T>, x: T)
    ensures Dedup(xs + [x]) == if x in xs then Dedup(xs) else Dedup(xs) + [x]
  {
    DedupFromSnoc(xs, [], x);
  }

  lemma {:induction false} DedupFromSnoc<T(!new)>(xs: seq<T>, seen: seq<T>, x: T)
    requires NoDup(seen)
    ensures DedupFrom(xs + [x], seen)
            == if x in xs || x in seen then DedupFrom(xs, seen) else DedupFrom(xs, seen) + [x]
    decreases |xs|
  {
    if xs == [] {
      assert [] + [x] == [x] && [x][1..] == [];
    } else {
      assert (xs + [x])[0] == xs[0] && (xs + [x])[1..] == xs[1..] + [x];
      if xs[0] in seen {
        DedupFromSnoc(xs[1..], seen, x);
      } else {
        assert NoDup(seen + [xs[0]]);
        DedupFromSnoc(xs[1..], seen + [xs[0]], x);
      }
    }
  }
}
