/**
 * The regular expressions the core scans formulas with, each written out as
 * the match it finds at one position (what Python's `re` engine returns when
 * a search is anchored there, backtracking included), and the generic scan
 * that `finditer`, `findall` and `sub` perform: try each position from left
 * to right and, after a match, resume at its end.
 */
module Patterns {
  import opened Wrappers
  import opened Text
  import opened Splice

  /** One match: the span s[start..end] and the text of each capture group. */
  datatype Hit = Hit(start: nat, end: nat, groups: seq<string>)

  datatype Pattern =
    | CellRef                            // \b([A-Z]+)(\d+)\b
    | SheetRef                           // (\w+)!([A-Z]+)(\d+)
    | SheetPrefix                        // (\w+)!
    | LocalRef                           // (?<![A-Z!])([A-Z]+)(\d+)(?![A-Z])
    | MixedRef                           // \$?([A-Z]+)\$?(\d+)
    | SheetRange                         // (\w+)!([A-Z]+)(\d*):([A-Z]+)(\d*)
    | SheetColumns                       // (\w+)!([A-Z]+):([A-Z]+)
    | LocalColumns                       // (?<![A-Z!:])([A-Z]+):([A-Z]+)(?![A-Z])
    | UpperName                          // \b[A-Z][A-Z_]*[A-Z]\b
    | UpperDigits                        // ([A-Z]+)(\d+)
    | LocalLetters                       // (?<![A-Z!])([A-Z]+)\d+
    | LiteralSheetRef(sheet: string)     // <sheet>!([A-Z]+)\d+, sheet escaped
    | KeyRow(key: string, guarded: bool) // (?<![A-Z!])<key>(\d+) or <key>(\d+)
    | LazySheetCell                      // ([A-Za-z_][\w\s]*?)!([A-Z]+\d+)
    | LazySheetRange                     // ([A-Za-z_][\w\s]*?)!([A-Z]+\d+:[A-Z]+\d+)
    | LazySheetColumn                    // ([A-Za-z_][\w\s]*?)!([A-Z]+:[A-Z]+)
    | QuotedSheetCell                    // '([^']+)'!([A-Z]+\d+)
    | VlookupCross                       // VLOOKUP\s*\([^,]+,\s*([A-Za-z_][\w\s]*?)!([^,\)]+)

  /** Number of capture groups (for a pattern without groups, findall returns the whole match). */
  function Arity(p: Pattern): nat
  {
    match p
    case CellRef => 2
    case SheetRef => 3
    case SheetPrefix => 1
    case LocalRef => 2
    case MixedRef => 2
    case SheetRange => 5
    case SheetColumns => 3
    case LocalColumns => 2
    case UpperName => 1
    case UpperDigits => 2
    case LocalLetters => 1
    case LiteralSheetRef(_) => 1
    case KeyRow(_, _) => 1
    case LazySheetCell => 2
    case LazySheetRange => 2
    case LazySheetColumn => 2
    case QuotedSheetCell => 2
    case VlookupCross => 2
  }

  /** `h` is a non-empty match starting at `i` with `n` groups. */
  predicate HitAt(s: string, i: nat, h: Hit, n: nat) {
    h.start == i < h.end <= |s| && |h.groups| == n
  }

  /** End of the longest run of characters satisfying `p` from `i`. */
  function RunEnd(s: string, i: nat, p: char -> bool): (j: nat)
    requires i <= |s|
    ensures i <= j <= |s|
    ensures forall k :: i <= k < j ==> p(s[k])
    ensures j == |s| || !p(s[j])
    decreases |s| - i
  {
    if i == |s| || !p(s[i]) then i else RunEnd(s, i + 1, p)
  }

  /** A run that stops at `j` ends at `j`. */
  lemma {:induction false} RunEndAt(s: string, i: nat, j: nat, p: char -> bool)
    requires i <= j <= |s|
    requires forall k :: i <= k < j ==> p(s[k])
    requires j == |s| || !p(s[j])
    ensures RunEnd(s, i, p) == j
    decreases j - i
  {
    if i < j {
      RunEndAt(s, i + 1, j, p);
    }
  }

  /** A non-empty run of upper-case letters is [A-Z]+. */
  lemma RunUpper(s: string, i: nat, j: nat)
    requires i < j <= |s|
    requires forall k :: i <= k < j ==> IsUpper(s[k])
    ensures AllUpper(s[i..j])
  {
    forall k | 0 <= k < j - i ensures IsUpper(s[i..j][k]) {
      assert s[i..j][k] == s[i + k];
    }
  }

  /** A non-empty run of digits is \d+. */
  lemma RunDigits(s: string, i: nat, j: nat)
    requires i < j <= |s|
    requires forall k :: i <= k < j ==> IsDigit(s[k])
    ensures AllDigits(s[i..j])
  {
    forall k | 0 <= k < j - i ensures IsDigit(s[i..j][k]) {
      assert s[i..j][k] == s[i + k];
    }
  }

  /** The lookbehind (?<![A-Z!]) holds at `i`. */
  predicate NotAfterUpperOrBang(s: string, i: nat)
    requires i <= |s|
  {
    i == 0 || !(IsUpper(s[i - 1]) || s[i - 1] == '!')
  }

  function CellRefAt(s: string, i: nat): (r: Option<Hit>)
    requires i <= |s|
    ensures r.Some? ==> HitAt(s, i, r.value, 2)
    ensures r.Some? ==> AllUpper(r.value.groups[0]) && AllDigits(r.value.groups[1])
                        && s[i..r.value.end] == r.value.groups[0] + r.value.groups[1]
                        && (i == 0 || !IsWordChar(s[i - 1]))
                        && (r.value.end == |s| || !IsWordChar(s[r.value.end]))
  {
    if i < |s| && IsUpper(s[i]) && (i == 0 || !IsWordChar(s[i - 1])) then
      var j := RunEnd(s, i, IsUpper);
      var k := RunEnd(s, j, IsDigit);
      if j < k && (k == |s| || !IsWordChar(s[k])) then
        assert s[i..k] == s[i..j] + s[j..k];
        Some(Hit(i, k, [s[i..j], s[j..k]]))
      else None
    else None
  }

  function SheetRefAt(s: string, i: nat): (r: Option<Hit>)
    requires i <= |s|
    ensures r.Some? ==> HitAt(s, i, r.value, 3)
    ensures r.Some? ==> |r.value.groups[0]| > 0
                        && s[i..r.value.end] == r.value.groups[0] + "!" + r.value.groups[1] + r.value.groups[2]
                        && AllUpper(r.value.groups[1]) && AllDigits(r.value.groups[2])
  {
    if i < |s| && IsWordChar(s[i]) then
      var j := RunEnd(s, i, IsWordChar);
      if j < |s| && s[j] == '!' then
        var b := RunEnd(s, j + 1, IsUpper);
        var c := RunEnd(s, b, IsDigit);
        if j + 1 < b < c then
          RunUpper(s, j + 1, b);
          RunDigits(s, b, c);
          var g0, g1, g2 := s[i..j], s[j + 1..b], s[b..c];
          assert s[i..c] == g0 + "!" + g1 + g2 by {
            assert s[i..c] == s[i..j] + [s[j]] + s[j + 1..b] + s[b..c];
          }
          Some(Hit(i, c, [g0, g1, g2]))
        else None
      else None
    else None
  }

  /**
   * The sheet name of a sheet-qualified reference is a run of word
   * characters, so it holds no '!', and the whole match holds no space.
   */
  lemma SheetRefChars(s: string, i: nat)
    requires i <= |s| && SheetRefAt(s, i).Some?
    ensures !HasChar(SheetRefAt(s, i).value.groups[0], '!')
    ensures !HasChar(s[i..SheetRefAt(s, i).value.end], ' ')
  {
    var h := SheetRefAt(s, i).value;
    var j := RunEnd(s, i, IsWordChar);
    var b := RunEnd(s, j + 1, IsUpper);
    var g := s[i..j];
    assert h.groups[0] == g;
    forall k | 0 <= k < |g| ensures g[k] != '!' {
      assert g[k] == s[i + k];
    }
    var m := s[i..h.end];
    forall k | 0 <= k < |m| ensures m[k] != ' ' {
      assert m[k] == s[i + k];
      if i + k < j {
      } else if i + k == j {
      } else if i + k < b {
      } else {
        assert IsDigit(s[i + k]);
      }
    }
  }

  function SheetPrefixAt(s: string, i: nat): (r: Option<Hit>)
    requires i <= |s|
    ensures r.Some? ==> HitAt(s, i, r.value, 1)
    ensures r.Some? ==> |r.value.groups[0]| > 0 && s[i..r.value.end] == r.value.groups[0] + "!"
                        && forall k :: 0 <= k < |r.value.groups[0]| ==> IsWordChar(r.value.groups[0][k])
  {
    if i < |s| && IsWordChar(s[i]) then
      var j := RunEnd(s, i, IsWordChar);
      if j < |s| && s[j] == '!' then
        assert s[i..j + 1] == s[i..j] + "!";
        Some(Hit(i, j + 1, [s[i..j]]))
      else None
    else None
  }

  function LocalRefAt(s: string, i: nat): (r: Option<Hit>)
    requires i <= |s|
    ensures r.Some? ==> HitAt(s, i, r.value, 2)
    ensures r.Some? ==> AllUpper(r.value.groups[0]) && AllDigits(r.value.groups[1])
                        && NotAfterUpperOrBang(s, i)
                        && s[i..r.value.end] == r.value.groups[0] + r.value.groups[1]
  {
    if i < |s| && IsUpper(s[i]) && NotAfterUpperOrBang(s, i) then
      var j := RunEnd(s, i, IsUpper);
      var k := RunEnd(s, j, IsDigit);
      if k == j then None
      else if k == |s| || !IsUpper(s[k]) then
        assert s[i..k] == s[i..j] + s[j..k];
        Some(Hit(i, k, [s[i..j], s[j..k]]))
      else if k - j >= 2 then
        // the digit run is followed by a letter: (?![A-Z]) makes \d+ give back one digit
        assert s[i..k - 1] == s[i..j] + s[j..k - 1];
        Some(Hit(i, k - 1, [s[i..j], s[j..k - 1]]))
      else None
    else None
  }

  function MixedRefAt(s: string, i: nat): (r: Option<Hit>)
    requires i <= |s|
    ensures r.Some? ==> HitAt(s, i, r.value, 2)
    ensures r.Some? ==> AllUpper(r.value.groups[0]) && AllDigits(r.value.groups[1])
  {
    var a := if i < |s| && s[i] == '$' then i + 1 else i;
    if a < |s| && IsUpper(s[a]) then
      var j := RunEnd(s, a, IsUpper);
      var b := if j < |s| && s[j] == '$' then j + 1 else j;
      var k := RunEnd(s, b, IsDigit);
      if b < k then Some(Hit(i, k, [s[a..j], s[b..k]])) else None
    else None
  }

  function SheetRangeAt(s: string, i: nat): (r: Option<Hit>)
    requires i <= |s|
    ensures r.Some? ==> HitAt(s, i, r.value, 5)
    ensures r.Some? ==> |r.value.groups[0]| > 0 && AllUpper(r.value.groups[1]) && AllUpper(r.value.groups[3])
  {
    if i < |s| && IsWordChar(s[i]) then
      var j := RunEnd(s, i, IsWordChar);
      if j < |s| && s[j] == '!' then
        var b := RunEnd(s, j + 1, IsUpper);
        var c := RunEnd(s, b, IsDigit);
        if j + 1 < b && c < |s| && s[c] == ':' then
          var d := RunEnd(s, c + 1, IsUpper);
          var e := RunEnd(s, d, IsDigit);
          if c + 1 < d then Some(Hit(i, e, [s[i..j], s[j + 1..b], s[b..c], s[c + 1..d], s[d..e]]))
          else None
        else None
      else None
    else None
  }

  function SheetColumnsAt(s: string, i: nat): (r: Option<Hit>)
    requires i <= |s|
    ensures r.Some? ==> HitAt(s, i, r.value, 3)
    ensures r.Some? ==> |r.value.groups[0]| > 0 && AllUpper(r.value.groups[1]) && AllUpper(r.value.groups[2])
  {
    if i < |s| && IsWordChar(s[i]) then
      var j := RunEnd(s, i, IsWordChar);
      if j < |s| && s[j] == '!' then
        var b := RunEnd(s, j + 1, IsUpper);
        if j + 1 < b && b < |s| && s[b] == ':' then
          var d := RunEnd(s, b + 1, IsUpper);
          if b + 1 < d then Some(Hit(i, d, [s[i..j], s[j + 1..b], s[b + 1..d]])) else None
        else None
      else None
    else None
  }

  function LocalColumnsAt(s: string, i: nat): (r: Option<Hit>)
    requires i <= |s|
    ensures r.Some? ==> HitAt(s, i, r.value, 2)
    ensures r.Some? ==> AllUpper(r.value.groups[0]) && AllUpper(r.value.groups[1])
  {
    if i < |s| && IsUpper(s[i]) && (i == 0 || !(IsUpper(s[i - 1]) || s[i - 1] == '!' || s[i - 1] == ':')) then
      var j := RunEnd(s, i, IsUpper);
      if j < |s| && s[j] == ':' then
        var k := RunEnd(s, j + 1, IsUpper);
        if j + 1 < k then Some(Hit(i, k, [s[i..j], s[j + 1..k]])) else None
      else None
    else None
  }

  function UpperNameAt(s: string, i: nat): (r: Option<Hit>)
    requires i <= |s|
    ensures r.Some? ==> HitAt(s, i, r.value, 1)
    ensures r.Some? ==> var w := r.value.groups[0];
                        |w| >= 2 && IsUpper(w[0]) && IsUpper(w[|w| - 1])
                        && (forall k :: 0 <= k < |w| ==> IsUpperOrUnderscore(w[k]))
  {
    if i < |s| && IsUpper(s[i]) && (i == 0 || !IsWordChar(s[i - 1])) then
      var k := RunEnd(s, i, IsUpperOrUnderscore);
      if k - i >= 2 && IsUpper(s[k - 1]) && (k == |s| || !IsWordChar(s[k])) then
        Some(Hit(i, k, [s[i..k]]))
      else None
    else None
  }

  function UpperDigitsAt(s: string, i: nat): (r: Option<Hit>)
    requires i <= |s|
    ensures r.Some? ==> HitAt(s, i, r.value, 2)
    ensures r.Some? ==> AllUpper(r.value.groups[0]) && AllDigits(r.value.groups[1])
                        && s[i..r.value.end] == r.value.groups[0] + r.value.groups[1]
                        && (r.value.end == |s| || !IsDigit(s[r.value.end]))
  {
    if i < |s| && IsUpper(s[i]) then
      var j := RunEnd(s, i, IsUpper);
      var k := RunEnd(s, j, IsDigit);
      if j < k then
        assert s[i..k] == s[i..j] + s[j..k];
        Some(Hit(i, k, [s[i..j], s[j..k]]))
      else None
    else None
  }

  function LocalLettersAt(s: string, i: nat): (r: Option<Hit>)
    requires i <= |s|
    ensures r.Some? ==> HitAt(s, i, r.value, 1)
    ensures r.Some? ==> AllUpper(r.value.groups[0]) && NotAfterUpperOrBang(s, i)
  {
    if i < |s| && IsUpper(s[i]) && NotAfterUpperOrBang(s, i) then
      var j := RunEnd(s, i, IsUpper);
      var k := RunEnd(s, j, IsDigit);
      if j < k then Some(Hit(i, k, [s[i..j]])) else None
    else None
  }

  function LiteralSheetRefAt(sheet: string, s: string, i: nat): (r: Option<Hit>)
    requires i <= |s|
    ensures r.Some? ==> HitAt(s, i, r.value, 1)
    ensures r.Some? ==> AllUpper(r.value.groups[0]) && StartsWith(s[i..], sheet + "!")
  {
    var pre := sheet + "!";
    if StartsWith(s[i..], pre) then
      var a := i + |pre|;
      var b := RunEnd(s, a, IsUpper);
      var c := RunEnd(s, b, IsDigit);
      if a < b < c then Some(Hit(i, c, [s[a..b]])) else None
    else None
  }

  function KeyRowAt(key: string, guarded: bool, s: string, i: nat): (r: Option<Hit>)
    requires i <= |s|
    ensures r.Some? ==> HitAt(s, i, r.value, 1)
    ensures r.Some? ==> AllDigits(r.value.groups[0]) && StartsWith(s[i..], key)
                        && s[i..r.value.end] == key + r.value.groups[0]
  {
    if (!guarded || NotAfterUpperOrBang(s, i)) && StartsWith(s[i..], key) then
      var a := i + |key|;
      var c := RunEnd(s, a, IsDigit);
      if a < c then
        assert s[i..c] == s[i..a] + s[a..c];
        Some(Hit(i, c, [s[a..c]]))
      else None
    else None
  }

  predicate IsSheetStart(c: char) { IsAlpha(c) || c == '_' }

  /** [A-Z]+\d+ from `a`: the end of the match. */
  function CellSuffix(s: string, a: nat): (r: Option<nat>)
    requires a <= |s|
    ensures r.Some? ==> a < r.value <= |s|
  {
    var b := RunEnd(s, a, IsUpper);
    var c := RunEnd(s, b, IsDigit);
    if a < b < c then Some(c) else None
  }

  /** [A-Z]+\d+:[A-Z]+\d+ from `a`. */
  function RangeSuffix(s: string, a: nat): (r: Option<nat>)
    requires a <= |s|
    ensures r.Some? ==> a < r.value <= |s|
  {
    match CellSuffix(s, a)
    case Some(c) =>
      if c < |s| && s[c] == ':' then
        match CellSuffix(s, c + 1)
        case Some(e) => Some(e)
        case None => None
      else None
    case None => None
  }

  /** [A-Z]+:[A-Z]+ from `a`. */
  function ColumnSuffix(s: string, a: nat): (r: Option<nat>)
    requires a <= |s|
    ensures r.Some? ==> a < r.value <= |s|
  {
    var b := RunEnd(s, a, IsUpper);
    if a < b && b < |s| && s[b] == ':' then
      var d := RunEnd(s, b + 1, IsUpper);
      if b + 1 < d then Some(d) else None
    else None
  }

  /**
   * ([A-Za-z_][\w\s]*?)!<suffix>: the lazy sheet part cannot pass a '!'
   * (not in [\w\s]), so it is the run up to the first character outside
   * [\w\s], which must be the '!'.
   */
  function LazySheetAt(kind: nat, s: string, i: nat): (r: Option<Hit>)
    requires i <= |s|
    ensures r.Some? ==> HitAt(s, i, r.value, 2)
    ensures r.Some? ==> |r.value.groups[0]| > 0 && IsSheetStart(r.value.groups[0][0])
                        && !HasChar(r.value.groups[0], '!')
  {
    if i < |s| && IsSheetStart(s[i]) then
      var j := RunEnd(s, i + 1, IsWordOrSpace);
      if j < |s| && s[j] == '!' then
        var suffix := if kind == 0 then CellSuffix(s, j + 1)
                      else if kind == 1 then RangeSuffix(s, j + 1)
                      else ColumnSuffix(s, j + 1);
        match suffix
        case Some(e) =>
          assert forall k :: 0 <= k < j - i ==> s[i..j][k] == s[i + k];
          Some(Hit(i, e, [s[i..j], s[j + 1..e]]))
        case None => None
      else None
    else None
  }

  function QuotedSheetCellAt(s: string, i: nat): (r: Option<Hit>)
    requires i <= |s|
    ensures r.Some? ==> HitAt(s, i, r.value, 2)
    ensures r.Some? ==> |r.value.groups[0]| > 0 && !HasChar(r.value.groups[0], '\'')
  {
    if i < |s| && s[i] == '\'' then
      var j := RunEnd(s, i + 1, c => c != '\'');
      if i + 1 < j && j + 1 < |s| && s[j + 1] == '!' then
        match CellSuffix(s, j + 2)
        case Some(e) => Some(Hit(i, e, [s[i + 1..j], s[j + 2..e]]))
        case None => None
      else None
    else None
  }

  function VlookupCrossAt(s: string, i: nat): (r: Option<Hit>)
    requires i <= |s|
    ensures r.Some? ==> HitAt(s, i, r.value, 2)
    ensures r.Some? ==> |r.value.groups[0]| > 0 && IsSheetStart(r.value.groups[0][0])
                        && !HasChar(r.value.groups[0], '!') && |r.value.groups[1]| > 0
  {
    if StartsWith(s[i..], "VLOOKUP") then
      var b := RunEnd(s, i + 7, IsSpace);
      if b < |s| && s[b] == '(' then
        var c := RunEnd(s, b + 1, ch => ch != ',');
        if b + 1 < c && c < |s| then
          var d := RunEnd(s, c + 1, IsSpace);
          if d < |s| && IsSheetStart(s[d]) then
            var e := RunEnd(s, d + 1, IsWordOrSpace);
            if e < |s| && s[e] == '!' then
              var f := RunEnd(s, e + 1, ch => ch != ',' && ch != ')');
              if e + 1 < f then
                assert forall k :: 0 <= k < e - d ==> s[d..e][k] == s[d + k];
                Some(Hit(i, f, [s[d..e], s[e + 1..f]]))
              else None
            else None
          else None
        else None
      else None
    else None
  }

  /** The match of one of the cell and range patterns at position `i` of `s`. */
  function CellMatchAt(p: Pattern, s: string, i: nat): (r: Option<Hit>)
    requires i <= |s|
    ensures r.Some? ==> HitAt(s, i, r.value, Arity(p))
  {
    match p
    case CellRef => CellRefAt(s, i)
    case SheetRef => SheetRefAt(s, i)
    case SheetPrefix => SheetPrefixAt(s, i)
    case LocalRef => LocalRefAt(s, i)
    case MixedRef => MixedRefAt(s, i)
    case SheetRange => SheetRangeAt(s, i)
    case _ => None
  }

  /** The match of one of the column and name patterns at position `i` of `s`. */
  function ColumnMatchAt(p: Pattern, s: string, i: nat): (r: Option<Hit>)
    requires i <= |s|
    ensures r.Some? ==> HitAt(s, i, r.value, Arity(p))
  {
    match p
    case SheetColumns => SheetColumnsAt(s, i)
    case LocalColumns => LocalColumnsAt(s, i)
    case UpperName => UpperNameAt(s, i)
    case UpperDigits => UpperDigitsAt(s, i)
    case LocalLetters => LocalLettersAt(s, i)
    case LiteralSheetRef(sheet) => LiteralSheetRefAt(sheet, s, i)
    case KeyRow(key, guarded) => KeyRowAt(key, guarded, s, i)
    case _ => None
  }

  /** The match of one of the cross-sheet patterns at position `i` of `s`. */
  function CrossSheetMatchAt(p: Pattern, s: string, i: nat): (r: Option<Hit>)
    requires i <= |s|
    ensures r.Some? ==> HitAt(s, i, r.value, Arity(p))
  {
    match p
    case LazySheetCell => LazySheetAt(0, s, i)
    case LazySheetRange => LazySheetAt(1, s, i)
    case LazySheetColumn => LazySheetAt(2, s, i)
    case QuotedSheetCell => QuotedSheetCellAt(s, i)
    case VlookupCross => VlookupCrossAt(s, i)
    case _ => None
  }

  /** The match of `p` anchored at position `i` of `s`. */
  function MatchAt(p: Pattern, s: string, i: nat): (r: Option<Hit>)
    requires i <= |s|
    ensures r.Some? ==> HitAt(s, i, r.value, Arity(p))
  {
    match p
    case CellRef | SheetRef | SheetPrefix | LocalRef | MixedRef | SheetRange => CellMatchAt(p, s, i)
    case SheetColumns | LocalColumns | UpperName | UpperDigits | LocalLetters | LiteralSheetRef(_) | KeyRow(_, _) =>
      ColumnMatchAt(p, s, i)
    case _ => CrossSheetMatchAt(p, s, i)
  }

  /**
   * A key pattern matches at `i` exactly when the lookbehind allows it, the
   * key starts there and a digit follows it; the match runs to the end of
   * those digits.
   */
  lemma KeyRowMatch(key: string, guarded: bool, s: string, i: nat)
    requires i <= |s|
    ensures MatchAt(KeyRow(key, guarded), s, i).Some? <==>
      (!guarded || NotAfterUpperOrBang(s, i)) && StartsWith(s[i..], key) && i + |key| < |s| && IsDigit(s[i + |key|])
    ensures MatchAt(KeyRow(key, guarded), s, i).Some? ==>
      MatchAt(KeyRow(key, guarded), s, i).value.end == RunEnd(s, i + |key|, IsDigit)
    ensures MatchAt(KeyRow(key, guarded), s, i).Some? ==>
      var h := MatchAt(KeyRow(key, guarded), s, i).value;
      |h.groups| == 1 && h.end <= |s| && s[i..h.end] == key + h.groups[0] && AllDigits(h.groups[0])
  {
    assert MatchAt(KeyRow(key, guarded), s, i) == KeyRowAt(key, guarded, s, i);
  }

  // ---------------------------------------------------------------------
  // The scan behind finditer, findall and sub

  /** What a pattern matches at each position of one text. */
  type Matcher = nat -> Option<Hit>

  /** The matcher of `p` over `s`. */
  function At(p: Pattern, s: string): Matcher
  {
    (i: nat) => if i <= |s| then MatchAt(p, s, i) else None
  }

  /** The match at `from`, when it is non-empty, starts there and ends inside a text of length `n`. */
  function Found(m: Matcher, n: nat, from: nat): (r: Option<Hit>)
    ensures r.Some? ==> m(from) == r && r.value.start == from < r.value.end <= n
  {
    if m(from).Some? && m(from).value.start == from < m(from).value.end <= n then m(from) else None
  }

  /** Every match of a pattern is one the scan accepts. */
  lemma AtFound(p: Pattern, s: string, i: nat)
    requires i <= |s|
    ensures Found(At(p, s), |s|, i) == MatchAt(p, s, i)
  {
    assert At(p, s)(i) == MatchAt(p, s, i);
  }

  /** The matches of a left-to-right scan of positions from..n: after a match, resume at its end. */
  function Scan(m: Matcher, n: nat, from: nat): (r: seq<Hit>)
    requires from <= n
    ensures forall k :: 0 <= k < |r| ==> from <= r[k].start < r[k].end <= n
    ensures forall k, l :: 0 <= k < l < |r| ==> r[k].end <= r[l].start
    decreases n - from
  {
    if from == n then []
    else
      match Found(m, n, from)
      case Some(h) => [h] + Scan(m, n, h.end)
      case None => Scan(m, n, from + 1)
  }

  /** Every match of the scan is the one found at its own start. */
  lemma {:induction false} ScanFound(m: Matcher, n: nat, from: nat, h: Hit)
    requires from <= n && h in Scan(m, n, from)
    ensures Found(m, n, h.start) == Some(h)
    decreases n - from
  {
    match Found(m, n, from)
    case Some(x) =>
      if h != x {
        ScanFound(m, n, x.end, h);
      }
    case None =>
      ScanFound(m, n, from + 1, h);
  }

  /** A match at `x` that no match of the scan overlaps is one of the matches of the scan. */
  lemma {:induction false} ScanComplete(m: Matcher, n: nat, from: nat, x: nat)
    requires from <= x < n && Found(m, n, x).Some?
    requires forall h :: h in Scan(m, n, from) ==> h.end <= x || x <= h.start
    ensures Found(m, n, x).value in Scan(m, n, from)
    decreases x - from
  {
    var hs := Scan(m, n, from);
    var y := Found(m, n, from);
    if from == x {
      assert hs[0] == y.value;
    } else if y.Some? {
      assert hs == [y.value] + Scan(m, n, y.value.end);
      assert y.value in hs;
      ScanComplete(m, n, y.value.end, x);
    } else {
      assert hs == Scan(m, n, from + 1);
      ScanComplete(m, n, from + 1, x);
    }
  }

  /** Group `g` of `h` ("" for a group the pattern does not have). */
  function Group(h: Hit, g: nat): string
  {
    if g < |h.groups| then h.groups[g] else ""
  }

  /** `findall` for a one-group pattern, or one group of each match. */
  function Groups(hs: seq<Hit>, g: nat): (r: seq<string>)
    ensures |r| == |hs|
    ensures forall k :: 0 <= k < |hs| ==> r[k] == Group(hs[k], g)
  {
    if hs == [] then [] else [Group(hs[0], g)] + Groups(hs[1..], g)
  }

  /** Each group `findall` lists is that group of one of the matches. */
  lemma GroupFound(hs: seq<Hit>, g: nat, x: string)
    requires x in Groups(hs, g)
    ensures exists h :: h in hs && Group(h, g) == x
  {
    var k :| 0 <= k < |hs| && Groups(hs, g)[k] == x;
    assert hs[k] in hs;
  }

  /** Each match becomes an edit replacing its span by `f` of it. */
  function ToEdits(hs: seq<Hit>, f: Hit -> string): (r: seq<Edit>)
    ensures |r| == |hs|
    ensures forall k :: 0 <= k < |hs| ==> r[k] == Edit(hs[k].start, hs[k].end, f(hs[k]))
  {
    if hs == [] then [] else [Edit(hs[0].start, hs[0].end, f(hs[0]))] + ToEdits(hs[1..], f)
  }

  /** The edits of a scan lie inside s[from..], in order. */
  lemma ScanOrdered(m: Matcher, s: string, from: nat, f: Hit -> string)
    requires from <= |s|
    ensures Ordered(s, ToEdits(Scan(m, |s|, from), f), from)
  {
  }

  /** The text s[from..] with each match of the scan replaced by `f` of it. */
  function SubScan(m: Matcher, s: string, f: Hit -> string, from: nat): string
    requires from <= |s|
    decreases |s| - from
  {
    if from == |s| then []
    else
      match Found(m, |s|, from)
      case Some(h) => f(h) + SubScan(m, s, f, h.end)
      case None => [s[from]] + SubScan(m, s, f, from + 1)
  }

  /** The substitution is the rebuild of the text with each match of the scan replaced. */
  lemma {:induction false} SubScanRebuild(m: Matcher, s: string, f: Hit -> string, from: nat)
    requires from <= |s|
    ensures Ordered(s, ToEdits(Scan(m, |s|, from), f), from)
    ensures SubScan(m, s, f, from) == Rebuild(s, ToEdits(Scan(m, |s|, from), f), from)
    decreases |s| - from
  {
    var hs := Scan(m, |s|, from);
    ScanOrdered(m, s, from, f);
    if from < |s| {
      match Found(m, |s|, from)
      case Some(h) =>
        SubScanRebuild(m, s, f, h.end);
        var rest := ToEdits(Scan(m, |s|, h.end), f);
        assert hs == [h] + Scan(m, |s|, h.end);
        assert ToEdits(hs, f)[1..] == rest;
        RebuildHead(s, ToEdits(hs, f), from);
      case None =>
        SubScanRebuild(m, s, f, from + 1);
        assert hs == Scan(m, |s|, from + 1);
        RebuildShift(s, ToEdits(hs, f), from, from + 1);
        assert s[from..from + 1] == [s[from]];
    }
  }

  /** Where nothing matches from `from` on, the scan is empty and the substitution copies s[from..]. */
  lemma {:induction false} SubScanNoMatch(m: Matcher, s: string, f: Hit -> string, from: nat)
    requires from <= |s|
    requires forall i :: from <= i < |s| ==> Found(m, |s|, i).None?
    ensures Scan(m, |s|, from) == []
    ensures SubScan(m, s, f, from) == s[from..]
    decreases |s| - from
  {
    if from < |s| {
      SubScanNoMatch(m, s, f, from + 1);
      assert s[from..] == [s[from]] + s[from + 1..];
    }
  }

  /** Where nothing matches in s[from..x], the substitution copies that stretch. */
  lemma {:induction false} SubScanGap(m: Matcher, s: string, f: Hit -> string, from: nat, x: nat)
    requires from <= x <= |s|
    requires forall i :: from <= i < x ==> Found(m, |s|, i).None?
    ensures SubScan(m, s, f, from) == s[from..x] + SubScan(m, s, f, x)
    decreases x - from
  {
    if from < x {
      var tail := SubScan(m, s, f, x);
      var mid := s[from + 1..x];
      SubScanGap(m, s, f, from + 1, x);
      assert SubScan(m, s, f, from) == [s[from]] + SubScan(m, s, f, from + 1);
      assert s[from..x] == [s[from]] + mid;
      assert [s[from]] + (mid + tail) == ([s[from]] + mid) + tail;
    }
  }

  // ---------------------------------------------------------------------
  // finditer, findall and sub of a pattern

  /** The matches lie inside s[from..], in order and without overlap. */
  predicate Scanned(s: string, from: nat, hs: seq<Hit>)
  {
    (forall k :: 0 <= k < |hs| ==> from <= hs[k].start < hs[k].end <= |s|)
    && (forall k, l :: 0 <= k < l < |hs| ==> hs[k].end <= hs[l].start)
  }

  /** `p.finditer(s[from:])` with lookarounds seeing all of `s`. */
  function FindAll(p: Pattern, s: string, from: nat): (r: seq<Hit>)
    requires from <= |s|
    ensures Scanned(s, from, r)
  {
    Scan(At(p, s), |s|, from)
  }

  /** Every match of the scan is the match of the pattern at its own start. */
  lemma FoundAt(p: Pattern, s: string, from: nat, h: Hit)
    requires from <= |s| && h in FindAll(p, s, from)
    ensures h.start < |s| && MatchAt(p, s, h.start) == Some(h) && |h.groups| == Arity(p)
  {
    ScanFound(At(p, s), |s|, from, h);
    AtFound(p, s, h.start);
  }

  lemma ScannedOrdered(s: string, from: nat, hs: seq<Hit>, f: Hit -> string)
    requires from <= |s| && Scanned(s, from, hs)
    ensures Ordered(s, ToEdits(hs, f), from)
  {
  }

  /** `p.sub(f, s[from:])` where `f` computes each replacement from its match. */
  function SubFrom(p: Pattern, s: string, f: Hit -> string, from: nat): string
    requires from <= |s|
  {
    SubScan(At(p, s), s, f, from)
  }

  function Sub(p: Pattern, s: string, f: Hit -> string): string
  {
    SubFrom(p, s, f, 0)
  }

  /** The substitution is the rebuild of the text with each match of the scan replaced. */
  lemma SubFromRebuild(p: Pattern, s: string, f: Hit -> string, from: nat)
    requires from <= |s|
    ensures Ordered(s, ToEdits(FindAll(p, s, from), f), from)
    ensures SubFrom(p, s, f, from) == Rebuild(s, ToEdits(FindAll(p, s, from), f), from)
  {
    SubScanRebuild(At(p, s), s, f, from);
  }

  /** A match found at `from` is the first match of the scan from there. */
  lemma FindAllHit(p: Pattern, s: string, from: nat, h: Hit)
    requires from < |s| && MatchAt(p, s, from) == Some(h)
    ensures h.end <= |s|
    ensures FindAll(p, s, from) == [h] + FindAll(p, s, h.end)
  {
    AtFound(p, s, from);
  }

  /** Where no match starts, the scan goes on at the next position. */
  lemma FindAllSkip(p: Pattern, s: string, from: nat)
    requires from < |s| && MatchAt(p, s, from).None?
    ensures FindAll(p, s, from) == FindAll(p, s, from + 1)
  {
    AtFound(p, s, from);
  }

  /** A substitution emits the replacement of a match found at `from`, then goes on after it. */
  lemma SubFromHit(p: Pattern, s: string, f: Hit -> string, from: nat, h: Hit)
    requires from < |s| && MatchAt(p, s, from) == Some(h)
    ensures h.end <= |s|
    ensures SubFrom(p, s, f, from) == f(h) + SubFrom(p, s, f, h.end)
  {
    AtFound(p, s, from);
  }

  /** Where no match starts, a substitution copies the character. */
  lemma SubFromSkip(p: Pattern, s: string, f: Hit -> string, from: nat)
    requires from < |s| && MatchAt(p, s, from).None?
    ensures SubFrom(p, s, f, from) == [s[from]] + SubFrom(p, s, f, from + 1)
  {
    AtFound(p, s, from);
  }

  /** Where no match starts in s[from..x], a substitution copies that stretch. */
  lemma SubFromGap(p: Pattern, s: string, f: Hit -> string, from: nat, x: nat)
    requires from <= x <= |s|
    requires forall i :: from <= i < x ==> MatchAt(p, s, i).None?
    ensures SubFrom(p, s, f, from) == s[from..x] + SubFrom(p, s, f, x)
  {
    forall i | from <= i < x
      ensures Found(At(p, s), |s|, i).None?
    {
      AtFound(p, s, i);
    }
    SubScanGap(At(p, s), s, f, from, x);
  }

  /** If no position of s[from..] matches, the scan is empty and the substitution copies s[from..]. */
  lemma SubFromNoMatch(p: Pattern, s: string, f: Hit -> string, from: nat)
    requires from <= |s|
    requires forall i :: from <= i < |s| ==> MatchAt(p, s, i).None?
    ensures FindAll(p, s, from) == []
    ensures SubFrom(p, s, f, from) == s[from..]
  {
    forall i | from <= i < |s|
      ensures Found(At(p, s), |s|, i).None?
    {
      AtFound(p, s, i);
    }
    SubScanNoMatch(At(p, s), s, f, from);
  }

  /**
   * Completeness of the scan: a match at `x` that no earlier match of the
   * scan overlaps is one of the matches found.
   */
  lemma FindAllComplete(p: Pattern, s: string, from: nat, x: nat)
    requires from <= x < |s| && MatchAt(p, s, x).Some?
    requires forall h :: h in FindAll(p, s, from) ==> h.end <= x || x <= h.start
    ensures MatchAt(p, s, x).value in FindAll(p, s, from)
  {
    AtFound(p, s, x);
    ScanComplete(At(p, s), |s|, from, x);
  }
}
