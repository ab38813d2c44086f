/**
 * Automatic formula discovery: generalising a formula into a row-independent
 * pattern, the two analysers that turn a formula and the header rows of its
 * workbook into dependencies, referenced sheets and a translation map, the
 * key a discovered formula is stored under, the merge of the per-sheet
 * results, and the configuration section built from them.
 */
module FormulaAutoDiscovery {
  import opened Wrappers
  import opened Text
  import opened Assoc
  import opened Patterns
  import opened Columns

  // ---------------------------------------------------------------------
  // _generalize_formula

  function RowPlaceholder(h: Hit): string
  {
    Group(h, 0) + "{row}"
  }

  /** `_generalize_formula`: every upper-case run followed by digits keeps its letters and loses its row. */
  function Generalize(formula: string): string
  {
    Sub(UpperDigits, formula, RowPlaceholder)
  }

  /** No upper-case letter is directly followed by a digit. */
  predicate NoUpperBeforeDigit(t: string)
  {
    forall i :: 0 < i < |t| ==> !(IsUpper(t[i - 1]) && IsDigit(t[i]))
  }

  lemma NoUpperBeforeDigitConcat(a: string, b: string)
    requires NoUpperBeforeDigit(a) && NoUpperBeforeDigit(b)
    requires a == [] || b == [] || !(IsUpper(a[|a| - 1]) && IsDigit(b[0]))
    ensures NoUpperBeforeDigit(a + b)
  {
    var t := a + b;
    forall i | 0 < i < |t|
      ensures !(IsUpper(t[i - 1]) && IsDigit(t[i]))
    {
      if i < |a| {
        assert t[i - 1] == a[i - 1] && t[i] == a[i];
      } else if i == |a| {
        assert t[i - 1] == a[|a| - 1] && t[i] == b[0];
      } else {
        assert t[i - 1] == b[i - 1 - |a|] && t[i] == b[i - |a|];
      }
    }
  }

  /** The generalised text from `from` on starts with the letters of a match there, or with the character itself. */
  lemma GeneralizeHead(s: string, from: nat)
    requires from < |s|
    ensures |SubFrom(UpperDigits, s, RowPlaceholder, from)| > 0
    ensures MatchAt(UpperDigits, s, from).Some? ==> IsUpper(SubFrom(UpperDigits, s, RowPlaceholder, from)[0])
    ensures MatchAt(UpperDigits, s, from).None? ==> SubFrom(UpperDigits, s, RowPlaceholder, from)[0] == s[from]
  {
    var m := MatchAt(UpperDigits, s, from);
    if m.Some? {
      SubFromHit(UpperDigits, s, RowPlaceholder, from, m.value);
      assert Group(m.value, 0) == m.value.groups[0];
    } else {
      SubFromSkip(UpperDigits, s, RowPlaceholder, from);
    }
  }

  /** A replacement "LETTERS{row}" has no letter before a digit and ends with '}'. */
  lemma PlaceholderHasNoRow(h: Hit)
    requires |h.groups| >= 1 && AllUpper(h.groups[0])
    ensures NoUpperBeforeDigit(RowPlaceholder(h))
    ensures RowPlaceholder(h)[|RowPlaceholder(h)| - 1] == '}'
  {
    var g := RowPlaceholder(h);
    assert g == h.groups[0] + "{row}";
    forall i | 0 < i < |g|
      ensures !(IsUpper(g[i - 1]) && IsDigit(g[i]))
    {
      if i < |h.groups[0]| {
        assert IsUpper(g[i]);
      } else {
        assert !IsDigit(g[i]);
      }
    }
  }

  /** Where no match starts, the copied character cannot be a letter that the next output character turns into a row. */
  lemma SkipBoundary(s: string, from: nat)
    requires from + 1 < |s| && MatchAt(UpperDigits, s, from).None?
    ensures !(IsUpper(s[from]) && IsDigit(SubFrom(UpperDigits, s, RowPlaceholder, from + 1)[0]))
  {
    GeneralizeHead(s, from + 1);
  }

  /** The output of a generalisation never has an upper-case letter directly before a digit. */
  lemma {:induction false} GeneralizedHasNoRow(s: string, from: nat)
    requires from <= |s|
    ensures NoUpperBeforeDigit(SubFrom(UpperDigits, s, RowPlaceholder, from))
    decreases |s| - from
  {
    if from == |s| {
      SubFromNoMatch(UpperDigits, s, RowPlaceholder, from);
    } else {
      var m := MatchAt(UpperDigits, s, from);
      if m.Some? {
        var h := m.value;
        SubFromHit(UpperDigits, s, RowPlaceholder, from, h);
        GeneralizedHasNoRow(s, h.end);
        PlaceholderHasNoRow(h);
        NoUpperBeforeDigitConcat(RowPlaceholder(h), SubFrom(UpperDigits, s, RowPlaceholder, h.end));
      } else {
        SubFromSkip(UpperDigits, s, RowPlaceholder, from);
        GeneralizedHasNoRow(s, from + 1);
        if from + 1 < |s| {
          SkipBoundary(s, from);
        }
        NoUpperBeforeDigitConcat([s[from]], SubFrom(UpperDigits, s, RowPlaceholder, from + 1));
      }
    }
  }

  /** Inside every match the last letter is directly followed by the first digit. */
  lemma MatchHasRow(t: string, i: nat)
    requires i <= |t| && UpperDigitsAt(t, i).Some?
    ensures exists j :: 0 < j < |t| && IsUpper(t[j - 1]) && IsDigit(t[j])
  {
    var g := UpperDigitsAt(t, i).value.groups;
    var j := i + |g[0]|;
    assert t[j - 1] == g[0][|g[0]| - 1] && t[j] == g[1][0];
  }

  /** A text with no upper-case letter before a digit holds no reference to generalise. */
  lemma NoRowNoMatch(t: string, i: nat)
    requires i <= |t| && NoUpperBeforeDigit(t)
    ensures MatchAt(UpperDigits, t, i).None?
  {
    if UpperDigitsAt(t, i).Some? {
      MatchHasRow(t, i);
      assert false;
    }
  }

  /** Generalising twice is generalising once. */
  lemma GeneralizeIdempotent(formula: string)
    ensures NoUpperBeforeDigit(Generalize(formula))
    ensures Generalize(Generalize(formula)) == Generalize(formula)
  {
    var t := Generalize(formula);
    GeneralizedHasNoRow(formula, 0);
    forall i | 0 <= i < |t|
      ensures MatchAt(UpperDigits, t, i).None?
    {
      NoRowNoMatch(t, i);
    }
    SubFromNoMatch(UpperDigits, t, RowPlaceholder, 0);
  }

  /** A run of letters followed by a run of digits that ends the digits is a match. */
  lemma UpperDigitsHit(s: string, i: nat, w: string, d: string)
    requires AllUpper(w) && AllDigits(d) && i + |w| + |d| <= |s|
    requires s[i..i + |w| + |d|] == w + d
    requires i + |w| + |d| == |s| || !IsDigit(s[i + |w| + |d|])
    ensures MatchAt(UpperDigits, s, i) == Some(Hit(i, i + |w| + |d|, [w, d]))
  {
    var n := i + |w|;
    var e := n + |d|;
    assert forall k :: i <= k < n ==> s[k] == (w + d)[k - i];
    assert forall k :: n <= k < e ==> s[k] == (w + d)[k - i];
    assert RunEnd(s, i, IsUpper) == n by {
      assert s[n] == d[0];
    }
    assert RunEnd(s, n, IsDigit) == e;
    assert s[i..n] == w && s[n..e] == d;
  }

  /** A cell reference "<y><b>" ending the text generalises to "<y>{row}". */
  lemma GeneralizeLastCell(s: string, q: nat, y: string, b: string)
    requires AllUpper(y) && AllDigits(b) && q + |y| + |b| == |s|
    requires s[q..] == y + b
    ensures SubFrom(UpperDigits, s, RowPlaceholder, q) == y + "{row}"
  {
    assert s[q..q + |y| + |b|] == s[q..];
    UpperDigitsHit(s, q, y, b);
    var h := Hit(q, |s|, [y, b]);
    SubFromHit(UpperDigits, s, RowPlaceholder, q, h);
    SubFromNoMatch(UpperDigits, s, RowPlaceholder, |s|);
    assert RowPlaceholder(h) == y + "{row}";
  }

  /** A cell reference "<x><a>" followed by a character `c` that neither continues nor starts one. */
  lemma GeneralizeCellThenChar(s: string, i: nat, x: string, a: string, c: char)
    requires AllUpper(x) && AllDigits(a) && i + |x| + |a| < |s|
    requires s[i..i + |x| + |a|] == x + a && s[i + |x| + |a|] == c
    requires !IsDigit(c) && !IsUpper(c)
    ensures SubFrom(UpperDigits, s, RowPlaceholder, i)
         == x + "{row}" + [c] + SubFrom(UpperDigits, s, RowPlaceholder, i + |x| + |a| + 1)
  {
    var p := i + |x| + |a|;
    UpperDigitsHit(s, i, x, a);
    var h := Hit(i, p, [x, a]);
    SubFromHit(UpperDigits, s, RowPlaceholder, i, h);
    assert RowPlaceholder(h) == x + "{row}";
    SubFromSkip(UpperDigits, s, RowPlaceholder, p);
  }

  lemma TwoCellText(x: string, y: string)
    ensures ['='] + (x + "{row}" + ['+'] + (y + "{row}")) == "=" + x + "{row}" + "+" + y + "{row}"
  {
  }

  /** The generalisation of "<x><a>+<y><b>" from position 1 on, stated on the positions of its parts. */
  lemma GeneralizeTwoCellsFrom1(s: string, x: string, a: string, y: string, b: string)
    requires AllUpper(x) && AllDigits(a) && AllUpper(y) && AllDigits(b)
    requires |s| == |x| + |a| + |y| + |b| + 2 && s[1 + |x| + |a|] == '+'
    requires s[1..1 + |x| + |a|] == x + a && s[2 + |x| + |a|..] == y + b
    ensures SubFrom(UpperDigits, s, RowPlaceholder, 1) == x + "{row}" + ['+'] + (y + "{row}")
  {
    var q := 1 + |x| + |a| + 1;
    assert SubFrom(UpperDigits, s, RowPlaceholder, q) == y + "{row}" by {
      assert s[q..] == y + b;
      GeneralizeLastCell(s, q, y, b);
    }
    GeneralizeCellThenChar(s, 1, x, a, '+');
  }

  /** The generalisation of "=<x><a>+<y><b>", stated on the positions of its parts. */
  lemma GeneralizeTwoCellsAt(s: string, x: string, a: string, y: string, b: string)
    requires AllUpper(x) && AllDigits(a) && AllUpper(y) && AllDigits(b)
    requires |s| == |x| + |a| + |y| + |b| + 2 && s[0] == '=' && s[1 + |x| + |a|] == '+'
    requires s[1..1 + |x| + |a|] == x + a && s[2 + |x| + |a|..] == y + b
    ensures Generalize(s) == "=" + x + "{row}" + "+" + y + "{row}"
  {
    GeneralizeTwoCellsFrom1(s, x, a, y, b);
    SubFromSkip(UpperDigits, s, RowPlaceholder, 0);
    TwoCellText(x, y);
  }

  /** A two-cell formula "=<x><a>+<y><b>" generalises to "=<x>{row}+<y>{row}". */
  lemma GeneralizeTwoCells(s: string, x: string, a: string, y: string, b: string)
    requires AllUpper(x) && AllDigits(a) && AllUpper(y) && AllDigits(b)
    requires s == "=" + x + a + "+" + y + b
    ensures Generalize(s) == "=" + x + "{row}" + "+" + y + "{row}"
  {
    var p := 1 + |x| + |a|;
    assert s[1..p] == x + a && s[p] == '+' && s[0] == '=';
    assert s[p + 1..] == y + b;
    GeneralizeTwoCellsAt(s, x, a, y, b);
  }

  /** Two rows of the same two-cell column formula give the same pattern. */
  lemma GeneralizeRowsAgree(x: string, y: string, a: string, b: string, c: string, d: string)
    requires AllUpper(x) && AllUpper(y) && AllDigits(a) && AllDigits(b) && AllDigits(c) && AllDigits(d)
    ensures Generalize("=" + x + a + "+" + y + b) == Generalize("=" + x + c + "+" + y + d)
  {
    GeneralizeTwoCells("=" + x + a + "+" + y + b, x, a, y, b);
    GeneralizeTwoCells("=" + x + c + "+" + y + d, x, c, y, d);
  }

  // ---------------------------------------------------------------------
  // _analyze_formula

  /** Row 1 of one sheet: column index to cell text (a missing index is an empty cell). */
  type HeaderCells = map<nat, string>

  /** Row 1 of every sheet of the workbook, by sheet name (`worksheet.parent`). */
  type BookHeaders = map<string, HeaderCells>

  /** `ws.cell(row=1, column=idx).value` when it is truthy. */
  function HeaderAt(cells: HeaderCells, idx: nat): (r: Option<string>)
    ensures r.Some? <==> idx in cells && cells[idx] != ""
    ensures r.Some? ==> r.value == cells[idx]
  {
    if idx in cells && cells[idx] != "" then Some(cells[idx]) else None
  }

  /**
   * The header above column `col`: None when the cell is empty, and None
   * when the letters name no column (`column_index_from_string` raises and
   * the source catches it).
   */
  function ColumnHeader(cells: HeaderCells, col: string): (r: Option<string>)
    ensures r.Some? ==> ColumnIndex(col).Some? && HeaderAt(cells, ColumnIndex(col).value) == r
    ensures ColumnIndex(col).Some? ==> r == HeaderAt(cells, ColumnIndex(col).value)
  {
    match ColumnIndex(col)
    case None => None
    case Some(idx) => HeaderAt(cells, idx)
  }

  /** The header of column `col` of the sheet named `sheet`, None when the workbook has no such sheet. */
  function SheetHeader(book: BookHeaders, sheet: string, col: string): Option<string>
  {
    if sheet in book then ColumnHeader(book[sheet], col) else None
  }

  /** What the scan of one match adds: dependencies, referenced sheets and map assignments, in source order. */
  datatype Contribution = Contribution(deps: seq<string>, refs: seq<string>, entries: Dict<string, string>)

  const Nothing := Contribution([], [], [])

  function Plus(a: Contribution, b: Contribution): Contribution
  {
    Contribution(a.deps + b.deps, a.refs + b.refs, a.entries + b.entries)
  }

  /** The five scans of `_analyze_formula`, in the order the source runs them. */
  datatype Phase = SheetColumnsPhase | SheetRangePhase | SheetRefPhase | LocalColumnsPhase | MixedPhase

  function PhasePattern(ph: Phase): Pattern
  {
    match ph
    case SheetColumnsPhase => SheetColumns
    case SheetRangePhase => SheetRange
    case SheetRefPhase => SheetRef
    case LocalColumnsPhase => LocalColumns
    case MixedPhase => MixedRef
  }

  /** "Sheet!A:B": the sheet is referenced; the header of the first column, if any, is a dependency and the range's translation. */
  function SheetColumnsStep(book: BookHeaders, h: Hit): Contribution
  {
    var sheet := Group(h, 0);
    match SheetHeader(book, sheet, Group(h, 1))
    case Some(hd) => Contribution([sheet + "!" + hd], [sheet], [(sheet + "!" + Group(h, 1) + ":" + Group(h, 2), hd)])
    case None => Contribution([], [sheet], [])
  }

  /**
   * "Sheet!A1:B10": the sheet is referenced; the headers of the first and,
   * when the letters differ, of the last column are dependencies (the second
   * only when it differs from the first). An invalid last column stops the
   * scan after the first header was recorded.
   */
  function SheetRangeDeps(book: BookHeaders, sheet: string, c1: string, c2: string): seq<string>
  {
    if sheet !in book || ColumnIndex(c1).None? then []
    else
      var h1 := HeaderAt(book[sheet], ColumnIndex(c1).value);
      var first := if h1.Some? then [sheet + "!" + h1.value] else [];
      if c1 == c2 || ColumnIndex(c2).None? then first
      else
        var h2 := HeaderAt(book[sheet], ColumnIndex(c2).value);
        first + (if h2.Some? && h2 != h1 then [sheet + "!" + h2.value] else [])
  }

  function SheetRangeStep(book: BookHeaders, h: Hit): Contribution
  {
    Contribution(SheetRangeDeps(book, Group(h, 0), Group(h, 1), Group(h, 3)), [Group(h, 0)], [])
  }

  /** The translation of "Sheet!COL": the header of that column, or the reference itself. */
  function SheetRefValue(book: BookHeaders, sheet: string, col: string): string
  {
    match SheetHeader(book, sheet, col)
    case Some(hd) => hd
    case None => sheet + "!" + col
  }

  /**
   * "Sheet!A1", when "Sheet!A1" occurs in the formula with its spaces
   * removed: the sheet is referenced, "Sheet!<header>" (or "Sheet!A") is a
   * dependency and "Sheet!A" translates as `SheetRefValue`.
   */
  function SheetRefStep(formula: string, book: BookHeaders, h: Hit): Contribution
  {
    var sheet := Group(h, 0);
    var col := Group(h, 1);
    if !Contains(RemoveChar(formula, ' '), sheet + "!" + col + Group(h, 2)) then Nothing
    else
      var key := sheet + "!" + col;
      match SheetHeader(book, sheet, col)
      case Some(hd) => Contribution([sheet + "!" + hd], [sheet], [(key, hd)])
      case None => Contribution([key], [sheet], [(key, key)])
  }

  /** "A:B" in the current sheet: the header of the first column, if any, is a dependency and the range's translation. */
  function LocalColumnsStep(current: HeaderCells, h: Hit): Contribution
  {
    match ColumnHeader(current, Group(h, 0))
    case Some(hd) => Contribution([hd], [], [(Group(h, 0) + ":" + Group(h, 1), hd)])
    case None => Nothing
  }

  /** The translation of a local column: its header, or its own letters. */
  function MixedValue(current: HeaderCells, col: string): string
  {
    match ColumnHeader(current, col)
    case Some(hd) => hd
    case None => col
  }

  /** The column letters of a map key written as COL, $COL, COL$ or $COL$. */
  function BareColumn(k: string): string
  {
    var a := if |k| > 0 && k[0] == '$' then k[1..] else k;
    if |a| > 0 && a[|a| - 1] == '$' then a[..|a| - 1] else a
  }

  /**
   * A cell reference with optional '$' signs in the cleaned formula. One
   * right after a letter belongs to a function name and is skipped. A column
   * with a header maps COL, $COL, COL$ and $COL$ to it and depends on it;
   * any other column depends on and maps to its own letters.
   */
  function MixedStep(clean: string, current: HeaderCells, h: Hit): Contribution
  {
    var col := Group(h, 0);
    if 0 < h.start <= |clean| && IsAlpha(clean[h.start - 1]) then Nothing
    else
      match ColumnHeader(current, col)
      case Some(hd) => Contribution([hd], [], [(col, hd), ("$" + col, hd), (col + "$", hd), ("$" + col + "$", hd)])
      case None => Contribution([col], [], [(col, col)])
  }

  /** The contribution of one match of phase `ph` in `text` (the formula, or the cleaned formula for the last phase). */
  function Step(ph: Phase, text: string, book: BookHeaders, current: HeaderCells, h: Hit): Contribution
  {
    match ph
    case SheetColumnsPhase => SheetColumnsStep(book, h)
    case SheetRangePhase => SheetRangeStep(book, h)
    case SheetRefPhase => SheetRefStep(text, book, h)
    case LocalColumnsPhase => LocalColumnsStep(current, h)
    case MixedPhase => MixedStep(text, current, h)
  }

  /** The contribution of each match of phase `ph` in `text`. */
  function StepOf(ph: Phase, text: string, book: BookHeaders, current: HeaderCells): Hit -> Contribution
  {
    h => Step(ph, text, book, current, h)
  }

  /** The contributions `f` gives the matches `hs`, in order. */
  function CollectHits(f: Hit -> Contribution, hs: seq<Hit>): Contribution
    decreases |hs|
  {
    if hs == [] then Nothing
    else Plus(CollectHits(f, hs[..|hs| - 1]), f(hs[|hs| - 1]))
  }

  /** The contribution of the whole scan of phase `ph` over `text`. */
  function PhaseResult(ph: Phase, text: string, book: BookHeaders, current: HeaderCells): Contribution
  {
    CollectHits(StepOf(ph, text, book, current), FindAll(PhasePattern(ph), text, 0))
  }

  function Erase(h: Hit): string { "" }

  /** The formula with every sheet-qualified cell, range and column range deleted, in that order. */
  function CleanFormula(formula: string): string
  {
    Sub(SheetColumns, Sub(SheetRange, Sub(SheetRef, formula, Erase), Erase), Erase)
  }

  /** What `_analyze_formula` returns. */
  datatype FormulaAnalysis = FormulaAnalysis(dependencies: seq<string>, sheetReferences: seq<string>, mapping: Dict<string, string>)

  /** The translation map: each phase's assignments applied in turn to an empty dict. */
  function AnalysisMapping(formula: string, book: BookHeaders, current: HeaderCells): Dict<string, string>
  {
    var m1 := Update([], PhaseResult(SheetColumnsPhase, formula, book, current).entries);
    var m2 := Update(m1, PhaseResult(SheetRangePhase, formula, book, current).entries);
    var m3 := Update(m2, PhaseResult(SheetRefPhase, formula, book, current).entries);
    var m4 := Update(m3, PhaseResult(LocalColumnsPhase, formula, book, current).entries);
    Update(m4, PhaseResult(MixedPhase, CleanFormula(formula), book, current).entries)
  }

  /** The specification of `_analyze_formula`. */
  function Analyzed(formula: string, book: BookHeaders, current: HeaderCells): FormulaAnalysis
  {
    var c1 := PhaseResult(SheetColumnsPhase, formula, book, current);
    var c2 := PhaseResult(SheetRangePhase, formula, book, current);
    var c3 := PhaseResult(SheetRefPhase, formula, book, current);
    var c4 := PhaseResult(LocalColumnsPhase, formula, book, current);
    var c5 := PhaseResult(MixedPhase, CleanFormula(formula), book, current);
    FormulaAnalysis(Dedup(c1.deps + c2.deps + c3.deps + c4.deps + c5.deps),
             Dedup(c1.refs + c2.refs + c3.refs + c4.refs + c5.refs),
             AnalysisMapping(formula, book, current))
  }

  /** Assigning four keys the same value is four `Put`s. */
  lemma UpdateFour(m: Dict<string, string>, k1: string, k2: string, k3: string, k4: string, v: string)
    ensures Update(m, [(k1, v), (k2, v), (k3, v), (k4, v)]) == Put(Put(Put(Put(m, k1, v), k2, v), k3, v), k4, v)
  {
    var e := [(k1, v), (k2, v), (k3, v), (k4, v)];
    var m1 := Put(m, k1, v);
    var m2 := Put(m1, k2, v);
    var m3 := Put(m2, k3, v);
    var m4 := Put(m3, k4, v);
    assert e[1..] == [(k2, v), (k3, v), (k4, v)];
    assert e[1..][1..] == [(k3, v), (k4, v)];
    assert e[1..][1..][1..] == [(k4, v)];
    assert Update(m3, [(k4, v)]) == m4 by {
      UpdateOne(m3, k4, v);
    }
    assert Update(m2, [(k3, v), (k4, v)]) == Update(m3, [(k4, v)]);
    assert Update(m1, [(k2, v), (k3, v), (k4, v)]) == Update(m2, [(k3, v), (k4, v)]);
    assert Update(m, e) == Update(m1, [(k2, v), (k3, v), (k4, v)]);
  }

  /** One iteration of the "Sheet!A:B" loop. */
  method SheetColumnsHit(book: BookHeaders, h: Hit, deps: seq<string>, refs: seq<string>, mapping: Dict<string, string>)
    returns (deps': seq<string>, refs': seq<string>, mapping': Dict<string, string>)
    ensures deps' == deps + SheetColumnsStep(book, h).deps
    ensures refs' == refs + SheetColumnsStep(book, h).refs
    ensures mapping' == Update(mapping, SheetColumnsStep(book, h).entries)
  {
    var sheet := Group(h, 0);
    deps', refs', mapping' := deps, refs + [sheet], mapping;
    if sheet in book {
      var idx := ColumnIndex(Group(h, 1));
      if idx.Some? {
        var header := HeaderAt(book[sheet], idx.value);
        if header.Some? {
          deps' := deps' + [sheet + "!" + header.value];
          mapping' := Put(mapping', sheet + "!" + Group(h, 1) + ":" + Group(h, 2), header.value);
          UpdateOne(mapping, sheet + "!" + Group(h, 1) + ":" + Group(h, 2), header.value);
        }
      }
    }
  }

  /** One iteration of the "Sheet!A1:B10" loop. */
  method SheetRangeHit(book: BookHeaders, h: Hit, deps: seq<string>, refs: seq<string>)
    returns (deps': seq<string>, refs': seq<string>)
    ensures deps' == deps + SheetRangeStep(book, h).deps
    ensures refs' == refs + SheetRangeStep(book, h).refs
  {
    var sheet, col1, col2 := Group(h, 0), Group(h, 1), Group(h, 3);
    deps', refs' := deps, refs + [sheet];
    if sheet in book {
      var idx1 := ColumnIndex(col1);
      if idx1.Some? {
        var header1 := HeaderAt(book[sheet], idx1.value);
        if header1.Some? {
          deps' := deps' + [sheet + "!" + header1.value];
        }
        if col1 != col2 {
          var idx2 := ColumnIndex(col2);
          if idx2.Some? {
            var header2 := HeaderAt(book[sheet], idx2.value);
            if header2.Some? && header2 != header1 {
              deps' := deps' + [sheet + "!" + header2.value];
            }
          }
        }
      }
    }
  }

  /** One iteration of the "Sheet!A1" loop. */
  method SheetRefHit(formula: string, book: BookHeaders, h: Hit, deps: seq<string>, refs: seq<string>, mapping: Dict<string, string>)
    returns (deps': seq<string>, refs': seq<string>, mapping': Dict<string, string>)
    ensures deps' == deps + SheetRefStep(formula, book, h).deps
    ensures refs' == refs + SheetRefStep(formula, book, h).refs
    ensures mapping' == Update(mapping, SheetRefStep(formula, book, h).entries)
  {
    var sheet, col, row := Group(h, 0), Group(h, 1), Group(h, 2);
    deps', refs', mapping' := deps, refs, mapping;
    if Contains(RemoveChar(formula, ' '), sheet + "!" + col + row) {
      refs' := refs' + [sheet];
      var header := SheetHeader(book, sheet, col);
      if header.Some? {
        deps' := deps' + [sheet + "!" + header.value];
        mapping' := Put(mapping', sheet + "!" + col, header.value);
        UpdateOne(mapping, sheet + "!" + col, header.value);
      } else {
        deps' := deps' + [sheet + "!" + col];
        mapping' := Put(mapping', sheet + "!" + col, sheet + "!" + col);
        UpdateOne(mapping, sheet + "!" + col, sheet + "!" + col);
      }
    }
  }

  /** One iteration of the "A:B" loop. */
  method LocalColumnsHit(current: HeaderCells, h: Hit, deps: seq<string>, mapping: Dict<string, string>)
    returns (deps': seq<string>, mapping': Dict<string, string>)
    ensures deps' == deps + LocalColumnsStep(current, h).deps
    ensures mapping' == Update(mapping, LocalColumnsStep(current, h).entries)
  {
    var col1, col2 := Group(h, 0), Group(h, 1);
    deps', mapping' := deps, mapping;
    var header := ColumnHeader(current, col1);
    if header.Some? {
      deps' := deps' + [header.value];
      mapping' := Put(mapping', col1 + ":" + col2, header.value);
      UpdateOne(mapping, col1 + ":" + col2, header.value);
    }
  }

  /** One iteration of the loop over cell references in the cleaned formula. */
  method MixedHit(clean: string, current: HeaderCells, h: Hit, deps: seq<string>, mapping: Dict<string, string>)
    returns (deps': seq<string>, mapping': Dict<string, string>)
    ensures deps' == deps + MixedStep(clean, current, h).deps
    ensures mapping' == Update(mapping, MixedStep(clean, current, h).entries)
  {
    var col := Group(h, 0);
    var pos := h.start;
    deps', mapping' := deps, mapping;
    if !(0 < pos <= |clean| && IsAlpha(clean[pos - 1])) {
      var header := ColumnHeader(current, col);
      if header.Some? {
        var hd := header.value;
        deps' := deps' + [hd];
        mapping' := Put(mapping', col, hd);
        mapping' := Put(mapping', "$" + col, hd);
        mapping' := Put(mapping', col + "$", hd);
        mapping' := Put(mapping', "$" + col + "$", hd);
        assert MixedStep(clean, current, h).entries == [(col, hd), ("$" + col, hd), (col + "$", hd), ("$" + col + "$", hd)];
        UpdateFour(mapping, col, "$" + col, col + "$", "$" + col + "$", hd);
      } else {
        deps' := deps' + [col];
        mapping' := Put(mapping', col, col);
        assert MixedStep(clean, current, h).entries == [(col, col)];
        UpdateOne(mapping, col, col);
      }
    } else {
      assert MixedStep(clean, current, h) == Nothing;
    }
  }

  /** One iteration of a scan loop of `_analyze_formula`. */
  method ApplyHit(ph: Phase, text: string, book: BookHeaders, current: HeaderCells, h: Hit,
                  deps: seq<string>, refs: seq<string>, mapping: Dict<string, string>)
    returns (deps': seq<string>, refs': seq<string>, mapping': Dict<string, string>)
    ensures deps' == deps + Step(ph, text, book, current, h).deps
    ensures refs' == refs + Step(ph, text, book, current, h).refs
    ensures mapping' == Update(mapping, Step(ph, text, book, current, h).entries)
  {
    deps', refs', mapping' := deps, refs, mapping;
    match ph {
      case SheetColumnsPhase =>
        deps', refs', mapping' := SheetColumnsHit(book, h, deps, refs, mapping);
      case SheetRangePhase =>
        deps', refs' := SheetRangeHit(book, h, deps, refs);
      case SheetRefPhase =>
        deps', refs', mapping' := SheetRefHit(text, book, h, deps, refs, mapping);
      case LocalColumnsPhase =>
        deps', mapping' := LocalColumnsHit(current, h, deps, mapping);
        assert refs' == refs + [];
      case MixedPhase =>
        deps', mapping' := MixedHit(text, current, h, deps, mapping);
        assert refs' == refs + [];
    }
  }

  /** Collecting one more match adds its contribution at the end. */
  lemma CollectHitsSnoc(f: Hit -> Contribution, hs: seq<Hit>, k: nat)
    requires k < |hs|
    ensures CollectHits(f, hs[..k + 1]) == Plus(CollectHits(f, hs[..k]), f(hs[k]))
  {
    assert hs[..k + 1][..k] == hs[..k];
  }

  /** The loop state after one more match is the collected state of one more match. */
  lemma RunPhaseStep(f: Hit -> Contribution, hs: seq<Hit>, k: nat,
                     deps: seq<string>, refs: seq<string>, mapping: Dict<string, string>,
                     d0: seq<string>, r0: seq<string>, m0: Dict<string, string>,
                     d1: seq<string>, r1: seq<string>, m1: Dict<string, string>)
    requires k < |hs|
    requires d0 == deps + CollectHits(f, hs[..k]).deps && r0 == refs + CollectHits(f, hs[..k]).refs
             && m0 == Update(mapping, CollectHits(f, hs[..k]).entries)
    requires d1 == d0 + f(hs[k]).deps && r1 == r0 + f(hs[k]).refs && m1 == Update(m0, f(hs[k]).entries)
    ensures d1 == deps + CollectHits(f, hs[..k + 1]).deps && r1 == refs + CollectHits(f, hs[..k + 1]).refs
    ensures m1 == Update(mapping, CollectHits(f, hs[..k + 1]).entries)
  {
    var c, st := CollectHits(f, hs[..k]), f(hs[k]);
    CollectHitsSnoc(f, hs, k);
    assert deps + c.deps + st.deps == deps + (c.deps + st.deps);
    assert refs + c.refs + st.refs == refs + (c.refs + st.refs);
    UpdateAppend(mapping, c.entries, st.entries);
  }

  /** One `for match in pattern.finditer(text)` loop of `_analyze_formula`. */
  method RunPhase(ph: Phase, text: string, book: BookHeaders, current: HeaderCells,
                  deps: seq<string>, refs: seq<string>, mapping: Dict<string, string>)
    returns (deps': seq<string>, refs': seq<string>, mapping': Dict<string, string>)
    ensures deps' == deps + PhaseResult(ph, text, book, current).deps
    ensures refs' == refs + PhaseResult(ph, text, book, current).refs
    ensures mapping' == Update(mapping, PhaseResult(ph, text, book, current).entries)
  {
    var hs := FindAll(PhasePattern(ph), text, 0);
    ghost var f := StepOf(ph, text, book, current);
    deps', refs', mapping' := deps, refs, mapping;
    var k := 0;
    assert hs[..0] == [];
    while k < |hs|
      invariant 0 <= k <= |hs|
      invariant deps' == deps + CollectHits(f, hs[..k]).deps && refs' == refs + CollectHits(f, hs[..k]).refs
      invariant mapping' == Update(mapping, CollectHits(f, hs[..k]).entries)
    {
      var d1, r1, m1 := ApplyHit(ph, text, book, current, hs[k], deps', refs', mapping');
      assert f(hs[k]) == Step(ph, text, book, current, hs[k]);
      RunPhaseStep(f, hs, k, deps, refs, mapping, deps', refs', mapping', d1, r1, m1);
      deps', refs', mapping' := d1, r1, m1;
      k := k + 1;
    }
    assert hs[..k] == hs;
  }

  /** `_analyze_formula(formula, worksheet, col_letter)`, with the workbook's header rows and the sheet's own. */
  method AnalyzeFormula(formula: string, book: BookHeaders, current: HeaderCells) returns (a: FormulaAnalysis)
    ensures a == Analyzed(formula, book, current)
  {
    ghost var c1 := PhaseResult(SheetColumnsPhase, formula, book, current);
    ghost var c2 := PhaseResult(SheetRangePhase, formula, book, current);
    ghost var c3 := PhaseResult(SheetRefPhase, formula, book, current);
    ghost var c4 := PhaseResult(LocalColumnsPhase, formula, book, current);
    var deps: seq<string>, refs: seq<string>, mapping: Dict<string, string> := [], [], [];
    deps, refs, mapping := RunPhase(SheetColumnsPhase, formula, book, current, deps, refs, mapping);
    assert deps == c1.deps && refs == c1.refs;
    deps, refs, mapping := RunPhase(SheetRangePhase, formula, book, current, deps, refs, mapping);
    deps, refs, mapping := RunPhase(SheetRefPhase, formula, book, current, deps, refs, mapping);
    deps, refs, mapping := RunPhase(LocalColumnsPhase, formula, book, current, deps, refs, mapping);
    var clean := formula;
    clean := Sub(SheetRef, clean, Erase);
    clean := Sub(SheetRange, clean, Erase);
    clean := Sub(SheetColumns, clean, Erase);
    assert clean == CleanFormula(formula);
    ghost var c5 := PhaseResult(MixedPhase, clean, book, current);
    deps, refs, mapping := RunPhase(MixedPhase, clean, book, current, deps, refs, mapping);
    assert deps == c1.deps + c2.deps + c3.deps + c4.deps + c5.deps;
    assert refs == c1.refs + c2.refs + c3.refs + c4.refs + c5.refs;
    assert mapping == AnalysisMapping(formula, book, current);
    a := FormulaAnalysis(Dedup(deps), Dedup(refs), mapping);
  }

  // ---------------------------------------------------------------------
  // What _analyze_formula promises

  /** Whatever one match contributes is part of the scan's contribution. */
  lemma {:induction false} CollectIncludes(f: Hit -> Contribution, hs: seq<Hit>, i: nat)
    requires i < |hs|
    ensures forall x :: x in f(hs[i]).deps ==> x in CollectHits(f, hs).deps
    ensures forall x :: x in f(hs[i]).refs ==> x in CollectHits(f, hs).refs
    ensures forall p :: p in f(hs[i]).entries ==> p in CollectHits(f, hs).entries
    decreases |hs|
  {
    if i < |hs| - 1 {
      var init := hs[..|hs| - 1];
      assert init[i] == hs[i];
      CollectIncludes(f, init, i);
    }
  }

  /** Whatever a match of the phase's pattern contributes is part of the phase's result. */
  lemma StepIncluded(ph: Phase, text: string, book: BookHeaders, current: HeaderCells, h: Hit)
    requires h in FindAll(PhasePattern(ph), text, 0)
    ensures forall x :: x in Step(ph, text, book, current, h).deps ==> x in PhaseResult(ph, text, book, current).deps
    ensures forall x :: x in Step(ph, text, book, current, h).refs ==> x in PhaseResult(ph, text, book, current).refs
    ensures forall p :: p in Step(ph, text, book, current, h).entries ==> p in PhaseResult(ph, text, book, current).entries
  {
    var hs := FindAll(PhasePattern(ph), text, 0);
    var i :| 0 <= i < |hs| && hs[i] == h;
    CollectIncludes(StepOf(ph, text, book, current), hs, i);
    assert StepOf(ph, text, book, current)(h) == Step(ph, text, book, current, h);
  }

  /** Whatever the scan contributes comes from one of its matches. */
  lemma {:induction false} CollectSources(f: Hit -> Contribution, hs: seq<Hit>)
    ensures forall x :: x in CollectHits(f, hs).deps ==> exists i :: 0 <= i < |hs| && x in f(hs[i]).deps
    ensures forall p :: p in CollectHits(f, hs).entries ==> exists i :: 0 <= i < |hs| && p in f(hs[i]).entries
    decreases |hs|
  {
    if hs != [] {
      var n := |hs| - 1;
      var init := hs[..n];
      CollectSources(f, init);
      forall x | x in CollectHits(f, hs).deps
        ensures exists i :: 0 <= i < |hs| && x in f(hs[i]).deps
      {
        if x in CollectHits(f, init).deps {
          var i :| 0 <= i < |init| && x in f(init[i]).deps;
          assert init[i] == hs[i];
        } else {
          assert x in f(hs[n]).deps;
        }
      }
      forall p | p in CollectHits(f, hs).entries
        ensures exists i :: 0 <= i < |hs| && p in f(hs[i]).entries
      {
        if p in CollectHits(f, init).entries {
          var i :| 0 <= i < |init| && p in f(init[i]).entries;
          assert init[i] == hs[i];
        } else {
          assert p in f(hs[n]).entries;
        }
      }
    }
  }

  /** A key made of column letters and '$' signs. */
  predicate IsColumnKey(k: string)
  {
    forall i :: 0 <= i < |k| ==> IsUpper(k[i]) || k[i] == '$'
  }

  /** The four spellings of a column are column keys that all name that column. */
  lemma ColumnKeyForms(col: string)
    requires AllUpper(col)
    ensures IsColumnKey(col) && IsColumnKey("$" + col) && IsColumnKey(col + "$") && IsColumnKey("$" + col + "$")
    ensures BareColumn(col) == col && BareColumn("$" + col) == col
    ensures BareColumn(col + "$") == col && BareColumn("$" + col + "$") == col
  {
    assert ("$" + col)[1..] == col;
    assert ("$" + col + "$")[1..] == col + "$";
    assert (col + "$")[..|col|] == col;
  }

  /** An assignment of the cell-reference scan: a column key mapped to that column's translation. */
  predicate MixedEntry(current: HeaderCells, p: (string, string))
  {
    IsColumnKey(p.0) && p.1 == MixedValue(current, BareColumn(p.0))
  }

  /** An assignment of the "Sheet!A1" scan: "Sheet!COL" mapped to that column's translation. */
  predicate SheetRefEntry(book: BookHeaders, p: (string, string))
  {
    HasChar(p.0, '!') && p.1 == SheetRefValue(book, SplitAtBang(p.0).0, SplitAtBang(p.0).1)
  }

  /** A match of the cell-reference pattern assigns only `MixedEntry` pairs. */
  lemma MixedStepEntries(clean: string, current: HeaderCells, h: Hit)
    requires h.start <= |clean| && MatchAt(MixedRef, clean, h.start) == Some(h)
    ensures forall p :: p in MixedStep(clean, current, h).entries ==> MixedEntry(current, p)
  {
    assert AllUpper(Group(h, 0)) by {
      assert MixedRefAt(clean, h.start) == Some(h);
    }
    MixedLettersEntries(clean, current, h);
  }

  lemma MixedLettersEntries(clean: string, current: HeaderCells, h: Hit)
    requires AllUpper(Group(h, 0))
    ensures forall p :: p in MixedStep(clean, current, h).entries ==> MixedEntry(current, p)
  {
    var col := Group(h, 0);
    var es := MixedStep(clean, current, h).entries;
    if 0 < h.start <= |clean| && IsAlpha(clean[h.start - 1]) {
      assert es == [];
    } else {
      var v := MixedValue(current, col);
      ColumnKeyForms(col);
      match ColumnHeader(current, col)
      case Some(hd) =>
        var k1, k2, k3, k4 := col, "$" + col, col + "$", "$" + col + "$";
        assert es == [(k1, v), (k2, v), (k3, v), (k4, v)];
        assert MixedEntry(current, (k1, v)) && MixedEntry(current, (k2, v));
        assert MixedEntry(current, (k3, v)) && MixedEntry(current, (k4, v));
      case None =>
        assert es == [(col, v)];
        assert MixedEntry(current, (col, v));
    }
  }

  /** A match of the "Sheet!A1" pattern assigns only `SheetRefEntry` pairs. */
  lemma SheetRefStepEntries(formula: string, book: BookHeaders, h: Hit)
    requires h.start <= |formula| && MatchAt(SheetRef, formula, h.start) == Some(h)
    ensures forall p :: p in SheetRefStep(formula, book, h).entries ==> SheetRefEntry(book, p)
  {
    SheetRefChars(formula, h.start);
    SplitJoin(h.groups[0], h.groups[1]);
  }

  /** A match of the "A:B" pattern assigns only keys without '!'. */
  lemma LocalColumnsStepEntries(formula: string, current: HeaderCells, h: Hit)
    requires h.start <= |formula| && MatchAt(LocalColumns, formula, h.start) == Some(h)
    ensures forall p :: p in LocalColumnsStep(current, h).entries ==> !HasChar(p.0, '!')
  {
    var k := h.groups[0] + ":" + h.groups[1];
    forall i | 0 <= i < |k| ensures k[i] != '!' {
      if i < |h.groups[0]| {
        assert k[i] == h.groups[0][i];
      } else if i > |h.groups[0]| {
        assert k[i] == h.groups[1][i - |h.groups[0]| - 1];
      }
    }
  }

  /** Every assignment of the cell-reference scan is a `MixedEntry`. */
  lemma MixedEntries(clean: string, book: BookHeaders, current: HeaderCells)
    ensures forall p :: p in PhaseResult(MixedPhase, clean, book, current).entries ==> MixedEntry(current, p)
  {
    var hs := FindAll(MixedRef, clean, 0);
    var f := StepOf(MixedPhase, clean, book, current);
    CollectSources(f, hs);
    forall p | p in CollectHits(f, hs).entries
      ensures MixedEntry(current, p)
    {
      var i :| 0 <= i < |hs| && p in f(hs[i]).entries;
      assert f(hs[i]) == Step(MixedPhase, clean, book, current, hs[i]);
      assert hs[i] in hs;
      FoundAt(MixedRef, clean, 0, hs[i]);
      MixedStepEntries(clean, current, hs[i]);
    }
  }

  /** Every assignment of the "Sheet!A1" scan is a `SheetRefEntry`. */
  lemma SheetRefEntries(formula: string, book: BookHeaders, current: HeaderCells)
    ensures forall p :: p in PhaseResult(SheetRefPhase, formula, book, current).entries ==> SheetRefEntry(book, p)
  {
    var hs := FindAll(SheetRef, formula, 0);
    var f := StepOf(SheetRefPhase, formula, book, current);
    CollectSources(f, hs);
    forall p | p in CollectHits(f, hs).entries
      ensures SheetRefEntry(book, p)
    {
      var i :| 0 <= i < |hs| && p in f(hs[i]).entries;
      var h := hs[i];
      assert f(h) == SheetRefStep(formula, book, h);
      assert h in hs;
      FoundAt(SheetRef, formula, 0, h);
      SheetRefStepEntries(formula, book, h);
    }
  }

  /** No key assigned by the "A:B" scan holds a '!'. */
  lemma LocalColumnsEntries(formula: string, book: BookHeaders, current: HeaderCells)
    ensures forall p :: p in PhaseResult(LocalColumnsPhase, formula, book, current).entries ==> !HasChar(p.0, '!')
  {
    var hs := FindAll(LocalColumns, formula, 0);
    var f := StepOf(LocalColumnsPhase, formula, book, current);
    CollectSources(f, hs);
    forall p | p in CollectHits(f, hs).entries
      ensures !HasChar(p.0, '!')
    {
      var i :| 0 <= i < |hs| && p in f(hs[i]).entries;
      assert f(hs[i]) == Step(LocalColumnsPhase, formula, book, current, hs[i]);
      assert hs[i] in hs;
      FoundAt(LocalColumns, formula, 0, hs[i]);
      LocalColumnsStepEntries(formula, current, hs[i]);
    }
  }

  /** The "Sheet!A1:B10" scan assigns nothing. */
  lemma {:induction false} SheetRangeAssignsNothing(formula: string, book: BookHeaders, current: HeaderCells, hs: seq<Hit>)
    ensures CollectHits(StepOf(SheetRangePhase, formula, book, current), hs).entries == []
    decreases |hs|
  {
    if hs != [] {
      SheetRangeAssignsNothing(formula, book, current, hs[..|hs| - 1]);
      assert StepOf(SheetRangePhase, formula, book, current)(hs[|hs| - 1]).entries == [];
    }
  }

  /**
   * The source records "Sheet!A1" only when it occurs in the formula with
   * its spaces removed. The match holds no space, so it always does: every
   * match references its sheet and assigns "Sheet!COL".
   */
  lemma SheetRefAlwaysRecorded(formula: string, book: BookHeaders, h: Hit)
    requires h.start <= |formula| && MatchAt(SheetRef, formula, h.start) == Some(h)
    ensures Contains(RemoveChar(formula, ' '), Group(h, 0) + "!" + Group(h, 1) + Group(h, 2))
    ensures SheetRefStep(formula, book, h).refs == [Group(h, 0)]
    ensures SheetRefStep(formula, book, h).deps
         == [Group(h, 0) + "!" + (if SheetHeader(book, Group(h, 0), Group(h, 1)).Some?
                                  then SheetHeader(book, Group(h, 0), Group(h, 1)).value else Group(h, 1))]
    ensures SheetRefStep(formula, book, h).entries
         == [(Group(h, 0) + "!" + Group(h, 1), SheetRefValue(book, Group(h, 0), Group(h, 1)))]
  {
    SheetRefChars(formula, h.start);
    SliceSurvivesRemoval(formula, h.start, h.end, ' ');
  }

  /**
   * Looking a key up in the translation map: the last scan that assigns the
   * key decides, and within that scan its last assignment; a key no scan
   * assigns is absent. The map never holds a key twice.
   */
  lemma AnalysisMappingGet(formula: string, book: BookHeaders, current: HeaderCells, k: string)
    ensures DistinctKeys(AnalysisMapping(formula, book, current))
    ensures var e1 := PhaseResult(SheetColumnsPhase, formula, book, current).entries;
            var e3 := PhaseResult(SheetRefPhase, formula, book, current).entries;
            var e4 := PhaseResult(LocalColumnsPhase, formula, book, current).entries;
            var e5 := PhaseResult(MixedPhase, CleanFormula(formula), book, current).entries;
            Get(AnalysisMapping(formula, book, current), k)
            == if HasKey(e5, k) then LastValue(e5, k)
               else if HasKey(e4, k) then LastValue(e4, k)
               else if HasKey(e3, k) then LastValue(e3, k)
               else if HasKey(e1, k) then LastValue(e1, k)
               else None
  {
    var e1 := PhaseResult(SheetColumnsPhase, formula, book, current).entries;
    var e2 := PhaseResult(SheetRangePhase, formula, book, current).entries;
    var e3 := PhaseResult(SheetRefPhase, formula, book, current).entries;
    var e4 := PhaseResult(LocalColumnsPhase, formula, book, current).entries;
    var e5 := PhaseResult(MixedPhase, CleanFormula(formula), book, current).entries;
    SheetRangeAssignsNothing(formula, book, current, FindAll(SheetRange, formula, 0));
    var m0: Dict<string, string> := [];
    var m1 := Update(m0, e1);
    var m2 := Update(m1, e2);
    var m3 := Update(m2, e3);
    var m4 := Update(m3, e4);
    assert Update(m4, e5) == AnalysisMapping(formula, book, current);
    GetUpdate(m0, e1, k);
    assert m2 == m1;
    GetUpdate(m1, e3, k);
    GetUpdate(m3, e4, k);
    GetUpdate(m4, e5, k);
  }

  /** The analysis lists every dependency and referenced sheet of every scan. */
  lemma AnalysisGathers(formula: string, book: BookHeaders, current: HeaderCells, ph: Phase)
    ensures var a := Analyzed(formula, book, current);
            var c := PhaseResult(ph, if ph == MixedPhase then CleanFormula(formula) else formula, book, current);
            (forall x :: x in c.deps ==> x in a.dependencies)
            && (forall x :: x in c.refs ==> x in a.sheetReferences)
            && a.mapping == AnalysisMapping(formula, book, current)
  {
  }

  /** A key holding '!' is not assigned by a scan none of whose keys holds one. */
  lemma BangKeyAbsent(e: Dict<string, string>, key: string)
    requires forall p :: p in e ==> !HasChar(p.0, '!')
    requires HasChar(key, '!')
    ensures !HasKey(e, key)
  {
    forall i | 0 <= i < |e| ensures Keys(e)[i] != key {
      assert e[i] in e;
    }
  }

  /** A key holding '!' is not assigned by the cell-reference scan. */
  lemma BangKeyNotMixed(clean: string, book: BookHeaders, current: HeaderCells, key: string)
    requires HasChar(key, '!')
    ensures !HasKey(PhaseResult(MixedPhase, clean, book, current).entries, key)
  {
    var e5 := PhaseResult(MixedPhase, clean, book, current).entries;
    MixedEntries(clean, book, current);
    forall p | p in e5 ensures !HasChar(p.0, '!') {
      assert IsColumnKey(p.0);
    }
    BangKeyAbsent(e5, key);
  }

  /** An assignment of the "Sheet!A1" scan survives in the translation map. */
  lemma SheetRefMapping(formula: string, book: BookHeaders, current: HeaderCells, key: string, v: string)
    requires (key, v) in PhaseResult(SheetRefPhase, formula, book, current).entries
    ensures Get(AnalysisMapping(formula, book, current), key) == Some(v)
  {
    var e3 := PhaseResult(SheetRefPhase, formula, book, current).entries;
    var e4 := PhaseResult(LocalColumnsPhase, formula, book, current).entries;
    var e5 := PhaseResult(MixedPhase, CleanFormula(formula), book, current).entries;
    SheetRefEntries(formula, book, current);
    assert HasChar(key, '!');
    PairHasKey(e3, (key, v));
    LastValueUniform(e3, key, v);
    LocalColumnsEntries(formula, book, current);
    BangKeyAbsent(e4, key);
    BangKeyNotMixed(CleanFormula(formula), book, current, key);
    AnalysisMappingGet(formula, book, current, key);
  }

  /**
   * A "Sheet!A1" of the formula contributes its sheet to the scan's
   * references, "Sheet!<header>" or else "Sheet!COL" to its dependencies,
   * and assigns "Sheet!COL".
   */
  lemma SheetRefCollected(formula: string, book: BookHeaders, current: HeaderCells, h: Hit)
    requires h in FindAll(SheetRef, formula, 0)
    ensures Group(h, 0) in PhaseResult(SheetRefPhase, formula, book, current).refs
    ensures Group(h, 0) + "!" + (if SheetHeader(book, Group(h, 0), Group(h, 1)).Some?
                                 then SheetHeader(book, Group(h, 0), Group(h, 1)).value else Group(h, 1))
            in PhaseResult(SheetRefPhase, formula, book, current).deps
    ensures (Group(h, 0) + "!" + Group(h, 1), SheetRefValue(book, Group(h, 0), Group(h, 1)))
            in PhaseResult(SheetRefPhase, formula, book, current).entries
  {
    var sheet, col := Group(h, 0), Group(h, 1);
    var d := sheet + "!" + (if SheetHeader(book, sheet, col).Some? then SheetHeader(book, sheet, col).value else col);
    var p := (sheet + "!" + col, SheetRefValue(book, sheet, col));
    var st := Step(SheetRefPhase, formula, book, current, h);
    assert st.refs == [sheet] && st.deps == [d] && st.entries == [p] by {
      FoundAt(SheetRef, formula, 0, h);
      SheetRefAlwaysRecorded(formula, book, h);
    }
    assert sheet in st.refs && d in st.deps && p in st.entries;
    StepIncluded(SheetRefPhase, formula, book, current, h);
  }

  /**
   * Every "Sheet!A1" of the formula: its sheet is referenced, the sheet's
   * header of that column ("Sheet!<header>") or else "Sheet!COL" is a
   * dependency, and "Sheet!COL" translates to the header or stays itself.
   */
  lemma SheetRefTranslation(formula: string, book: BookHeaders, current: HeaderCells, h: Hit)
    requires h in FindAll(SheetRef, formula, 0)
    ensures Group(h, 0) in Analyzed(formula, book, current).sheetReferences
    ensures SheetHeader(book, Group(h, 0), Group(h, 1)).Some? ==>
              Group(h, 0) + "!" + SheetHeader(book, Group(h, 0), Group(h, 1)).value in Analyzed(formula, book, current).dependencies
    ensures SheetHeader(book, Group(h, 0), Group(h, 1)).None? ==>
              Group(h, 0) + "!" + Group(h, 1) in Analyzed(formula, book, current).dependencies
    ensures Get(Analyzed(formula, book, current).mapping, Group(h, 0) + "!" + Group(h, 1))
         == Some(SheetRefValue(book, Group(h, 0), Group(h, 1)))
  {
    SheetRefCollected(formula, book, current, h);
    SheetRefMapping(formula, book, current, Group(h, 0) + "!" + Group(h, 1), SheetRefValue(book, Group(h, 0), Group(h, 1)));
    AnalysisGathers(formula, book, current, SheetRefPhase);
  }

  /** An assignment of the cell-reference scan is what the translation map holds. */
  lemma MixedMapping(formula: string, book: BookHeaders, current: HeaderCells, key: string, v: string)
    requires (key, v) in PhaseResult(MixedPhase, CleanFormula(formula), book, current).entries
    ensures Get(AnalysisMapping(formula, book, current), key) == Some(v)
  {
    var e5 := PhaseResult(MixedPhase, CleanFormula(formula), book, current).entries;
    MixedEntries(CleanFormula(formula), book, current);
    PairHasKey(e5, (key, v));
    LastValueUniform(e5, key, v);
    AnalysisMappingGet(formula, book, current, key);
  }

  /**
   * A cell reference of the cleaned formula that does not follow a letter
   * contributes its column's value to the scan's dependencies and assigns
   * it to the column, and to the $-forms of the column when the column has
   * a header.
   */
  lemma MixedCollected(clean: string, book: BookHeaders, current: HeaderCells, h: Hit)
    requires h in FindAll(MixedRef, clean, 0)
    requires !(0 < h.start <= |clean| && IsAlpha(clean[h.start - 1]))
    ensures MixedValue(current, Group(h, 0)) in PhaseResult(MixedPhase, clean, book, current).deps
    ensures (Group(h, 0), MixedValue(current, Group(h, 0))) in PhaseResult(MixedPhase, clean, book, current).entries
    ensures ColumnHeader(current, Group(h, 0)).Some? ==>
              var v := MixedValue(current, Group(h, 0));
              var e := PhaseResult(MixedPhase, clean, book, current).entries;
              ("$" + Group(h, 0), v) in e && (Group(h, 0) + "$", v) in e && ("$" + Group(h, 0) + "$", v) in e
  {
    var col := Group(h, 0);
    var v := MixedValue(current, col);
    var st := Step(MixedPhase, clean, book, current, h);
    if ColumnHeader(current, col).Some? {
      var e := [(col, v), ("$" + col, v), (col + "$", v), ("$" + col + "$", v)];
      assert st.entries == e && st.deps == [v];
      assert e[0] in e && e[1] in e && e[2] in e && e[3] in e;
    } else {
      assert st.entries == [(col, v)] && st.deps == [v];
    }
    StepIncluded(MixedPhase, clean, book, current, h);
  }

  /**
   * Every cell reference of the cleaned formula that does not follow a
   * letter: its column's header, or else its letters, is a dependency and
   * the column's translation; a column with a header translates to it also
   * when written $COL, COL$ or $COL$.
   */
  lemma MixedTranslation(formula: string, book: BookHeaders, current: HeaderCells, h: Hit)
    requires h in FindAll(MixedRef, CleanFormula(formula), 0)
    requires !(0 < h.start <= |CleanFormula(formula)| && IsAlpha(CleanFormula(formula)[h.start - 1]))
    ensures MixedValue(current, Group(h, 0)) in Analyzed(formula, book, current).dependencies
    ensures Get(Analyzed(formula, book, current).mapping, Group(h, 0)) == Some(MixedValue(current, Group(h, 0)))
    ensures ColumnHeader(current, Group(h, 0)).Some? ==>
              var hd := ColumnHeader(current, Group(h, 0)).value;
              var m := Analyzed(formula, book, current).mapping;
              Get(m, "$" + Group(h, 0)) == Some(hd) && Get(m, Group(h, 0) + "$") == Some(hd)
              && Get(m, "$" + Group(h, 0) + "$") == Some(hd)
  {
    var col := Group(h, 0);
    var v := MixedValue(current, col);
    MixedCollected(CleanFormula(formula), book, current, h);
    MixedMapping(formula, book, current, col, v);
    if ColumnHeader(current, col).Some? {
      MixedMapping(formula, book, current, "$" + col, v);
      MixedMapping(formula, book, current, col + "$", v);
      MixedMapping(formula, book, current, "$" + col + "$", v);
    }
    AnalysisGathers(formula, book, current, MixedPhase);
  }

  // ---------------------------------------------------------------------
  // _analyze_formula_lightweight

  /** The lightweight scan's header cache: column index to header text. */
  type HeaderCache = map<nat, string>

  /** A "Sheet!A1" of the lightweight scan: the sheet is referenced and "Sheet!COL" depends on and maps to itself. */
  function LightSheetStep(h: Hit): Contribution
  {
    var key := Group(h, 0) + "!" + Group(h, 1);
    Contribution([key], [Group(h, 0)], [(key, key)])
  }

  /** The cached header at the column's index, or else the letters themselves. */
  function LightValue(cache: HeaderCache, col: string): string
  {
    match ColumnIndex(col)
    case Some(idx) => if idx in cache then cache[idx] else col
    case None => col
  }

  /** A local reference of the lightweight scan: the column depends on and maps to `LightValue`. */
  function LightLocalStep(cache: HeaderCache, h: Hit): Contribution
  {
    var col := Group(h, 0);
    Contribution([col], [], [(col, LightValue(cache, col))])
  }

  function LightLocalOf(cache: HeaderCache): Hit -> Contribution
  {
    h => LightLocalStep(cache, h)
  }

  /** The formula with every "Sheet!A1" deleted. */
  function LightClean(formula: string): string
  {
    Sub(SheetRef, formula, Erase)
  }

  /** The first match whose letters `column_index_from_string` rejects, if any. */
  function InvalidColumn(hs: seq<Hit>): (r: Option<string>)
    ensures r.None? <==> forall h :: h in hs ==> ColumnIndex(Group(h, 0)).Some?
    ensures r.Some? ==> ColumnIndex(r.value).None? && exists h :: h in hs && Group(h, 0) == r.value
    decreases |hs|
  {
    if hs == [] then None
    else if ColumnIndex(Group(hs[0], 0)).None? then Some(Group(hs[0], 0))
    else
      var r := InvalidColumn(hs[1..]);
      assert forall h :: h in hs ==> h == hs[0] || h in hs[1..];
      assert forall h :: h in hs[1..] ==> h in hs;
      r
  }

  /**
   * The specification of `_analyze_formula_lightweight`: the ValueError of
   * `column_index_from_string` on the first local column it rejects, or the
   * dependencies, referenced sheets and map of both scans.
   */
  function LightweightOf(formula: string, cache: HeaderCache): Result<FormulaAnalysis, string>
  {
    var c1 := CollectHits(LightSheetStep, FindAll(SheetRef, formula, 0));
    var hs := FindAll(LocalRef, LightClean(formula), 0);
    var c2 := CollectHits(LightLocalOf(cache), hs);
    match InvalidColumn(hs)
    case Some(col) => Err(col)
    case None => Ok(FormulaAnalysis(Dedup(c1.deps + c2.deps), Dedup(c1.refs), Update(Update([], c1.entries), c2.entries)))
  }

  /** Every match before `k` is valid and the one at `k` is not: it is the first invalid one. */
  lemma {:induction false} InvalidColumnAt(hs: seq<Hit>, k: nat)
    requires k < |hs| && ColumnIndex(Group(hs[k], 0)).None?
    requires forall i :: 0 <= i < k ==> ColumnIndex(Group(hs[i], 0)).Some?
    ensures InvalidColumn(hs) == Some(Group(hs[k], 0))
    decreases k
  {
    if k > 0 {
      InvalidColumnAt(hs[1..], k - 1);
    }
  }

  /** The "Sheet!A1" loop of `_analyze_formula_lightweight`. */
  method LightSheetScan(formula: string) returns (deps: seq<string>, refs: seq<string>, mapping: Dict<string, string>)
    ensures var c := CollectHits(LightSheetStep, FindAll(SheetRef, formula, 0));
            deps == c.deps && refs == c.refs && mapping == Update([], c.entries)
  {
    deps, refs, mapping := [], [], [];
    var hs := FindAll(SheetRef, formula, 0);
    var k := 0;
    assert hs[..0] == [];
    while k < |hs|
      invariant 0 <= k <= |hs|
      invariant deps == CollectHits(LightSheetStep, hs[..k]).deps && refs == CollectHits(LightSheetStep, hs[..k]).refs
      invariant mapping == Update([], CollectHits(LightSheetStep, hs[..k]).entries)
    {
      var sheet, col := Group(hs[k], 0), Group(hs[k], 1);
      var key := sheet + "!" + col;
      var d1, r1, m1 := deps + [key], refs + [sheet], Put(mapping, key, key);
      UpdateOne(mapping, key, key);
      RunPhaseStep(LightSheetStep, hs, k, [], [], [], deps, refs, mapping, d1, r1, m1);
      deps, refs, mapping := d1, r1, m1;
      k := k + 1;
    }
    assert hs[..k] == hs;
  }

  lemma ValidColumnsStep(hs: seq<Hit>, k: nat)
    requires k < |hs| && ColumnIndex(Group(hs[k], 0)).Some?
    requires forall i :: 0 <= i < k ==> ColumnIndex(Group(hs[i], 0)).Some?
    ensures forall i :: 0 <= i < k + 1 ==> ColumnIndex(Group(hs[i], 0)).Some?
  {
  }

  /** One iteration of the local-reference loop; `ok` is false when `column_index_from_string` raises. */
  method LightLocalHit(cache: HeaderCache, h: Hit, deps: seq<string>, mapping: Dict<string, string>)
    returns (ok: bool, deps': seq<string>, mapping': Dict<string, string>)
    ensures ok == ColumnIndex(Group(h, 0)).Some?
    ensures ok ==> deps' == deps + LightLocalStep(cache, h).deps
                   && mapping' == Update(mapping, LightLocalStep(cache, h).entries)
  {
    var col := Group(h, 0);
    deps' := deps + [col];
    var idx := ColumnIndex(col);
    if idx.None? {
      return false, deps', mapping;
    }
    var value := if idx.value in cache then cache[idx.value] else col;
    mapping' := Put(mapping, col, value);
    UpdateOne(mapping, col, value);
    ok := true;
  }

  /** The local-reference loop of `_analyze_formula_lightweight` over its matches `ls`; `err` is the column it raised on. */
  method LightLocalScan(ls: seq<Hit>, cache: HeaderCache, deps: seq<string>, mapping: Dict<string, string>)
    returns (err: Option<string>, deps': seq<string>, mapping': Dict<string, string>)
    ensures err == InvalidColumn(ls)
    ensures err.None? ==> deps' == deps + CollectHits(LightLocalOf(cache), ls).deps
                          && mapping' == Update(mapping, CollectHits(LightLocalOf(cache), ls).entries)
  {
    ghost var f := LightLocalOf(cache);
    deps', mapping' := deps, mapping;
    var k := 0;
    assert ls[..0] == [];
    while k < |ls|
      invariant 0 <= k <= |ls|
      invariant deps' == deps + CollectHits(f, ls[..k]).deps && mapping' == Update(mapping, CollectHits(f, ls[..k]).entries)
      invariant forall i :: 0 <= i < k ==> ColumnIndex(Group(ls[i], 0)).Some?
    {
      var ok, d1, m1 := LightLocalHit(cache, ls[k], deps', mapping');
      if !ok {
        InvalidColumnAt(ls, k);
        return Some(Group(ls[k], 0)), deps', mapping';
      }
      assert f(ls[k]) == LightLocalStep(cache, ls[k]);
      ValidColumnsStep(ls, k);
      RunPhaseStep(f, ls, k, deps, [], mapping, deps', CollectHits(f, ls[..k]).refs, mapping', d1, CollectHits(f, ls[..k]).refs, m1);
      deps', mapping' := d1, m1;
      k := k + 1;
    }
    assert ls[..k] == ls;
    assert forall h :: h in ls ==> ColumnIndex(Group(h, 0)).Some?;
    err := None;
  }

  /** `_analyze_formula_lightweight(formula, headers_cache)`. */
  method AnalyzeFormulaLightweight(formula: string, cache: HeaderCache) returns (r: Result<FormulaAnalysis, string>)
    ensures r == LightweightOf(formula, cache)
  {
    var deps, refs, mapping := LightSheetScan(formula);
    var clean := Sub(SheetRef, formula, Erase);
    var err;
    err, deps, mapping := LightLocalScan(FindAll(LocalRef, clean, 0), cache, deps, mapping);
    if err.Some? {
      return Err(err.value);
    }
    r := Ok(FormulaAnalysis(Dedup(deps), Dedup(refs), mapping));
  }

  // ---------------------------------------------------------------------
  // What _analyze_formula_lightweight promises

  /** A letter run names a column for `column_index_from_string` exactly when it has at most three letters. */
  lemma LettersIndex(col: string)
    requires AllUpper(col)
    ensures ColumnIndex(col).Some? <==> |col| <= 3
  {
    assert UpperStr(col) == col;
  }

  /** The letters of a local reference are a letter run. */
  lemma LocalRefLetters(s: string, h: Hit)
    requires h in FindAll(LocalRef, s, 0)
    ensures AllUpper(Group(h, 0))
  {
    FoundAt(LocalRef, s, 0, h);
    assert LocalRefAt(s, h.start) == Some(h);
  }

  /** The lightweight analysis raises exactly when a local reference has more than three letters. */
  lemma LightweightFails(formula: string, cache: HeaderCache)
    ensures LightweightOf(formula, cache).Err?
            <==> exists h :: h in FindAll(LocalRef, LightClean(formula), 0) && |Group(h, 0)| > 3
    ensures LightweightOf(formula, cache).Err? ==> |LightweightOf(formula, cache).error| > 3
  {
    var hs := FindAll(LocalRef, LightClean(formula), 0);
    forall h | h in hs
      ensures ColumnIndex(Group(h, 0)).Some? <==> |Group(h, 0)| <= 3
    {
      LocalRefLetters(LightClean(formula), h);
      LettersIndex(Group(h, 0));
    }
  }

  /** Every assignment of the "Sheet!A1" scan maps a key holding '!' to itself. */
  lemma LightSheetEntries(hs: seq<Hit>)
    ensures forall p :: p in CollectHits(LightSheetStep, hs).entries ==> p.1 == p.0 && HasChar(p.0, '!')
  {
    CollectSources(LightSheetStep, hs);
    forall p | p in CollectHits(LightSheetStep, hs).entries
      ensures p.1 == p.0 && HasChar(p.0, '!')
    {
      var i :| 0 <= i < |hs| && p in LightSheetStep(hs[i]).entries;
      var g := Group(hs[i], 0);
      assert p.0 == g + "!" + Group(hs[i], 1);
      assert p.0[|g|] == '!';
    }
  }

  /** Every assignment of the local scan maps column letters to their `LightValue`. */
  lemma LightLocalEntries(clean: string, cache: HeaderCache)
    ensures forall p :: p in CollectHits(LightLocalOf(cache), FindAll(LocalRef, clean, 0)).entries
                        ==> AllUpper(p.0) && p.1 == LightValue(cache, p.0)
  {
    var hs := FindAll(LocalRef, clean, 0);
    var f := LightLocalOf(cache);
    CollectSources(f, hs);
    forall p | p in CollectHits(f, hs).entries
      ensures AllUpper(p.0) && p.1 == LightValue(cache, p.0)
    {
      var i :| 0 <= i < |hs| && p in f(hs[i]).entries;
      assert f(hs[i]) == LightLocalStep(cache, hs[i]);
      assert hs[i] in hs;
      LocalRefLetters(clean, hs[i]);
    }
  }

  /** One "Sheet!A1" of the scan: its sheet, its key, and the key's last assignment (to itself). */
  lemma LightSheetLast(hs: seq<Hit>, h: Hit)
    requires h in hs
    ensures var c := CollectHits(LightSheetStep, hs);
            var key := Group(h, 0) + "!" + Group(h, 1);
            Group(h, 0) in c.refs && key in c.deps && LastValue(c.entries, key) == Some(key)
  {
    var key := Group(h, 0) + "!" + Group(h, 1);
    var e1 := CollectHits(LightSheetStep, hs).entries;
    var i :| 0 <= i < |hs| && hs[i] == h;
    CollectIncludes(LightSheetStep, hs, i);
    assert (key, key) in e1;
    LightSheetEntries(hs);
    PairHasKey(e1, (key, key));
    LastValueUniform(e1, key, key);
  }

  /** The local scan assigns no key holding '!'. */
  lemma LightLocalNoBang(clean: string, cache: HeaderCache, key: string)
    requires HasChar(key, '!')
    ensures !HasKey(CollectHits(LightLocalOf(cache), FindAll(LocalRef, clean, 0)).entries, key)
  {
    var e2 := CollectHits(LightLocalOf(cache), FindAll(LocalRef, clean, 0)).entries;
    LightLocalEntries(clean, cache);
    forall p | p in e2 ensures !HasChar(p.0, '!') {
      UpperHasNoBang(p.0);
    }
    BangKeyAbsent(e2, key);
  }

  /** One local reference of the scan: its letters, and their last assignment (to `LightValue`). */
  lemma LightLocalLast(clean: string, cache: HeaderCache, h: Hit)
    requires h in FindAll(LocalRef, clean, 0)
    ensures var c := CollectHits(LightLocalOf(cache), FindAll(LocalRef, clean, 0));
            Group(h, 0) in c.deps && LastValue(c.entries, Group(h, 0)) == Some(LightValue(cache, Group(h, 0)))
  {
    var hs := FindAll(LocalRef, clean, 0);
    var f := LightLocalOf(cache);
    var col := Group(h, 0);
    var v := LightValue(cache, col);
    var e2 := CollectHits(f, hs).entries;
    var i :| 0 <= i < |hs| && hs[i] == h;
    CollectIncludes(f, hs, i);
    assert f(h) == LightLocalStep(cache, h);
    assert (col, v) in e2;
    LightLocalEntries(clean, cache);
    PairHasKey(e2, (col, v));
    LastValueUniform(e2, col, v);
  }

  /** A dependency of the "Sheet!A1" scan is the "Sheet!COL" of one of its matches. */
  lemma LightSheetDep(hs: seq<Hit>, x: string)
    requires x in CollectHits(LightSheetStep, hs).deps
    ensures HasChar(x, '!') && exists h :: h in hs && x == Group(h, 0) + "!" + Group(h, 1)
  {
    CollectSources(LightSheetStep, hs);
    var i :| 0 <= i < |hs| && x in LightSheetStep(hs[i]).deps;
    assert hs[i] in hs;
    assert x[|Group(hs[i], 0)|] == '!';
  }

  /** A dependency of the local scan is the letters of one of its matches. */
  lemma LightLocalDep(clean: string, cache: HeaderCache, x: string)
    requires x in CollectHits(LightLocalOf(cache), FindAll(LocalRef, clean, 0)).deps
    ensures AllUpper(x) && !HasChar(x, '!') && exists h :: h in FindAll(LocalRef, clean, 0) && x == Group(h, 0)
  {
    var ls := FindAll(LocalRef, clean, 0);
    var f := LightLocalOf(cache);
    CollectSources(f, ls);
    var i :| 0 <= i < |ls| && x in f(ls[i]).deps;
    assert f(ls[i]) == LightLocalStep(cache, ls[i]);
    assert ls[i] in ls;
    LocalRefLetters(clean, ls[i]);
    UpperHasNoBang(x);
  }

  /**
   * A "Sheet!A1" is recorded: its sheet among the referenced sheets,
   * "Sheet!COL" among the dependencies and mapped to itself; both lists
   * are duplicate-free.
   */
  lemma LightSheetRecorded(formula: string, cache: HeaderCache, h: Hit)
    requires LightweightOf(formula, cache).Ok? && h in FindAll(SheetRef, formula, 0)
    ensures var a := LightweightOf(formula, cache).value;
            var key := Group(h, 0) + "!" + Group(h, 1);
            Group(h, 0) in a.sheetReferences && key in a.dependencies && Get(a.mapping, key) == Some(key)
            && NoDup(a.dependencies) && NoDup(a.sheetReferences)
  {
    var key := Group(h, 0) + "!" + Group(h, 1);
    var e1 := CollectHits(LightSheetStep, FindAll(SheetRef, formula, 0)).entries;
    var e2 := CollectHits(LightLocalOf(cache), FindAll(LocalRef, LightClean(formula), 0)).entries;
    LightSheetLast(FindAll(SheetRef, formula, 0), h);
    assert HasChar(key, '!') by {
      assert key[|Group(h, 0)|] == '!';
    }
    LightLocalNoBang(LightClean(formula), cache, key);
    GetUpdate([], e1, key);
    GetUpdate(Update([], e1), e2, key);
  }

  /**
   * A local reference of the cleaned formula is recorded: its letters among
   * the dependencies, mapped to the cached header at their column index, or
   * else to themselves.
   */
  lemma LightLocalMapped(formula: string, cache: HeaderCache, h: Hit)
    requires LightweightOf(formula, cache).Ok? && h in FindAll(LocalRef, LightClean(formula), 0)
    ensures var a := LightweightOf(formula, cache).value;
            var col := Group(h, 0);
            && col in a.dependencies
            && ColumnIndex(col).Some?
            && Get(a.mapping, col)
               == Some(if ColumnIndex(col).value in cache then cache[ColumnIndex(col).value] else col)
  {
    var col := Group(h, 0);
    var e1 := CollectHits(LightSheetStep, FindAll(SheetRef, formula, 0)).entries;
    var e2 := CollectHits(LightLocalOf(cache), FindAll(LocalRef, LightClean(formula), 0)).entries;
    LightLocalLast(LightClean(formula), cache, h);
    GetUpdate([], e1, col);
    GetUpdate(Update([], e1), e2, col);
  }

  /**
   * Where the dependencies come from: one holding '!' is the "Sheet!COL" of
   * a sheet-qualified cell; any other is the letters of a local reference
   * of the formula with those cells erased.
   */
  lemma LightDepsSources(formula: string, cache: HeaderCache, x: string)
    requires LightweightOf(formula, cache).Ok? && x in LightweightOf(formula, cache).value.dependencies
    ensures HasChar(x, '!') ==> exists h :: h in FindAll(SheetRef, formula, 0) && x == Group(h, 0) + "!" + Group(h, 1)
    ensures !HasChar(x, '!') ==> AllUpper(x) && exists h :: h in FindAll(LocalRef, LightClean(formula), 0) && x == Group(h, 0)
  {
    var hs := FindAll(SheetRef, formula, 0);
    if x in CollectHits(LightSheetStep, hs).deps {
      LightSheetDep(hs, x);
    } else {
      LightLocalDep(LightClean(formula), cache, x);
    }
  }

  // ---------------------------------------------------------------------
  // discover_formulas, discover_all_sheets

  /**
   * What discovery reads of one sheet: its name, its header row, the cells
   * of the sample row that hold text, and `ws.max_column`.
   */
  datatype SheetCells = SheetCells(name: string, header: HeaderCells, sample: map<nat, string>, maxColumn: nat)

  /** A workbook: its sheets in `wb.sheetnames` order. */
  type Workbook = seq<SheetCells>

  /** One discovered formula, with the fields the source stores. */
  datatype Discovered = Discovered(
    header: string,
    column: string,
    formulaOriginal: string,
    formulaPattern: string,
    dependencies: seq<string>,
    sheetReferences: seq<string>,
    mapping: Dict<string, string>,
    sheet: string)

  /** The header rows of all sheets, by name (`worksheet.parent`). */
  function BookOf(wb: Workbook): (r: BookHeaders)
    ensures forall name :: name in r <==> exists i :: 0 <= i < |wb| && wb[i].name == name
    decreases |wb|
  {
    if wb == [] then map[]
    else
      var init := wb[..|wb| - 1];
      assert forall i :: 0 <= i < |init| ==> init[i] == wb[i];
      BookOf(init)[wb[|wb| - 1].name := wb[|wb| - 1].header]
  }

  /** The key a discovered formula is stored under. */
  function FormulaKey(sheet: string, header: string): string
  {
    if sheet != "Sheet" then sheet + "." + header else header
  }

  /** The text after the last '.' of a formula key is its header, when the header holds no '.'. */
  lemma {:induction false} FormulaKeyHeader(sheet: string, header: string)
    requires !HasChar(header, '.')
    ensures AfterLast(FormulaKey(sheet, header), '.') == header
  {
    assert forall i :: 0 <= i < |header| ==> header[i] != '.';
    if sheet != "Sheet" {
      AfterLastSuffix(sheet + ".", header, '.');
    } else {
      AfterLastSuffix([], header, '.');
    }
  }

  /** `_analyze_formula` on a sheet with header row `current` of a workbook with header rows `book`. */
  function Analyzer(book: BookHeaders, current: HeaderCells): string -> FormulaAnalysis
  {
    formula => Analyzed(formula, book, current)
  }

  /**
   * The formula in column `idx`, if its header is set and its sample cell
   * is text starting with '=', stored under its key with what `analyze`
   * finds in it.
   */
  function DiscoveredAt(analyze: string -> FormulaAnalysis, s: SheetCells, idx: nat): Option<(string, Discovered)>
    requires idx >= 1
  {
    match HeaderAt(s.header, idx)
    case None => None
    case Some(hd) =>
      if idx in s.sample && StartsWith(s.sample[idx], "=") then
        var formula := s.sample[idx];
        var a := analyze(formula);
        Some((FormulaKey(s.name, hd),
              Discovered(hd, ColumnLetters(idx), formula, Generalize(formula),
                         a.dependencies, a.sheetReferences, a.mapping, s.name)))
      else None
  }

  /** The assignments `at` makes for the columns `lo` up to, not including, `hi`, in column order. */
  function ColumnScan<V>(at: nat -> Option<(string, V)>, lo: nat, hi: nat): Dict<string, V>
    decreases hi - lo
  {
    if hi <= lo then []
    else
      var rest := ColumnScan(at, lo, hi - 1);
      match at(hi - 1)
      case None => rest
      case Some(p) => rest + [p]
  }

  /** `DiscoveredAt` as a function of the column (column 0 does not exist). */
  function DiscoveredAtOf(analyze: string -> FormulaAnalysis, s: SheetCells): nat -> Option<(string, Discovered)>
  {
    (idx: nat) => if idx == 0 then None else DiscoveredAt(analyze, s, idx)
  }

  /** The columns scanned: 1 up to `min(max_column, max_cols)`. */
  function ColumnLimit(s: SheetCells, maxCols: nat): nat
  {
    if s.maxColumn < maxCols then s.maxColumn else maxCols
  }

  /** The dict the column loop builds: each discovered formula assigned in column order. */
  function DiscoveryWith(analyze: string -> FormulaAnalysis, s: SheetCells, maxCols: nat): Dict<string, Discovered>
  {
    Update([], ColumnScan(DiscoveredAtOf(analyze, s), 1, ColumnLimit(s, maxCols) + 1))
  }

  /** The specification of `discover_formulas` for a sheet of the workbook. */
  function DiscoveryOf(wb: Workbook, s: SheetCells, maxCols: nat): Dict<string, Discovered>
  {
    DiscoveryWith(Analyzer(BookOf(wb), s.header), s, maxCols)
  }

  /** The first sheet named `name`. */
  function SheetNamed(wb: Workbook, name: string): (r: Option<SheetCells>)
    ensures r.Some? <==> exists i :: 0 <= i < |wb| && wb[i].name == name
    ensures r.Some? ==> r.value in wb && r.value.name == name
  {
    if wb == [] then None
    else if wb[0].name == name then Some(wb[0])
    else
      var r := SheetNamed(wb[1..], name);
      assert forall i :: 1 <= i < |wb| ==> wb[1..][i - 1] == wb[i];
      r
  }

  /** The sheet `discover_formulas` works on: the named one, or the active one when no name is given. */
  function SelectSheet(wb: Workbook, active: nat, sheetName: Option<string>): (r: Option<SheetCells>)
    requires active < |wb|
    ensures r.Some? ==> r.value in wb
    ensures r.None? <==> sheetName.Some? && sheetName.value != ""
                         && forall i :: 0 <= i < |wb| ==> wb[i].name != sheetName.value
  {
    if sheetName.Some? && sheetName.value != "" then SheetNamed(wb, sheetName.value) else Some(wb[active])
  }

  /** What `discover_formulas` returns for a sheet it finds, or the message of the ValueError it raises. */
  function DiscoverFormulasOf(wb: Workbook, active: nat, sheetName: Option<string>, maxCols: nat)
    : Result<Dict<string, Discovered>, string>
    requires active < |wb|
  {
    match SelectSheet(wb, active, sheetName)
    case Some(s) => Ok(DiscoveryOf(wb, s, maxCols))
    case None => Err("Aba '" + sheetName.value + "' não encontrada")
  }

  /**
   * `discover_formulas(file, sheet_name, sample_row, max_cols)` on a loaded
   * workbook whose active sheet is `wb[active]`: a name the workbook lacks
   * raises ValueError.
   */
  method DiscoverFormulas(wb: Workbook, active: nat, sheetName: Option<string>, maxCols: nat)
    returns (r: Result<Dict<string, Discovered>, string>)
    requires active < |wb|
    ensures r == DiscoverFormulasOf(wb, active, sheetName, maxCols)
  {
    var s;
    if sheetName.Some? && sheetName.value != "" {
      var named := SheetNamed(wb, sheetName.value);
      if named.None? {
        return Err("Aba '" + sheetName.value + "' não encontrada");
      }
      s := named.value;
    } else {
      s := wb[active];
    }
    var found := DiscoverSheet(BookOf(wb), s, maxCols);
    r := Ok(found);
  }

  /** The column loop of `discover_formulas` over the selected sheet `s`. */
  method DiscoverSheet(book: BookHeaders, s: SheetCells, maxCols: nat) returns (found: Dict<string, Discovered>)
    ensures found == DiscoveryWith(Analyzer(book, s.header), s, maxCols)
  {
    ghost var at := DiscoveredAtOf(Analyzer(book, s.header), s);
    found := [];
    var limit := ColumnLimit(s, maxCols);
    var idx := 1;
    while idx <= limit
      invariant 1 <= idx <= limit + 1
      invariant found == Update([], ColumnScan(at, 1, idx))
    {
      ghost var e := ColumnScan(at, 1, idx);
      found := DiscoverColumn(book, s, idx, found);
      assert at(idx) == DiscoveredAt(Analyzer(book, s.header), s, idx);
      match at(idx) {
        case Some(p) =>
          UpdateAppend([], e, [p]);
          UpdateOne(Update([], e), p.0, p.1);
        case None =>
      }
      idx := idx + 1;
    }
  }

  /** One column of `discover_formulas`. */
  method DiscoverColumn(book: BookHeaders, s: SheetCells, idx: nat, found: Dict<string, Discovered>)
    returns (found': Dict<string, Discovered>)
    requires idx >= 1
    ensures found' == match DiscoveredAt(Analyzer(book, s.header), s, idx)
                      case None => found
                      case Some(p) => Put(found, p.0, p.1)
  {
    found' := found;
    var header := HeaderAt(s.header, idx);
    if header.None? {
      return;
    }
    if idx in s.sample && StartsWith(s.sample[idx], "=") {
      var formula := s.sample[idx];
      var colLetter := ColumnLetters(idx);
      var info := AnalyzeFormula(formula, book, s.header);
      assert info == Analyzer(book, s.header)(formula);
      var key := FormulaKey(s.name, header.value);
      found' := Put(found, key, Discovered(header.value, colLetter, formula, Generalize(formula),
                                            info.dependencies, info.sheetReferences, info.mapping, s.name));
    }
  }

  /** Every assignment of a column scan is made by one of its columns. */
  lemma {:induction false} ColumnScanSource<V>(at: nat -> Option<(string, V)>, lo: nat, hi: nat, p: (string, V))
    requires p in ColumnScan(at, lo, hi)
    ensures exists idx :: lo <= idx < hi && at(idx) == Some(p)
    decreases hi - lo
  {
    if p in ColumnScan(at, lo, hi - 1) {
      ColumnScanSource(at, lo, hi - 1, p);
    }
  }

  /** Column `idx` decides its key when no later column of the scan assigns the same key. */
  lemma {:induction false} ColumnScanLast<V>(at: nat -> Option<(string, V)>, lo: nat, idx: nat, hi: nat, key: string, d: V)
    requires lo <= idx < hi && at(idx) == Some((key, d))
    requires forall j :: idx < j < hi ==> at(j).None? || at(j).value.0 != key
    ensures LastValue(ColumnScan(at, lo, hi), key) == Some(d)
    decreases hi
  {
    var rest := ColumnScan(at, lo, hi - 1);
    if hi - 1 == idx {
      LastValueSnoc(rest, (key, d), key);
    } else {
      ColumnScanLast(at, lo, idx, hi - 1, key, d);
      match at(hi - 1) {
        case Some(p) => LastValueSnoc(rest, p, key);
        case None =>
      }
    }
  }

  /**
   * What a discovered entry holds: it comes from a scanned column with a
   * header and a sample formula starting with '='; it is stored under
   * "Sheet.Header" (just the header on a sheet named "Sheet"), with that
   * column's letters, its formula, its generalised pattern and the
   * sheet's name.
   */
  lemma DiscoverySound(analyze: string -> FormulaAnalysis, s: SheetCells, maxCols: nat, k: string)
    requires Get(DiscoveryWith(analyze, s, maxCols), k).Some?
    ensures var d := Get(DiscoveryWith(analyze, s, maxCols), k).value;
            && k == FormulaKey(s.name, d.header)
            && d.sheet == s.name
            && StartsWith(d.formulaOriginal, "=")
            && d.formulaPattern == Generalize(d.formulaOriginal)
            && exists idx :: 1 <= idx <= ColumnLimit(s, maxCols)
                             && HeaderAt(s.header, idx) == Some(d.header)
                             && idx in s.sample && s.sample[idx] == d.formulaOriginal
                             && d.column == ColumnLetters(idx)
  {
    var at := DiscoveredAtOf(analyze, s);
    var e := ColumnScan(at, 1, ColumnLimit(s, maxCols) + 1);
    GetUpdate([], e, k);
    LastValueIn(e, k);
    var d := LastValue(e, k).value;
    ColumnScanSource(at, 1, ColumnLimit(s, maxCols) + 1, (k, d));
    var idx :| 1 <= idx < ColumnLimit(s, maxCols) + 1 && at(idx) == Some((k, d));
    assert DiscoveredAt(analyze, s, idx) == Some((k, d));
  }

  /** A column's assignment is made by the scan over any range holding it. */
  lemma {:induction false} ColumnScanIncludes<V>(at: nat -> Option<(string, V)>, lo: nat, idx: nat, hi: nat)
    requires lo <= idx < hi && at(idx).Some?
    ensures at(idx).value in ColumnScan(at, lo, hi)
    decreases hi
  {
    if idx < hi - 1 {
      ColumnScanIncludes(at, lo, idx, hi - 1);
    }
  }

  /** On one sheet, distinct headers give distinct keys. */
  lemma FormulaKeyInjective(sheet: string, h1: string, h2: string)
    requires FormulaKey(sheet, h1) == FormulaKey(sheet, h2)
    ensures h1 == h2
  {
    if sheet != "Sheet" {
      var n := |sheet| + 1;
      assert h1 == FormulaKey(sheet, h1)[n..];
      assert h2 == FormulaKey(sheet, h2)[n..];
    }
  }

  /** Which columns `DiscoveredAt` assigns, and under which key. */
  lemma DiscoveredKey(analyze: string -> FormulaAnalysis, s: SheetCells, j: nat)
    requires j >= 1
    ensures DiscoveredAt(analyze, s, j).Some?
            <==> HeaderAt(s.header, j).Some? && j in s.sample && StartsWith(s.sample[j], "=")
    ensures DiscoveredAt(analyze, s, j).Some?
            ==> DiscoveredAt(analyze, s, j).value.0 == FormulaKey(s.name, HeaderAt(s.header, j).value)
  {
  }

  /** Some column after `idx`, up to `limit`, has the same header and a formula. */
  predicate LaterFormulaUnder(s: SheetCells, idx: nat, limit: nat)
  {
    exists j :: idx < j <= limit && HeaderAt(s.header, j) == HeaderAt(s.header, idx)
                && j in s.sample && StartsWith(s.sample[j], "=")
  }

  /** Without a later formula under the same header, no later column assigns the key of column `idx`. */
  lemma NoLaterKey(analyze: string -> FormulaAnalysis, s: SheetCells, idx: nat, hi: nat)
    requires 1 <= idx < hi && DiscoveredAt(analyze, s, idx).Some? && !LaterFormulaUnder(s, idx, hi - 1)
    ensures var at := DiscoveredAtOf(analyze, s);
            forall j :: idx < j < hi ==> at(j).None? || at(j).value.0 != DiscoveredAt(analyze, s, idx).value.0
  {
    var at := DiscoveredAtOf(analyze, s);
    DiscoveredKey(analyze, s, idx);
    forall j | idx < j < hi
      ensures at(j).None? || at(j).value.0 != DiscoveredAt(analyze, s, idx).value.0
    {
      assert at(j) == DiscoveredAt(analyze, s, j);
      DiscoveredKey(analyze, s, j);
      if at(j).Some? && at(j).value.0 == DiscoveredAt(analyze, s, idx).value.0 {
        FormulaKeyInjective(s.name, HeaderAt(s.header, j).value, HeaderAt(s.header, idx).value);
      }
    }
  }

  /**
   * Every scanned column with a header and a sample formula starting with
   * '=' is discovered under its key; when no later column with the same
   * header has a formula, it is that column's discovery that the result
   * keeps (a later one overwrites it otherwise).
   */
  lemma DiscoveryComplete(analyze: string -> FormulaAnalysis, s: SheetCells, maxCols: nat, idx: nat)
    requires 1 <= idx <= ColumnLimit(s, maxCols)
    requires HeaderAt(s.header, idx).Some? && idx in s.sample && StartsWith(s.sample[idx], "=")
    ensures Get(DiscoveryWith(analyze, s, maxCols), FormulaKey(s.name, HeaderAt(s.header, idx).value)).Some?
    ensures !LaterFormulaUnder(s, idx, ColumnLimit(s, maxCols))
            ==> Get(DiscoveryWith(analyze, s, maxCols), FormulaKey(s.name, HeaderAt(s.header, idx).value))
                == Some(DiscoveredAt(analyze, s, idx).value.1)
  {
    var at := DiscoveredAtOf(analyze, s);
    var hi := ColumnLimit(s, maxCols) + 1;
    var e := ColumnScan(at, 1, hi);
    DiscoveredKey(analyze, s, idx);
    var p := DiscoveredAt(analyze, s, idx).value;
    assert at(idx) == Some(p);
    ColumnScanIncludes(at, 1, idx, hi);
    PairHasKey(e, p);
    GetUpdate([], e, p.0);
    if !LaterFormulaUnder(s, idx, ColumnLimit(s, maxCols)) {
      NoLaterKey(analyze, s, idx, hi);
      ColumnScanLast(at, 1, idx, hi, p.0, p.1);
    }
  }

  /** `discover_all_sheets` scans at most this many columns of each sheet (the default `max_cols`). */
  const MaxCols: nat := 300

  /** The outcome of `discover_formulas` on each of the first `n` sheets, in `wb.sheetnames` order. */
  function SheetResults(wb: Workbook, active: nat, n: nat): seq<Result<Dict<string, Discovered>, string>>
    requires active < |wb| && n <= |wb|
  {
    seq(n, i requires 0 <= i < n => DiscoverFormulasOf(wb, active, Some(wb[i].name), MaxCols))
  }

  /** `all_formulas.update(...)` with each result in turn; a sheet whose analysis raised is skipped. */
  function Merge<V>(rs: seq<Result<Dict<string, V>, string>>): Dict<string, V>
  {
    if rs == [] then []
    else match rs[|rs| - 1]
      case Ok(d) => Update(Merge(rs[..|rs| - 1]), d)
      case Err(_) => Merge(rs[..|rs| - 1])
  }

  /** What the last result that holds `k` gives it. */
  function LastFound<V>(rs: seq<Result<Dict<string, V>, string>>, k: string): Option<V>
  {
    if rs == [] then None
    else if rs[|rs| - 1].Ok? && HasKey(rs[|rs| - 1].value, k) then Get(rs[|rs| - 1].value, k)
    else LastFound(rs[..|rs| - 1], k)
  }

  /** Merging results keeps keys distinct, and a key takes its value from the last sheet that has it. */
  lemma {:induction false} MergeLastWins<V>(rs: seq<Result<Dict<string, V>, string>>, k: string)
    requires forall i :: 0 <= i < |rs| && rs[i].Ok? ==> DistinctKeys(rs[i].value)
    ensures DistinctKeys(Merge(rs))
    ensures Get(Merge(rs), k) == LastFound(rs, k)
  {
    if rs != [] {
      var init := rs[..|rs| - 1];
      assert forall i :: 0 <= i < |init| ==> init[i] == rs[i];
      MergeLastWins(init, k);
      match rs[|rs| - 1]
      case Ok(d) =>
        GetUpdate(Merge(init), d, k);
        GetIsLastValue(d, k);
      case Err(_) =>
    }
  }

  /** Every sheet's discovery has distinct keys. */
  lemma DiscoveryDistinct(wb: Workbook, active: nat, name: string)
    requires active < |wb|
    ensures DiscoverFormulasOf(wb, active, Some(name), MaxCols).Ok?
            ==> DistinctKeys(DiscoverFormulasOf(wb, active, Some(name), MaxCols).value)
  {
    match SelectSheet(wb, active, Some(name))
    case Some(s) =>
      var a := Analyzer(BookOf(wb), s.header);
      GetUpdate([], ColumnScan(DiscoveredAtOf(a, s), 1, ColumnLimit(s, MaxCols) + 1), name);
    case None =>
  }

  lemma MergeSnoc(wb: Workbook, active: nat, i: nat, r: Result<Dict<string, Discovered>, string>)
    requires active < |wb| && i < |wb|
    requires r == DiscoverFormulasOf(wb, active, Some(wb[i].name), MaxCols)
    ensures Merge(SheetResults(wb, active, i + 1))
            == if r.Ok? then Update(Merge(SheetResults(wb, active, i)), r.value) else Merge(SheetResults(wb, active, i))
  {
    assert SheetResults(wb, active, i + 1)[..i] == SheetResults(wb, active, i);
  }

  /**
   * `discover_all_sheets`: `discover_formulas` on each sheet by name, the
   * results merged into one dict.
   */
  method DiscoverAllSheets(wb: Workbook, active: nat) returns (all: Dict<string, Discovered>)
    requires active < |wb|
    ensures all == Merge(SheetResults(wb, active, |wb|))
  {
    all := [];
    for i := 0 to |wb|
      invariant all == Merge(SheetResults(wb, active, i))
    {
      var r := DiscoverFormulas(wb, active, Some(wb[i].name), MaxCols);
      MergeSnoc(wb, active, i, r);
      if r.Ok? {
        all := Update(all, r.value);
      }
    }
  }

  /**
   * A formula key of the merged dict carries what the last sheet that
   * discovered it found: a later sheet overwrites an earlier one, and the
   * keys stay distinct.
   */
  lemma AllSheetsLastWins(wb: Workbook, active: nat, k: string)
    requires active < |wb|
    ensures DistinctKeys(Merge(SheetResults(wb, active, |wb|)))
    ensures Get(Merge(SheetResults(wb, active, |wb|)), k) == LastFound(SheetResults(wb, active, |wb|), k)
  {
    var rs := SheetResults(wb, active, |wb|);
    forall i | 0 <= i < |rs| && rs[i].Ok? ensures DistinctKeys(rs[i].value) {
      DiscoveryDistinct(wb, active, wb[i].name);
    }
    MergeLastWins(rs, k);
  }

  /** A pair of the merged dict comes from one of the sheets' results. */
  lemma {:induction false} MergeSource<V>(rs: seq<Result<Dict<string, V>, string>>, p: (string, V))
    requires p in Merge(rs)
    ensures exists i :: 0 <= i < |rs| && rs[i].Ok? && p in rs[i].value
  {
    var init := rs[..|rs| - 1];
    assert forall i :: 0 <= i < |init| ==> init[i] == rs[i];
    match rs[|rs| - 1]
    case Ok(d) =>
      UpdateSource(Merge(init), d, p);
      if p in Merge(init) {
        MergeSource(init, p);
      }
    case Err(_) =>
      MergeSource(init, p);
  }

  /** Every discovered formula sits in a scanned column and carries that column's letters. */
  lemma DiscoveryColumn(analyze: string -> FormulaAnalysis, s: SheetCells, maxCols: nat, p: (string, Discovered))
    requires p in DiscoveryWith(analyze, s, maxCols)
    ensures exists idx :: 1 <= idx <= ColumnLimit(s, maxCols) && p.1.column == ColumnLetters(idx)
  {
    var at := DiscoveredAtOf(analyze, s);
    var e := ColumnScan(at, 1, ColumnLimit(s, maxCols) + 1);
    UpdateSource([], e, p);
    ColumnScanSource(at, 1, ColumnLimit(s, maxCols) + 1, p);
    var idx :| 1 <= idx < ColumnLimit(s, maxCols) + 1 && at(idx) == Some(p);
    assert DiscoveredAt(analyze, s, idx) == Some(p);
  }

  /** Every formula `discover_all_sheets` returns carries the letters of one of the first 300 columns. */
  lemma AllSheetsColumns(wb: Workbook, active: nat, p: (string, Discovered))
    requires active < |wb| && p in Merge(SheetResults(wb, active, |wb|))
    ensures exists idx :: 1 <= idx <= MaxCols && p.1.column == ColumnLetters(idx)
  {
    var rs := SheetResults(wb, active, |wb|);
    MergeSource(rs, p);
    var i :| 0 <= i < |rs| && rs[i].Ok? && p in rs[i].value;
    var s := SelectSheet(wb, active, Some(wb[i].name)).value;
    DiscoveryColumn(Analyzer(BookOf(wb), s.header), s, MaxCols, p);
  }

  /** Each named sheet is found, so no sheet of a workbook is skipped. */
  lemma AllSheetsFound(wb: Workbook, active: nat, i: nat)
    requires active < |wb| && i < |wb|
    ensures SheetResults(wb, active, |wb|)[i].Ok?
  {
  }

  // generate_config_section

  /** One entry of a sheet's "formulas" list in the generated section. */
  datatype FormulaConfig = FormulaConfig(
    header: string,
    column: string,
    formula: string,
    pattern: string,
    dependencies: seq<string>,
    mapping: Dict<string, string>)

  /** A sheet's group: "aba_planilha" and its "formulas". */
  datatype SheetSection = SheetSection(sheet: string, formulas: seq<FormulaConfig>)

  /** The section: "caminho", "tipo", "formulas_descobertas" (always empty) and "abas". */
  datatype ConfigSection = ConfigSection(
    path: string,
    kind: string,
    discovered: Dict<string, Discovered>,
    sheets: Dict<string, SheetSection>)

  /** The configuration entry made from one discovered formula. */
  function ConfigOf(d: Discovered): FormulaConfig
  {
    FormulaConfig(d.header, d.column, d.formulaOriginal, d.formulaPattern, d.dependencies, d.mapping)
  }

  /** The grouping loop: each formula appended to the group of its sheet, a group created on first sight. */
  function GroupBySheet(fs: Dict<string, Discovered>): Dict<string, SheetSection>
  {
    if fs == [] then []
    else
      var g := GroupBySheet(fs[..|fs| - 1]);
      var d := fs[|fs| - 1].1;
      var sec := GetOr(g, d.sheet, SheetSection(d.sheet, []));
      Put(g, d.sheet, SheetSection(sec.sheet, sec.formulas + [ConfigOf(d)]))
  }

  /** The sheet of each formula, in dict order. */
  function SheetsOf(fs: Dict<string, Discovered>): seq<string>
  {
    seq(|fs|, i requires 0 <= i < |fs| => fs[i].1.sheet)
  }

  /** The configuration entries of the formulas of `sheet`, in dict order. */
  function ConfigsFor(fs: Dict<string, Discovered>, sheet: string): seq<FormulaConfig>
  {
    if fs == [] then []
    else ConfigsFor(fs[..|fs| - 1], sheet) + (if fs[|fs| - 1].1.sheet == sheet then [ConfigOf(fs[|fs| - 1].1)] else [])
  }

  lemma {:induction false} ConfigsForAbsent(fs: Dict<string, Discovered>, sheet: string)
    requires sheet !in SheetsOf(fs)
    ensures ConfigsFor(fs, sheet) == []
  {
    if fs != [] {
      var init := fs[..|fs| - 1];
      assert SheetsOf(fs) == SheetsOf(init) + [fs[|fs| - 1].1.sheet];
      ConfigsForAbsent(init, sheet);
    }
  }

  /**
   * Every sheet with a discovered formula has one group, named after it,
   * holding exactly the entries of that sheet's formulas in dict order;
   * other sheets have none.
   */
  lemma {:induction false} GroupBySheetGet(fs: Dict<string, Discovered>, sheet: string)
    ensures DistinctKeys(GroupBySheet(fs))
    ensures Get(GroupBySheet(fs), sheet)
            == if sheet in SheetsOf(fs) then Some(SheetSection(sheet, ConfigsFor(fs, sheet))) else None
  {
    if fs != [] {
      var init := fs[..|fs| - 1];
      var d := fs[|fs| - 1].1;
      var g := GroupBySheet(init);
      assert SheetsOf(fs) == SheetsOf(init) + [d.sheet];
      GroupBySheetGet(init, sheet);
      GroupBySheetGet(init, d.sheet);
      var sec := GetOr(g, d.sheet, SheetSection(d.sheet, []));
      if d.sheet !in SheetsOf(init) {
        ConfigsForAbsent(init, d.sheet);
      }
      assert sec == SheetSection(d.sheet, ConfigsFor(init, d.sheet));
      GetPut(g, d.sheet, SheetSection(sec.sheet, sec.formulas + [ConfigOf(d)]), sheet);
      if sheet == d.sheet {
        assert ConfigsFor(fs, sheet) == ConfigsFor(init, sheet) + [ConfigOf(d)];
      } else {
        assert ConfigsFor(fs, sheet) == ConfigsFor(init, sheet);
        assert sheet in SheetsOf(fs) <==> sheet in SheetsOf(init);
      }
    }
  }

  /** The groups appear in the order their sheets first appear among the formulas. */
  lemma {:induction false} GroupBySheetOrder(fs: Dict<string, Discovered>)
    ensures Keys(GroupBySheet(fs)) == Dedup(SheetsOf(fs))
  {
    if fs != [] {
      var init := fs[..|fs| - 1];
      var d := fs[|fs| - 1].1;
      assert SheetsOf(fs) == SheetsOf(init) + [d.sheet];
      GroupBySheetOrder(init);
      GroupBySheetGet(init, d.sheet);
      DedupSnoc(SheetsOf(init), d.sheet);
    }
  }

  /** `generate_config_section(formulas, file_path)`. */
  method GenerateConfigSection(formulas: Dict<string, Discovered>, path: string) returns (r: ConfigSection)
    ensures r == ConfigSection(path, "auto_discovery", [], GroupBySheet(formulas))
  {
    var bySheet: Dict<string, SheetSection> := [];
    for i := 0 to |formulas|
      invariant bySheet == GroupBySheet(formulas[..i])
    {
      var info := formulas[i].1;
      assert formulas[..i + 1][..i] == formulas[..i];
      var sec := match Get(bySheet, info.sheet)
        case Some(existing) => existing
        case None => SheetSection(info.sheet, []);
      bySheet := Put(bySheet, info.sheet, SheetSection(sec.sheet, sec.formulas + [ConfigOf(info)]));
    }
    assert formulas[..|formulas|] == formulas;
    r := ConfigSection(path, "auto_discovery", [], bySheet);
  }
}
