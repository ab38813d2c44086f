/**
 * The formula side of the cross-sheet analyser: decoding a cell reference
 * into its (column, row) coordinates, and listing the references a formula
 * makes to other sheets with the analyser's five patterns.
 */
module CrossSheetRefs {
  import opened Wrappers
  import opened Text
  import opened Assoc
  import opened Columns
  import opened Patterns

  // ---------------------------------------------------------------------
  // _parse_cell_ref

  /** The text starts with upper-case letters followed by a digit. */
  predicate StartsWithCell(s: string) {
    exists j :: 0 < j < |s| && AllUpper(s[..j]) && IsDigit(s[j])
  }

  /** The (column, row) of a reference such as "AB12"; (0, 0) when the text does not start like a cell. */
  function CellCoordinates(ref: string): (nat, nat)
  {
    match UpperDigitsAt(ref, 0)
    case Some(h) => (ColumnValue(h.groups[0]), DecimalValue(h.groups[1]))
    case None => (0, 0)
  }

  /** `_parse_cell_ref`: the letters accumulate as `col * 26 + letter`, the digits are read as the row. */
  method ParseCellRef(cellRef: string) returns (col: nat, row: nat)
    ensures (col, row) == CellCoordinates(cellRef)
  {
    var m := UpperDigitsAt(cellRef, 0);
    if m.None? {
      return 0, 0;
    }
    var colStr := m.value.groups[0];
    row := DecimalValue(m.value.groups[1]);
    col := 0;
    for i := 0 to |colStr|
      invariant col == ColumnValue(colStr[..i])
    {
      assert colStr[..i + 1][..i] == colStr[..i];
      col := col * 26 + (colStr[i] as int - 'A' as int + 1);
    }
    assert colStr[..|colStr|] == colStr;
  }

  lemma MatchStartsWithCell(s: string)
    requires UpperDigitsAt(s, 0).Some?
    ensures StartsWithCell(s) && CellCoordinates(s).0 >= 1
  {
    var h := UpperDigitsAt(s, 0).value;
    var j := |h.groups[0]|;
    ColumnValueBounds(h.groups[0]);
    assert s[..h.end] == h.groups[0] + h.groups[1];
    assert s[..j] == s[..h.end][..j] == h.groups[0];
    assert s[j] == s[..h.end][j] == h.groups[1][0];
  }

  lemma StartsWithCellMatches(s: string)
    requires StartsWithCell(s)
    ensures UpperDigitsAt(s, 0).Some?
  {
    var j :| 0 < j < |s| && AllUpper(s[..j]) && IsDigit(s[j]);
    assert forall k :: 0 <= k < j ==> s[k] == s[..j][k];
    RunEndAt(s, 0, j, IsUpper);
    assert RunEnd(s, j, IsDigit) > j;
  }

  /** `_parse_cell_ref` answers (0, 0) exactly when the text does not start like a cell; a cell's column is at least 1. */
  lemma CellCoordinatesZero(s: string)
    ensures CellCoordinates(s) == (0, 0) <==> !StartsWithCell(s)
    ensures StartsWithCell(s) ==> CellCoordinates(s).0 >= 1
  {
    if UpperDigitsAt(s, 0).Some? {
      MatchStartsWithCell(s);
    }
    if StartsWithCell(s) {
      StartsWithCellMatches(s);
      MatchStartsWithCell(s);
    }
  }

  /** A cell written as column letters then a row number (and anything but a digit after) decodes back to them. */
  lemma CellCoordinatesOfCell(col: nat, row: nat, rest: string)
    requires col >= 1
    requires rest == [] || !IsDigit(rest[0])
    ensures CellCoordinates(ColumnLetters(col) + NatToString(row) + rest) == (col, row)
  {
    var letters, digits := ColumnLetters(col), NatToString(row);
    var s := letters + digits + rest;
    var j, k := |letters|, |letters| + |digits|;
    assert forall x :: 0 <= x < j ==> s[x] == letters[x];
    assert forall x :: j <= x < k ==> s[x] == digits[x - j];
    assert s[j] == digits[0];
    RunEndAt(s, 0, j, IsUpper);
    assert k < |s| ==> s[k] == rest[0];
    RunEndAt(s, j, k, IsDigit);
    assert s[0..j] == letters && s[j..k] == digits;
    ValueOfLetters(col);
  }

  // ---------------------------------------------------------------------
  // _extract_cross_references

  /** One reference a formula of `sourceSheet` makes to another sheet. */
  datatype CrossRef = CrossRef(kind: string, sourceSheet: string, targetSheet: string,
                               targetReference: string, formula: string)

  /** The analyser's patterns by name, in the order of its dict. */
  const CrossPatterns: Dict<string, Pattern> := [
    ("sheet_cell", LazySheetCell),
    ("sheet_range", LazySheetRange),
    ("sheet_column", LazySheetColumn),
    ("quoted_sheet", QuotedSheetCell),
    ("vlookup_cross", VlookupCross)
  ]

  /** The record a match of pattern `kind` gives: group 1 names the sheet, group 2 the reference. */
  function RecordOf(kind: string, h: Hit, current: string, formula: string): CrossRef
  {
    CrossRef(kind, current, Group(h, 0), Group(h, 1), formula)
  }

  /** The records of the matches `hits`, leaving out those that name the current sheet. */
  function RefsOf(kind: string, hits: seq<Hit>, current: string, formula: string): seq<CrossRef>
  {
    if hits == [] then []
    else
      var h := hits[|hits| - 1];
      RefsOf(kind, hits[..|hits| - 1], current, formula)
        + (if Group(h, 0) != current then [RecordOf(kind, h, current, formula)] else [])
  }

  /** The records the first `n` patterns give, in pattern order. */
  function RefsUpTo(formula: string, current: string, n: nat): seq<CrossRef>
    requires n <= |CrossPatterns|
  {
    if n == 0 then []
    else
      var (kind, p) := CrossPatterns[n - 1];
      RefsUpTo(formula, current, n - 1) + RefsOf(kind, FindAll(p, formula, 0), current, formula)
  }

  /** What `_extract_cross_references(formula, current)` returns. */
  function CrossReferences(formula: string, current: string): seq<CrossRef>
  {
    RefsUpTo(formula, current, |CrossPatterns|)
  }

  /** `_extract_cross_references`: every pattern's matches in turn, each one not naming the current sheet recorded. */
  method ExtractCrossReferences(formula: string, currentSheet: string) returns (references: seq<CrossRef>)
    ensures references == CrossReferences(formula, currentSheet)
  {
    references := [];
    for k := 0 to |CrossPatterns|
      invariant references == RefsUpTo(formula, currentSheet, k)
    {
      var (kind, pattern) := CrossPatterns[k];
      var matches := FindAll(pattern, formula, 0);
      references := AppendRecords(references, kind, matches, currentSheet, formula);
    }
  }

  /** The inner loop of `_extract_cross_references`: one pattern's matches appended in order. */
  method AppendRecords(references: seq<CrossRef>, kind: string, matches: seq<Hit>, current: string, formula: string)
    returns (result: seq<CrossRef>)
    ensures result == references + RefsOf(kind, matches, current, formula)
  {
    result := references;
    for j := 0 to |matches|
      invariant result == references + RefsOf(kind, matches[..j], current, formula)
    {
      var m := matches[j];
      assert matches[..j + 1][..j] == matches[..j];
      if Group(m, 0) != current {
        result := result + [RecordOf(kind, m, current, formula)];
      }
    }
    assert matches[..|matches|] == matches;
  }

  /** Each record of `RefsOf` comes from one of the matches whose sheet is not the current one. */
  lemma {:induction false} RefsOfSound(kind: string, hits: seq<Hit>, current: string, formula: string, r: CrossRef)
    requires r in RefsOf(kind, hits, current, formula)
    ensures exists h :: h in hits && Group(h, 0) != current && r == RecordOf(kind, h, current, formula)
  {
    var init := hits[..|hits| - 1];
    var h := hits[|hits| - 1];
    if r in RefsOf(kind, init, current, formula) {
      RefsOfSound(kind, init, current, formula, r);
      var g :| g in init && Group(g, 0) != current && r == RecordOf(kind, g, current, formula);
      assert g in hits;
    } else {
      assert h in hits;
    }
  }

  /** Each match whose sheet is not the current one gives its record. */
  lemma {:induction false} RefsOfComplete(kind: string, hits: seq<Hit>, current: string, formula: string, h: Hit)
    requires h in hits && Group(h, 0) != current
    ensures RecordOf(kind, h, current, formula) in RefsOf(kind, hits, current, formula)
  {
    var init := hits[..|hits| - 1];
    if h != hits[|hits| - 1] {
      assert h in init by {
        var k :| 0 <= k < |hits| && hits[k] == h;
        assert init[k] == h;
      }
      RefsOfComplete(kind, init, current, formula, h);
    }
  }

  /**
   * Every reference found comes from a match of one of the patterns, has the
   * current sheet as its source, and names a different sheet as its target.
   */
  lemma {:induction false} CrossReferencesSound(formula: string, current: string, n: nat, r: CrossRef)
    requires n <= |CrossPatterns| && r in RefsUpTo(formula, current, n)
    ensures r.sourceSheet == current && r.targetSheet != current && r.formula == formula
    ensures exists k, h :: 0 <= k < n && h in FindAll(CrossPatterns[k].1, formula, 0)
                          && r == RecordOf(CrossPatterns[k].0, h, current, formula)
  {
    var (kind, p) := CrossPatterns[n - 1];
    if r in RefsUpTo(formula, current, n - 1) {
      CrossReferencesSound(formula, current, n - 1, r);
    } else {
      RefsOfSound(kind, FindAll(p, formula, 0), current, formula, r);
    }
  }

  /** Every match of every pattern that names another sheet is reported, under the pattern's name. */
  lemma {:induction false} CrossReferencesComplete(formula: string, current: string, n: nat, k: nat, h: Hit)
    requires k < n <= |CrossPatterns|
    requires h in FindAll(CrossPatterns[k].1, formula, 0) && Group(h, 0) != current
    ensures RecordOf(CrossPatterns[k].0, h, current, formula) in RefsUpTo(formula, current, n)
  {
    var (kind, p) := CrossPatterns[n - 1];
    if k == n - 1 {
      RefsOfComplete(kind, FindAll(p, formula, 0), current, formula, h);
    } else {
      CrossReferencesComplete(formula, current, n - 1, k, h);
    }
  }

  /** A range reference is also matched, at the same position and for the same sheet, as a cell reference. */
  lemma RangeIsAlsoCell(s: string, i: nat)
    requires i <= |s| && MatchAt(LazySheetRange, s, i).Some?
    ensures MatchAt(LazySheetCell, s, i).Some?
    ensures Group(MatchAt(LazySheetCell, s, i).value, 0) == Group(MatchAt(LazySheetRange, s, i).value, 0)
  {
  }

  /** The text "Dados!A1:B10" matches the cell pattern as Dados!A1 and the range pattern as Dados!A1:B10. */
  lemma DadosMatches(s: string)
    requires s == "Dados!A1:B10"
    ensures MatchAt(LazySheetCell, s, 0) == Some(Hit(0, 8, ["Dados", "A1"]))
    ensures MatchAt(LazySheetRange, s, 0) == Some(Hit(0, 12, ["Dados", "A1:B10"]))
  {
    DadosSuffixes(s);
    assert MatchAt(LazySheetCell, s, 0) == LazySheetAt(0, s, 0);
    assert MatchAt(LazySheetRange, s, 0) == LazySheetAt(1, s, 0);
    DadosLazy(s, 0, 8);
    DadosLazy(s, 1, 12);
    assert s[6..8] == "A1";
    assert s[6..12] == "A1:B10";
  }

  /** The lazy sheet pattern of kind `kind` matches "Dados" and what follows the '!' up to `e`. */
  lemma DadosLazy(s: string, kind: nat, e: nat)
    requires s == "Dados!A1:B10" && RunEnd(s, 1, IsWordOrSpace) == 5
    requires kind <= 1 && 6 < e <= |s|
    requires (if kind == 0 then CellSuffix(s, 6) else RangeSuffix(s, 6)) == Some(e)
    ensures LazySheetAt(kind, s, 0) == Some(Hit(0, e, ["Dados", s[6..e]]))
  {
    assert IsSheetStart(s[0]) && s[5] == '!';
    assert s[0..5] == "Dados";
  }

  lemma DadosSuffixes(s: string)
    requires s == "Dados!A1:B10"
    ensures RunEnd(s, 1, IsWordOrSpace) == 5
    ensures CellSuffix(s, 6) == Some(8) && RangeSuffix(s, 6) == Some(12)
  {
    RunEndAt(s, 1, 5, IsWordOrSpace);
    RunEndAt(s, 6, 7, IsUpper);
    RunEndAt(s, 7, 8, IsDigit);
    RunEndAt(s, 9, 10, IsUpper);
    RunEndAt(s, 10, 12, IsDigit);
  }

  /**
   * "Dados!A1:B10" in a formula of another sheet is reported twice: once as
   * the cell Dados!A1 and once as the range Dados!A1:B10.
   */
  lemma RangeReportedTwice(formula: string, current: string)
    requires formula == "Dados!A1:B10" && current != "Dados"
    ensures CrossRef("sheet_cell", current, "Dados", "A1", formula) in CrossReferences(formula, current)
    ensures CrossRef("sheet_range", current, "Dados", "A1:B10", formula) in CrossReferences(formula, current)
  {
    var cell, range := Hit(0, 8, ["Dados", "A1"]), Hit(0, 12, ["Dados", "A1:B10"]);
    DadosMatches(formula);
    FindAllComplete(LazySheetCell, formula, 0, 0);
    FindAllComplete(LazySheetRange, formula, 0, 0);
    CrossReferencesComplete(formula, current, |CrossPatterns|, 0, cell);
    CrossReferencesComplete(formula, current, |CrossPatterns|, 1, range);
  }
}
