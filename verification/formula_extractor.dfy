/**
 * The formula extractor: rewriting cell references of a spreadsheet formula
 * into the header names they stand for, and the small analyses built on the
 * same scans (external sheets, untranslated columns, dependencies).
 */
module FormulaExtractor {
  import opened Wrappers
  import opened Text
  import opened Assoc
  import opened Splice
  import opened Patterns
  import opened Sorting
  import opened Columns
  import FAD = FormulaAutoDiscovery

  /** Column letters (or "Sheet!COL") to header names, in dict order. */
  type TranslationMap = Dict<string, string>

  /** One extracted formula, with the keys the source stores (absent lists are empty). */
  datatype FormulaInfo = FormulaInfo(
    original: string,
    translated: string,
    sheet: Option<string>,
    column: Option<string>,
    columnIndex: nat,
    mapping: TranslationMap,
    externalRefs: seq<string>,
    dependsOn: seq<string>,
    autoDiscovered: bool)

  // ---------------------------------------------------------------------
  // _translate_formula

  /** Which key a translate loop looks a match up by. */
  datatype SpliceMode =
    | ByColumn                  // `_translate_formula`: the column letters
    | BySheetColumn             // first phase of the multi-sheet loop: "Sheet!COL"
    | ByColumnUnlessAfterBang   // second phase: the column letters, unless a '!' precedes the match

  /** The name a translate loop finds for match `h` of text `t`, if any. */
  function Lookup(mode: SpliceMode, t: string, m: TranslationMap, h: Hit): Option<string>
  {
    if mode == ByColumnUnlessAfterBang && 0 < h.start <= |t| && t[h.start - 1] == '!' then None
    else Get(m, if mode == BySheetColumn then Group(h, 0) + "!" + Group(h, 1) else Group(h, 0))
  }

  /** What a match becomes: the name found for it, or its own text. */
  function Replacement(mode: SpliceMode, s: string, m: TranslationMap, h: Hit): string
  {
    match Lookup(mode, s, m, h)
    case Some(name) => name
    case None => Slice(s, h.start, h.end)
  }

  function CellRewrite(s: string, m: TranslationMap): Hit -> string
  {
    h => Replacement(ByColumn, s, m, h)
  }

  /** The translation read left to right: each reference replaced in one pass over the original. */
  function TranslatedText(s: string, m: TranslationMap): string
  {
    Sub(CellRef, s, CellRewrite(s, m))
  }

  /**
   * `_translate_formula`: splice each mapped reference's name into the text,
   * walking the matches of the original from the last to the first.
   */
  method TranslateFormula(formula: string, m: TranslationMap) returns (translated: string)
    ensures translated == TranslatedText(formula, m)
  {
    var matches := FindAll(CellRef, formula, 0);
    SubFromRebuild(CellRef, formula, CellRewrite(formula, m), 0);
    translated := SpliceMatches(formula, matches, CellRewrite(formula, m), m, ByColumn);
  }

  /** References to unmapped columns, and all text between references, come out as they went in. */
  lemma TranslateUnmappedIdentity(s: string, m: TranslationMap)
    requires forall h :: h in FindAll(CellRef, s, 0) ==> !HasKey(m, Group(h, 0))
    ensures TranslatedText(s, m) == s
  {
    var hs := FindAll(CellRef, s, 0);
    var es := ToEdits(hs, CellRewrite(s, m));
    SubFromRebuild(CellRef, s, CellRewrite(s, m), 0);
    forall i | 0 <= i < |es|
      ensures es[i].text == s[es[i].start..es[i].end]
    {
      assert hs[i] in hs;
      UnmappedKeepsText(s, m, hs[i]);
    }
    RebuildIdentity(s, es, 0);
  }

  /** A reference to an unmapped column is replaced by its own text. */
  lemma UnmappedKeepsText(s: string, m: TranslationMap, h: Hit)
    requires h.start <= h.end <= |s| && !HasKey(m, Group(h, 0))
    ensures CellRewrite(s, m)(h) == s[h.start..h.end]
  {
    assert Lookup(ByColumn, s, m, h).None?;
  }

  /** With an empty map the formula is returned unchanged. */
  lemma TranslateEmptyMap(s: string)
    ensures TranslatedText(s, []) == s
  {
    TranslateUnmappedIdentity(s, []);
  }

  /** Where the reference scanner matches in "=A2+B2". */
  lemma ExampleScan(s: string)
    requires s == "=A2+B2"
    ensures MatchAt(CellRef, s, 0).None? && MatchAt(CellRef, s, 3).None?
    ensures MatchAt(CellRef, s, 1) == Some(Hit(1, 3, ["A", "2"]))
    ensures MatchAt(CellRef, s, 4) == Some(Hit(4, 6, ["B", "2"]))
  {
    RunEndAt(s, 1, 2, IsUpper);
    RunEndAt(s, 2, 3, IsDigit);
    RunEndAt(s, 4, 5, IsUpper);
    RunEndAt(s, 5, 6, IsDigit);
    assert s[1..2] == "A" && s[2..3] == "2" && s[4..5] == "B" && s[5..6] == "2";
  }

  /** Substituting the two references of "=A2+B2" by the names `f` gives them. */
  lemma ExampleSub(s: string, f: Hit -> string)
    requires s == "=A2+B2"
    requires f(Hit(1, 3, ["A", "2"])) == "SALARIO" && f(Hit(4, 6, ["B", "2"])) == "BONUS"
    ensures Sub(CellRef, s, f) == "=SALARIO+BONUS"
  {
    ExampleScan(s);
    SubFromNoMatch(CellRef, s, f, 6);
    SubFromHit(CellRef, s, f, 4, Hit(4, 6, ["B", "2"]));
    SubFromSkip(CellRef, s, f, 3);
    SubFromHit(CellRef, s, f, 1, Hit(1, 3, ["A", "2"]));
    SubFromSkip(CellRef, s, f, 0);
  }

  /** Each mapped reference becomes its header name and loses its row: "=A2+B2" gives "=SALARIO+BONUS". */
  lemma TranslateExample(s: string, m: TranslationMap)
    requires s == "=A2+B2" && m == [("A", "SALARIO"), ("B", "BONUS")]
    ensures TranslatedText(s, m) == "=SALARIO+BONUS"
  {
    assert Get(m, "A") == Some("SALARIO") && Get(m, "B") == Some("BONUS");
    ExampleSub(s, CellRewrite(s, m));
  }

  // ---------------------------------------------------------------------
  // _translate_formula_multi_sheet

  function SheetRewrite(s: string, m: TranslationMap): Hit -> string
  {
    h => Replacement(BySheetColumn, s, m, h)
  }

  function LocalRewrite(t: string, m: TranslationMap): Hit -> string
  {
    h => Replacement(ByColumnUnlessAfterBang, t, m, h)
  }

  /** Phase one: sheet-qualified references of the original. */
  function SheetPhase(s: string, m: TranslationMap): string
  {
    Sub(SheetRef, s, SheetRewrite(s, m))
  }

  /** Both phases read left to right; the second scans the text the first produced. */
  function MultiSheetText(s: string, m: TranslationMap): string
  {
    var t := SheetPhase(s, m);
    Sub(CellRef, t, LocalRewrite(t, m))
  }

  /** One pass of the translate loop keeps the text equal to the original up to the match, then its rebuild. */
  lemma SpliceLookupStep(s: string, m: TranslationMap, mode: SpliceMode, h: Hit, es: seq<Edit>,
                         pos: nat, before: string, after: string)
    requires |es| > 0 && Ordered(s, es[1..], pos) && es[0].start == h.start <= es[0].end == h.end <= pos
    requires es[0].text == Replacement(mode, s, m, h)
    requires before == s[..pos] + Rebuild(s, es[1..], pos)
    requires after == match Lookup(mode, before, m, h)
                      case Some(v) => before[..h.start] + v + before[h.end..]
                      case None => before
    ensures Ordered(s, es, es[0].start)
    ensures after == s[..es[0].start] + Rebuild(s, es, es[0].start)
  {
    assert before[..pos] == s[..pos];
    assert 0 < h.start ==> before[h.start - 1] == s[h.start - 1];
    assert Lookup(mode, before, m, h) == Lookup(mode, s, m, h);
    if Lookup(mode, s, m, h).None? {
      assert es[0].text == before[h.start..h.end];
      SpliceSame(before, h.start, h.end);
    }
    SpliceStep(s, before, es, pos);
  }

  /** Where the unrewritten prefix ends once the edits from `k` on are spliced in. */
  function Frontier(s: string, es: seq<Edit>, k: nat): nat
    requires k <= |es|
  {
    if k < |es| then es[k].start else |s|
  }

  /** Before splicing edit `k`, its span lies inside the unrewritten prefix of the text. */
  lemma SpliceBounds(s: string, es: seq<Edit>, k: nat, t: string)
    requires k < |es| && Ordered(s, es, 0)
    requires Ordered(s, es[k + 1..], Frontier(s, es, k + 1))
    requires t == s[..Frontier(s, es, k + 1)] + Rebuild(s, es[k + 1..], Frontier(s, es, k + 1))
    ensures es[k].start <= es[k].end <= Frontier(s, es, k + 1) <= |t|
  {
    if k + 1 < |es| {
      assert es[k].end <= es[k + 1].start;
    }
  }

  /** One pass of the translate loop, stated on the edit list the loop walks. */
  lemma SpliceLoopStep(s: string, m: TranslationMap, mode: SpliceMode, h: Hit, es: seq<Edit>, k: nat,
                       before: string, after: string)
    requires k < |es| && Ordered(s, es, 0)
    requires es[k] == Edit(h.start, h.end, Replacement(mode, s, m, h))
    requires Ordered(s, es[k + 1..], Frontier(s, es, k + 1))
    requires before == s[..Frontier(s, es, k + 1)] + Rebuild(s, es[k + 1..], Frontier(s, es, k + 1))
    requires h.end <= |before|
    requires after == match Lookup(mode, before, m, h)
                      case Some(v) => before[..h.start] + v + before[h.end..]
                      case None => before
    ensures Ordered(s, es[k..], Frontier(s, es, k))
    ensures after == s[..Frontier(s, es, k)] + Rebuild(s, es[k..], Frontier(s, es, k))
  {
    SpliceBounds(s, es, k, before);
    assert es[k..][0] == es[k] && es[k..][1..] == es[k + 1..];
    SpliceLookupStep(s, m, mode, h, es[k..], Frontier(s, es, k + 1), before, after);
  }

  /**
   * The loop both translate functions run: for each match, from the last to
   * the first, splice the mapped name (if any) into the current text.
   */
  method SpliceMatches(s: string, matches: seq<Hit>, ghost f: Hit -> string,
                       m: TranslationMap, mode: SpliceMode)
    returns (translated: string)
    requires Ordered(s, ToEdits(matches, f), 0)
    requires forall h :: f(h) == Replacement(mode, s, m, h)
    ensures translated == Rebuild(s, ToEdits(matches, f), 0)
  {
    ghost var es := ToEdits(matches, f);
    translated := s;
    var k := |matches|;
    assert es[k..] == [];
    while k > 0
      invariant 0 <= k <= |es|
      invariant Ordered(s, es[k..], Frontier(s, es, k))
      invariant translated == s[..Frontier(s, es, k)] + Rebuild(s, es[k..], Frontier(s, es, k))
    {
      k := k - 1;
      var h := matches[k];
      SpliceBounds(s, es, k, translated);
      ghost var before := translated;
      var name := Lookup(mode, translated, m, h);
      if name.Some? {
        translated := translated[..h.start] + name.value + translated[h.end..];
      }
      SpliceLoopStep(s, m, mode, h, es, k, before, translated);
    }
    assert es[0..] == es;
    RebuildShift(s, es, 0, Frontier(s, es, 0));
    assert s[..Frontier(s, es, 0)] == s[0..Frontier(s, es, 0)];
  }

  /**
   * `_translate_formula_multi_sheet`: first the `Sheet!COLROW` references of
   * the original whose "Sheet!COL" is mapped, then the local references of
   * the partly translated text, skipping any right after a '!'.
   */
  method TranslateFormulaMultiSheet(formula: string, m: TranslationMap) returns (translated: string)
    ensures translated == MultiSheetText(formula, m)
  {
    var sheetMatches := FindAll(SheetRef, formula, 0);
    SubFromRebuild(SheetRef, formula, SheetRewrite(formula, m), 0);
    translated := SpliceMatches(formula, sheetMatches, SheetRewrite(formula, m), m, BySheetColumn);
    var localMatches := FindAll(CellRef, translated, 0);
    SubFromRebuild(CellRef, translated, LocalRewrite(translated, m), 0);
    translated := SpliceMatches(translated, localMatches, LocalRewrite(translated, m), m, ByColumnUnlessAfterBang);
  }

  /** Two replacement functions that agree on every match give the same substitution. */
  lemma SubAgree(p: Pattern, s: string, f: Hit -> string, g: Hit -> string)
    requires forall h :: h in FindAll(p, s, 0) ==> f(h) == g(h)
    ensures Sub(p, s, f) == Sub(p, s, g)
  {
    var hs := FindAll(p, s, 0);
    var ef := ToEdits(hs, f);
    var eg := ToEdits(hs, g);
    SubFromRebuild(p, s, f, 0);
    SubFromRebuild(p, s, g, 0);
    forall i | 0 <= i < |hs|
      ensures ef[i] == eg[i]
    {
      assert hs[i] in hs;
    }
    assert ef == eg;
  }

  /** A formula without any '!' has no sheet references: both translations agree. */
  lemma MultiSheetWithoutBang(s: string, m: TranslationMap)
    requires !HasChar(s, '!')
    ensures MultiSheetText(s, m) == TranslatedText(s, m)
  {
    forall i | 0 <= i < |s|
      ensures MatchAt(SheetRef, s, i).None?
    {
    }
    SubFromNoMatch(SheetRef, s, SheetRewrite(s, m), 0);
    assert SheetPhase(s, m) == s;
    forall h | h in FindAll(CellRef, s, 0)
      ensures LocalRewrite(s, m)(h) == CellRewrite(s, m)(h)
    {
      if 0 < h.start <= |s| {
        assert s[h.start - 1] != '!';
      }
    }
    SubAgree(CellRef, s, LocalRewrite(s, m), CellRewrite(s, m));
  }

  // ---------------------------------------------------------------------
  // _extract_external_references

  /** The word runs written right before a '!', each once. */
  function ExternalReferences(formula: string): (r: seq<string>)
    ensures NoDup(r)
    ensures forall x :: x in r <==> x in Groups(FindAll(SheetPrefix, formula, 0), 0)
  {
    Dedup(Groups(FindAll(SheetPrefix, formula, 0), 0))
  }

  /** Every listed name is a non-empty word run that the formula writes followed by '!'. */
  lemma ExternalReferencesSound(formula: string, x: string)
    requires x in ExternalReferences(formula)
    ensures |x| > 0 && forall k :: 0 <= k < |x| ==> IsWordChar(x[k])
    ensures Contains(formula, x + "!")
  {
    var hs := FindAll(SheetPrefix, formula, 0);
    GroupFound(hs, 0, x);
    var h :| h in hs && Group(h, 0) == x;
    SheetPrefixFound(formula, h);
  }

  /** The sheet name of a "name!" match is a non-empty word run that the formula writes followed by '!'. */
  lemma SheetPrefixFound(formula: string, h: Hit)
    requires h in FindAll(SheetPrefix, formula, 0)
    ensures |Group(h, 0)| > 0 && forall k :: 0 <= k < |Group(h, 0)| ==> IsWordChar(Group(h, 0)[k])
    ensures Contains(formula, Group(h, 0) + "!")
  {
    FoundAt(SheetPrefix, formula, 0, h);
    assert SheetPrefixAt(formula, h.start) == Some(h);
    ContainsAt(formula, h.start, h.end);
  }

  /** Every maximal word run followed by '!' is listed. */
  lemma ExternalReferencesComplete(formula: string, i: nat, j: nat)
    requires i < j < |formula| && formula[j] == '!'
    requires i == 0 || !IsWordChar(formula[i - 1])
    requires forall k :: i <= k < j ==> IsWordChar(formula[k])
    ensures formula[i..j] in ExternalReferences(formula)
  {
    var hs := FindAll(SheetPrefix, formula, 0);
    forall h | h in hs
      ensures h.end <= i || i <= h.start
    {
      FoundAt(SheetPrefix, formula, 0, h);
    }
    FindAllComplete(SheetPrefix, formula, 0, i);
    var h := SheetPrefixAt(formula, i).value;
    var w := RunEnd(formula, i, IsWordChar);
    assert w == j;
    var k :| 0 <= k < |hs| && hs[k] == h;
    assert Groups(hs, 0)[k] == formula[i..j];
  }

  // ---------------------------------------------------------------------
  // _analyze_formula_dependencies

  /** The name a formula key is known by: the text after its last '.'. */
  function ShortName(key: string): string
  {
    AfterLast(key, '.')
  }

  /** The keys of `keys`, in order, other than `key`, whose short name occurs in `text`. */
  function DependsOnFor(keys: seq<string>, key: string, text: string): (r: seq<string>)
    ensures forall x :: x in r <==> x in keys && x != key && Contains(text, ShortName(x))
  {
    if keys == [] then []
    else
      (if keys[0] != key && Contains(text, ShortName(keys[0])) then [keys[0]] else [])
      + DependsOnFor(keys[1..], key, text)
  }

  lemma {:induction false} DependsOnForConcat(xs: seq<string>, ys: seq<string>, key: string, text: string)
    ensures DependsOnFor(xs + ys, key, text) == DependsOnFor(xs, key, text) + DependsOnFor(ys, key, text)
  {
    if xs == [] {
      assert xs + ys == ys;
    } else {
      assert (xs + ys)[1..] == xs[1..] + ys;
      DependsOnForConcat(xs[1..], ys, key, text);
    }
  }

  /** Extending the scanned prefix of the keys by one key. */
  lemma DependsOnForAppend(keys: seq<string>, j: nat, key: string, text: string)
    requires j < |keys|
    ensures DependsOnFor(keys[..j + 1], key, text)
            == DependsOnFor(keys[..j], key, text)
               + (if keys[j] != key && Contains(text, ShortName(keys[j])) then [keys[j]] else [])
  {
    assert keys[..j + 1] == keys[..j] + [keys[j]];
    DependsOnForConcat(keys[..j], [keys[j]], key, text);
  }

  /** An entry of the formulas dict with its `depends_on` set against all the keys. */
  function WithDependencies(keys: seq<string>, entry: (string, FormulaInfo)): (string, FormulaInfo)
  {
    (entry.0, entry.1.(dependsOn := DependsOnFor(keys, entry.0, entry.1.translated)))
  }

  /** Every entry of `formulas` with its `depends_on` set. */
  function AnalysedOf(formulas: Dict<string, FormulaInfo>): Dict<string, FormulaInfo>
  {
    seq(|formulas|, i requires 0 <= i < |formulas| => WithDependencies(Keys(formulas), formulas[i]))
  }

  /** The inner loop of `_analyze_formula_dependencies`: the other keys whose short name `text` mentions. */
  method DependenciesOf(formulas: Dict<string, FormulaInfo>, key: string, text: string)
    returns (dependencies: seq<string>)
    ensures dependencies == DependsOnFor(Keys(formulas), key, text)
  {
    ghost var keys := Keys(formulas);
    dependencies := [];
    var j := 0;
    while j < |formulas|
      invariant 0 <= j <= |formulas|
      invariant dependencies == DependsOnFor(keys[..j], key, text)
    {
      var other := formulas[j].0;
      DependsOnForAppend(keys, j, key, text);
      if other != key && Contains(text, ShortName(other)) {
        dependencies := dependencies + [other];
      }
      j := j + 1;
    }
    assert keys[..|formulas|] == keys;
  }

  /**
   * `_analyze_formula_dependencies`: set each formula's `depends_on` to the
   * other formulas its translated text mentions; nothing else changes.
   */
  method AnalyzeFormulaDependencies(formulas: Dict<string, FormulaInfo>) returns (result: Dict<string, FormulaInfo>)
    ensures result == AnalysedOf(formulas)
  {
    result := formulas;
    var i := 0;
    while i < |formulas|
      invariant 0 <= i <= |formulas| && |result| == |formulas|
      invariant forall k :: 0 <= k < i ==> result[k] == WithDependencies(Keys(formulas), formulas[k])
      invariant forall k :: i <= k < |formulas| ==> result[k] == formulas[k]
    {
      var key := formulas[i].0;
      var dependencies := DependenciesOf(formulas, key, formulas[i].1.translated);
      result := result[i := (key, formulas[i].1.(dependsOn := dependencies))];
      i := i + 1;
    }
  }

  /** Distinct formula keys give a dependency list without repeats. */
  lemma {:induction false} DependsOnForNoDup(keys: seq<string>, key: string, text: string)
    requires NoDup(keys)
    ensures NoDup(DependsOnFor(keys, key, text))
  {
    if keys != [] {
      assert NoDup(keys[1..]);
      DependsOnForNoDup(keys[1..], key, text);
      assert keys[0] !in keys[1..];
    }
  }

  // ---------------------------------------------------------------------
  // _find_column_by_header

  /** Row 1 of a sheet (column index to the text of the cell) and its width. */
  datatype HeaderRow = HeaderRow(maxColumn: nat, cells: map<nat, string>)

  /** Column `c` holds a non-empty header whose stripped text is `name`. */
  predicate HeaderMatches(row: HeaderRow, c: nat, name: string) {
    c in row.cells && row.cells[c] != "" && Strip(row.cells[c]) == name
  }

  /** `_find_column_by_header`: the first column from 1 to max_column whose header is `name`. */
  method FindColumnByHeader(row: HeaderRow, name: string) returns (r: Option<nat>)
    ensures r.Some? ==> 1 <= r.value <= row.maxColumn && HeaderMatches(row, r.value, name)
    ensures r.Some? ==> forall c :: 1 <= c < r.value ==> !HeaderMatches(row, c, name)
    ensures r.None? ==> forall c :: 1 <= c <= row.maxColumn ==> !HeaderMatches(row, c, name)
  {
    var col := 1;
    while col <= row.maxColumn
      invariant 1 <= col <= row.maxColumn + 1
      invariant forall c :: 1 <= c < col ==> !HeaderMatches(row, c, name)
    {
      if col in row.cells && row.cells[col] != "" && Strip(row.cells[col]) == name {
        return Some(col);
      }
      col := col + 1;
    }
    return None;
  }

  // ---------------------------------------------------------------------
  // validate_translation_map

  /** Column letters of the matches whose column is not a key of `m`, in order. */
  function UnmappedColumns(hs: seq<Hit>, m: TranslationMap): (r: seq<string>)
    ensures forall x :: x in r <==> exists h :: h in hs && Group(h, 0) == x && !HasKey(m, x)
  {
    if hs == [] then []
    else
      (if HasKey(m, Group(hs[0], 0)) then [] else [Group(hs[0], 0)])
      + UnmappedColumns(hs[1..], m)
  }

  /** `validate_translation_map`: the distinct columns referenced but not mapped. */
  function UntranslatedColumns(formula: string, m: TranslationMap): (r: seq<string>)
    ensures NoDup(r)
    ensures forall x :: x in r <==> exists h :: h in FindAll(CellRef, formula, 0) && Group(h, 0) == x && !HasKey(m, x)
    ensures r == [] <==> forall h :: h in FindAll(CellRef, formula, 0) ==> HasKey(m, Group(h, 0))
  {
    Dedup(UnmappedColumns(FindAll(CellRef, formula, 0), m))
  }

  /** A map that covers every referenced column translates every reference. */
  lemma UntranslatedEmptyMeansAllMapped(formula: string, m: TranslationMap, h: Hit)
    requires UntranslatedColumns(formula, m) == [] && h in FindAll(CellRef, formula, 0)
    ensures Replacement(ByColumn, formula, m, h) == Get(m, Group(h, 0)).value
  {
  }

  // ---------------------------------------------------------------------
  // _create_auto_mapping

  /** The column letters written after "sheet!" in a reference with a row (`set(re.findall(...))`). */
  function SheetColumnLetters(formula: string, sheet: string): seq<string>
  {
    Dedup(Groups(FindAll(LiteralSheetRef(sheet), formula, 0), 0))
  }

  /** The column letters of references not preceded by a letter or '!'. */
  function LocalColumnLetters(formula: string): seq<string>
  {
    Dedup(Groups(FindAll(LocalLetters, formula, 0), 0))
  }

  /** Local column letters are letters: none of them can be read as "Sheet!COL". */
  lemma LocalColumnLettersNoBang(formula: string, x: string)
    requires x in LocalColumnLetters(formula)
    ensures !HasChar(x, '!')
  {
    LocalLettersUpper(formula, x);
    UpperHasNoBang(x);
  }

  /** The letters the local-letters scan captures are upper-case letters. */
  lemma LocalLettersUpper(formula: string, x: string)
    requires x in Groups(FindAll(LocalLetters, formula, 0), 0)
    ensures AllUpper(x)
  {
    var hs := FindAll(LocalLetters, formula, 0);
    GroupFound(hs, 0, x);
    var h :| h in hs && Group(h, 0) == x;
    FoundAt(LocalLetters, formula, 0, h);
    assert LocalLettersAt(formula, h.start) == Some(h);
  }

  /** The name part of the last dependency "sheet!name" on `sheet`. */
  function LastSheetDep(deps: seq<string>, sheet: string): Option<string>
  {
    if deps == [] then None
    else
      var d := deps[|deps| - 1];
      if HasChar(d, '!') && SplitAtBang(d).0 == sheet then Some(SplitAtBang(d).1)
      else LastSheetDep(deps[..|deps| - 1], sheet)
  }

  /** The first dependency without a '!'. */
  function FirstLocalDep(deps: seq<string>): Option<string>
  {
    if deps == [] then None
    else if !HasChar(deps[0], '!') then Some(deps[0])
    else FirstLocalDep(deps[1..])
  }

  lemma {:induction false} FirstLocalDepAppend(deps: seq<string>, d: string)
    ensures FirstLocalDep(deps + [d])
            == if FirstLocalDep(deps).Some? then FirstLocalDep(deps)
               else if !HasChar(d, '!') then Some(d) else None
  {
    if deps == [] {
      assert deps + [d] == [d];
    } else {
      assert (deps + [d])[1..] == deps[1..] + [d];
      FirstLocalDepAppend(deps[1..], d);
    }
  }

  /**
   * What the automatic mapping holds under key `k`: a "Sheet!COL" key whose
   * column the formula references on that sheet maps to the name of the last
   * dependency on that sheet; a bare column the formula references locally
   * maps to the first dependency without a sheet; nothing else is a key.
   */
  function AutoEntry(formula: string, deps: seq<string>, k: string): Option<string>
  {
    if HasChar(k, '!') then
      var (sheet, col) := SplitAtBang(k);
      if col in SheetColumnLetters(formula, sheet) then LastSheetDep(deps, sheet) else None
    else if k in LocalColumnLetters(formula) then FirstLocalDep(deps)
    else None
  }

  /** A "Sheet!Name" dependency rewrites the entries of that sheet's referenced columns and keeps the rest. */
  lemma AutoEntrySheetStep(formula: string, deps: seq<string>, i: nat, k: string)
    requires i < |deps| && HasChar(deps[i], '!')
    ensures AutoEntry(formula, deps[..i + 1], k)
            == if HasChar(k, '!') && SplitAtBang(k).0 == SplitAtBang(deps[i]).0
                  && SplitAtBang(k).1 in SheetColumnLetters(formula, SplitAtBang(deps[i]).0)
               then Some(SplitAtBang(deps[i]).1)
               else AutoEntry(formula, deps[..i], k)
  {
    assert deps[..i + 1][..i] == deps[..i];
    assert deps[..i + 1] == deps[..i] + [deps[i]];
    FirstLocalDepAppend(deps[..i], deps[i]);
  }

  /** A local dependency fills the referenced local columns that had no entry yet and keeps the rest. */
  lemma AutoEntryLocalStep(formula: string, deps: seq<string>, i: nat, k: string)
    requires i < |deps| && !HasChar(deps[i], '!')
    ensures AutoEntry(formula, deps[..i + 1], k)
            == if k in LocalColumnLetters(formula) && AutoEntry(formula, deps[..i], k).None?
               then Some(deps[i])
               else AutoEntry(formula, deps[..i], k)
  {
    assert deps[..i + 1][..i] == deps[..i];
    assert deps[..i + 1] == deps[..i] + [deps[i]];
    FirstLocalDepAppend(deps[..i], deps[i]);
    if k in LocalColumnLetters(formula) {
      LocalColumnLettersNoBang(formula, k);
    }
  }

  /** The inner loop for a "Sheet!Name" dependency: "Sheet!COL" assigned Name for each column of `cols` in turn. */
  function PutSheetColumnsOf(m: TranslationMap, sheet: string, cols: seq<string>, name: string): TranslationMap
  {
    if cols == [] then m
    else Put(PutSheetColumnsOf(m, sheet, cols[..|cols| - 1], name), sheet + "!" + cols[|cols| - 1], name)
  }

  /** The inner loop for a local dependency: each column of `cols` not yet a key assigned `dep`. */
  function PutLocalColumnsOf(m: TranslationMap, cols: seq<string>, dep: string): TranslationMap
  {
    if cols == [] then m
    else
      var r := PutLocalColumnsOf(m, cols[..|cols| - 1], dep);
      if HasKey(r, cols[|cols| - 1]) then r else Put(r, cols[|cols| - 1], dep)
  }

  /** One pass of the outer loop: what dependency `dep` does to the map. */
  function AutoStepOf(formula: string, m: TranslationMap, dep: string): TranslationMap
  {
    if HasChar(dep, '!') then
      var (sheet, name) := SplitAtBang(dep);
      PutSheetColumnsOf(m, sheet, SheetColumnLetters(formula, sheet), name)
    else PutLocalColumnsOf(m, LocalColumnLetters(formula), dep)
  }

  /** The map `_create_auto_mapping` builds: the dependencies applied in order to an empty map. */
  function AutoMappingOf(formula: string, deps: seq<string>): TranslationMap
  {
    if deps == [] then [] else AutoStepOf(formula, AutoMappingOf(formula, deps[..|deps| - 1]), deps[|deps| - 1])
  }

  /** A "Sheet!Name" dependency maps "Sheet!COL" to Name for the columns in `cols` and keeps every other entry. */
  lemma {:induction false} PutSheetColumnsGet(m: TranslationMap, sheet: string, cols: seq<string>, name: string, k: string)
    requires DistinctKeys(m) && !HasChar(sheet, '!')
    ensures DistinctKeys(PutSheetColumnsOf(m, sheet, cols, name))
    ensures Get(PutSheetColumnsOf(m, sheet, cols, name), k)
            == if HasChar(k, '!') && SplitAtBang(k).0 == sheet && SplitAtBang(k).1 in cols
               then Some(name) else Get(m, k)
  {
    if cols != [] {
      var init := cols[..|cols| - 1];
      var c := cols[|cols| - 1];
      var key := sheet + "!" + c;
      PutSheetColumnsGet(m, sheet, init, name, k);
      SplitJoin(sheet, c);
      GetPut(PutSheetColumnsOf(m, sheet, init, name), key, name, k);
      if HasChar(k, '!') {
        assert SplitAtBang(k).1 in cols <==> SplitAtBang(k).1 in init || SplitAtBang(k).1 == c;
        if SplitAtBang(k) == (sheet, c) {
          assert k == key;
        }
      }
    }
  }

  /** A local dependency maps the columns in `cols` that had no entry to itself and keeps every other entry. */
  lemma {:induction false} PutLocalColumnsGet(m: TranslationMap, cols: seq<string>, dep: string, k: string)
    requires DistinctKeys(m)
    ensures DistinctKeys(PutLocalColumnsOf(m, cols, dep))
    ensures Get(PutLocalColumnsOf(m, cols, dep), k) == if k in cols && Get(m, k).None? then Some(dep) else Get(m, k)
  {
    if cols != [] {
      var init := cols[..|cols| - 1];
      var c := cols[|cols| - 1];
      var r := PutLocalColumnsOf(m, init, dep);
      PutLocalColumnsGet(m, init, dep, k);
      PutLocalColumnsGet(m, init, dep, c);
      assert k in cols <==> k in init || k == c;
      if !HasKey(r, c) {
        GetPut(r, c, dep, k);
        assert PutLocalColumnsOf(m, cols, dep) == Put(r, c, dep);
      } else {
        assert PutLocalColumnsOf(m, cols, dep) == r;
      }
    }
  }

  /** After a "Sheet!Name" dependency, the map holds the entries of the dependencies up to it. */
  lemma AutoMappingSheetStep(formula: string, deps: seq<string>, i: nat, sheet: string, name: string,
                              before: TranslationMap, after: TranslationMap)
    requires i < |deps| && HasChar(deps[i], '!') && (sheet, name) == SplitAtBang(deps[i])
    requires HoldsAutoEntries(before, formula, deps[..i])
    requires forall k :: Get(after, k)
               == if HasChar(k, '!') && SplitAtBang(k).0 == sheet && SplitAtBang(k).1 in SheetColumnLetters(formula, sheet)
                  then Some(name) else Get(before, k)
    ensures HoldsAutoEntries(after, formula, deps[..i + 1])
  {
    forall k
      ensures Get(after, k) == AutoEntry(formula, deps[..i + 1], k)
    {
      AutoEntrySheetStep(formula, deps, i, k);
    }
  }

  /** After a local dependency, the map holds the entries of the dependencies up to it. */
  lemma AutoMappingLocalStep(formula: string, deps: seq<string>, i: nat, before: TranslationMap, after: TranslationMap)
    requires i < |deps| && !HasChar(deps[i], '!')
    requires HoldsAutoEntries(before, formula, deps[..i])
    requires forall k :: Get(after, k)
               == if k in LocalColumnLetters(formula) && Get(before, k).None? then Some(deps[i]) else Get(before, k)
    ensures HoldsAutoEntries(after, formula, deps[..i + 1])
  {
    forall k
      ensures Get(after, k) == AutoEntry(formula, deps[..i + 1], k)
    {
      AutoEntryLocalStep(formula, deps, i, k);
    }
  }

  /** `m` holds exactly the automatic entries for the dependencies `deps`. */
  ghost predicate HoldsAutoEntries(m: TranslationMap, formula: string, deps: seq<string>)
  {
    forall k :: Get(m, k) == AutoEntry(formula, deps, k)
  }

  /**
   * The automatic map has distinct keys and holds exactly the entries
   * `AutoEntry` describes.
   */
  lemma {:induction false} AutoMappingGet(formula: string, deps: seq<string>)
    ensures DistinctKeys(AutoMappingOf(formula, deps))
    ensures HoldsAutoEntries(AutoMappingOf(formula, deps), formula, deps)
  {
    if deps == [] {
      forall k ensures Get(AutoMappingOf(formula, deps), k) == AutoEntry(formula, deps, k) {
      }
    } else {
      var i := |deps| - 1;
      var before := AutoMappingOf(formula, deps[..i]);
      var after := AutoMappingOf(formula, deps);
      AutoMappingGet(formula, deps[..i]);
      if HasChar(deps[i], '!') {
        var (sheet, name) := SplitAtBang(deps[i]);
        forall k
          ensures Get(after, k)
                  == if HasChar(k, '!') && SplitAtBang(k).0 == sheet && SplitAtBang(k).1 in SheetColumnLetters(formula, sheet)
                     then Some(name) else Get(before, k)
        {
          PutSheetColumnsGet(before, sheet, SheetColumnLetters(formula, sheet), name, k);
        }
        PutSheetColumnsGet(before, sheet, SheetColumnLetters(formula, sheet), name, "");
        AutoMappingSheetStep(formula, deps, i, sheet, name, before, after);
      } else {
        forall k
          ensures Get(after, k)
                  == if k in LocalColumnLetters(formula) && Get(before, k).None? then Some(deps[i]) else Get(before, k)
        {
          PutLocalColumnsGet(before, LocalColumnLetters(formula), deps[i], k);
        }
        PutLocalColumnsGet(before, LocalColumnLetters(formula), deps[i], "");
        AutoMappingLocalStep(formula, deps, i, before, after);
      }
      assert deps[..i + 1] == deps;
    }
  }

  /** The inner loop for a "Sheet!Name" dependency. */
  method PutSheetColumns(mapping: TranslationMap, sheet: string, cols: seq<string>, name: string)
    returns (r: TranslationMap)
    ensures r == PutSheetColumnsOf(mapping, sheet, cols, name)
  {
    r := mapping;
    for j := 0 to |cols|
      invariant r == PutSheetColumnsOf(mapping, sheet, cols[..j], name)
    {
      assert cols[..j + 1][..j] == cols[..j];
      r := Put(r, sheet + "!" + cols[j], name);
    }
    assert cols[..|cols|] == cols;
  }

  /** The inner loop for a local dependency. */
  method PutLocalColumns(mapping: TranslationMap, cols: seq<string>, dep: string) returns (r: TranslationMap)
    ensures r == PutLocalColumnsOf(mapping, cols, dep)
  {
    r := mapping;
    for j := 0 to |cols|
      invariant r == PutLocalColumnsOf(mapping, cols[..j], dep)
    {
      assert cols[..j + 1][..j] == cols[..j];
      if !HasKey(r, cols[j]) {
        r := Put(r, cols[j], dep);
      }
    }
    assert cols[..|cols|] == cols;
  }

  /** One pass of the outer loop. */
  method AutoMappingStep(formula: string, dep: string, mapping: TranslationMap) returns (r: TranslationMap)
    ensures r == AutoStepOf(formula, mapping, dep)
  {
    var b := FindChar(dep, '!');
    if b >= 0 {
      var sheet := dep[..b];
      var name := dep[b + 1..];
      assert (sheet, name) == SplitAtBang(dep);
      r := PutSheetColumns(mapping, sheet, SheetColumnLetters(formula, sheet), name);
    } else {
      r := PutLocalColumns(mapping, LocalColumnLetters(formula), dep);
    }
  }

  /**
   * `_create_auto_mapping`: for each dependency in order, a "Sheet!Name"
   * dependency maps every "Sheet!COL" the formula references to Name
   * (overwriting), and a local one maps every locally referenced column
   * not yet mapped to itself.
   */
  method CreateAutoMapping(formula: string, deps: seq<string>) returns (mapping: TranslationMap)
    ensures mapping == AutoMappingOf(formula, deps)
    ensures DistinctKeys(mapping)
    ensures forall k :: Get(mapping, k) == AutoEntry(formula, deps, k)
  {
    mapping := [];
    for i := 0 to |deps|
      invariant mapping == AutoMappingOf(formula, deps[..i])
    {
      assert deps[..i + 1][..i] == deps[..i];
      mapping := AutoMappingStep(formula, deps[i], mapping);
    }
    assert deps[..|deps|] == deps;
    AutoMappingGet(formula, deps);
  }

  // ---------------------------------------------------------------------
  // _translate_formula_auto

  /** Longer keys first; keys of equal length keep their dict order. */
  function LongestFirst(keys: seq<string>): (r: seq<string>)
    ensures multiset(r) == multiset(keys)
    ensures forall i, j :: 0 <= i < j < |r| ==> |r[i]| >= |r[j]|
  {
    var r := SortBy(keys, (k: string) => -(|k| as real));
    SortBySorted(keys, (k: string) => -(|k| as real));
    r
  }

  /** The reference pattern for a key: "Sheet!COL" as written, a bare column only where no letter or '!' precedes. */
  function KeyPattern(key: string): Pattern
  {
    KeyRow(key, !HasChar(key, '!'))
  }

  /** Substitute each key in turn: every `<key><row>` becomes the key's value. */
  function SubstituteKeys(t: string, m: TranslationMap, keys: seq<string>): string
    decreases |keys|
  {
    if keys == [] then t
    else SubstituteKeys(Sub(KeyPattern(keys[0]), t, h => GetOr(m, keys[0], "")), m, keys[1..])
  }

  /**
   * `_translate_formula_auto`: visit the keys longest first, and replace every
   * reference `<key><row>` in the current text by the key's value.
   */
  method TranslateFormulaAuto(formula: string, m: TranslationMap) returns (translated: string)
    ensures translated == SubstituteKeys(formula, m, LongestFirst(Keys(m)))
  {
    var sortedKeys := LongestFirst(Keys(m));
    translated := formula;
    var i := 0;
    while i < |sortedKeys|
      invariant 0 <= i <= |sortedKeys|
      invariant SubstituteKeys(translated, m, sortedKeys[i..]) == SubstituteKeys(formula, m, sortedKeys)
    {
      var key := sortedKeys[i];
      assert key in multiset(Keys(m));
      var value := Get(m, key).value;
      assert sortedKeys[i..][1..] == sortedKeys[i + 1..];
      translated := Sub(KeyPattern(key), translated, h => value);
      i := i + 1;
    }
  }

  /** A key that occurs nowhere in the text with a row after it leaves the text as it is. */
  lemma SubstituteAbsentKey(t: string, key: string, v: string)
    requires forall i :: 0 <= i < |t| ==> MatchAt(KeyPattern(key), t, i).None?
    ensures Sub(KeyPattern(key), t, h => v) == t
  {
    SubFromNoMatch(KeyPattern(key), t, h => v, 0);
  }

  /**
   * One step of the loop: the text is rebuilt with every `<key><digits>`
   * reference the left-to-right scan finds replaced by the value.
   */
  lemma SubstituteKeyStep(t: string, key: string, v: string)
    ensures Sub(KeyPattern(key), t, h => v) == Rebuild(t, ToEdits(FindAll(KeyPattern(key), t, 0), h => v), 0)
    ensures var hs := FindAll(KeyPattern(key), t, 0);
            forall k :: 0 <= k < |hs| ==>
              |hs[k].groups| == 1 && t[hs[k].start..hs[k].end] == key + hs[k].groups[0] && AllDigits(hs[k].groups[0])
  {
    var p := KeyPattern(key);
    var hs := FindAll(p, t, 0);
    SubFromRebuild(p, t, h => v, 0);
    forall k | 0 <= k < |hs|
      ensures |hs[k].groups| == 1 && t[hs[k].start..hs[k].end] == key + hs[k].groups[0] && AllDigits(hs[k].groups[0])
    {
      FoundAt(p, t, 0, hs[k]);
      KeyRowMatch(key, !HasChar(key, '!'), t, hs[k].start);
    }
  }

  /** The scan of a step misses no `<key><digits>` reference that none of its matches overlaps. */
  lemma SubstituteKeyComplete(t: string, key: string, x: nat)
    requires x < |t| && MatchAt(KeyPattern(key), t, x).Some?
    requires forall h :: h in FindAll(KeyPattern(key), t, 0) ==> h.end <= x || x <= h.start
    ensures MatchAt(KeyPattern(key), t, x).value in FindAll(KeyPattern(key), t, 0)
  {
    FindAllComplete(KeyPattern(key), t, 0, x);
  }

  /**
   * A key that is not empty and holds no digit: every column-letter key, and a
   * "Sheet!COL" key whose sheet name has no digit. A sheet key keeps the digits
   * of its sheet name, so an automatic map can also hold keys outside this case
   * (see DigitKeysOverlap).
   */
  predicate DigitFreeKey(k: string)
  {
    k != [] && forall q :: 0 <= q < |k| ==> !IsDigit(k[q])
  }

  /**
   * Why the keys go longest first: when the references of two keys overlap,
   * the one starting later is a suffix of the other and ends where it ends,
   * so the shorter key would replace part of the longer one's reference.
   * This holds for digit-free keys only.
   */
  lemma KeysOverlapSuffix(k1: string, k2: string, s: string, i: nat, j: nat)
    requires DigitFreeKey(k1) && DigitFreeKey(k2)
    requires i <= j <= |s|
    requires MatchAt(KeyPattern(k1), s, i).Some? && MatchAt(KeyPattern(k2), s, j).Some?
    requires j < MatchAt(KeyPattern(k1), s, i).value.end
    ensures j + |k2| == i + |k1| && k2 == k1[j - i..]
  {
    KeyReference(k1, s, i);
    KeyReference(k2, s, j);
    var a1, e2 := i + |k1|, j + |k2|;
    assert !IsDigit(s[j]);
    assert j < a1;
    assert IsDigit(s[e2]) && IsDigit(s[a1]);
    assert e2 == a1;
  }

  /**
   * Keys with digits overlap without ending together. The formula
   * "=DADOS1!A5" gives the local key "DADOS" (the local pattern reads "DADOS1")
   * and the sheet key "DADOS1!A"; both match at offset 1 and end at 7 and 10.
   */
  lemma DigitKeysOverlap()
    ensures MatchAt(KeyPattern("DADOS"), "=DADOS1!A5", 1) == Some(Hit(1, 7, ["1"]))
    ensures MatchAt(KeyPattern("DADOS1!A"), "=DADOS1!A5", 1) == Some(Hit(1, 10, ["5"]))
  {
    var s := "=DADOS1!A5";
    assert !HasChar("DADOS", '!');
    var k := "DADOS1!A";
    assert k[6] == '!';
    assert HasChar(k, '!');
    assert StartsWith(s[1..], "DADOS") && StartsWith(s[1..], "DADOS1!A");
    RunEndAt(s, 6, 7, IsDigit);
    RunEndAt(s, 9, 10, IsDigit);
    assert MatchAt(KeyPattern("DADOS"), s, 1) == KeyRowAt("DADOS", true, s, 1);
    assert MatchAt(KeyPattern("DADOS1!A"), s, 1) == KeyRowAt("DADOS1!A", false, s, 1);
    assert s[6..7] == "1" && s[9..10] == "5";
  }

  /** Where a key's reference starts: the key's characters, then at least one digit, then digits to the end of the match. */
  lemma KeyReference(k: string, s: string, i: nat)
    requires DigitFreeKey(k) && i <= |s|
    requires MatchAt(KeyPattern(k), s, i).Some?
    ensures i + |k| < |s| && IsDigit(s[i + |k|])
    ensures forall q :: i <= q < i + |k| ==> s[q] == k[q - i] && !IsDigit(s[q])
    ensures forall q :: i + |k| <= q < MatchAt(KeyPattern(k), s, i).value.end ==> IsDigit(s[q])
  {
    KeyRowMatch(k, !HasChar(k, '!'), s, i);
    assert s[i..][..|k|] == k;
  }

  /**
   * Column-letter keys are guarded by `(?<![A-Z!])`, so the references of
   * two local keys never overlap unless they are the same reference: the
   * order matters only for keys with a sheet.
   */
  lemma LocalKeysDisjoint(k1: string, k2: string, s: string, i: nat, j: nat)
    requires AllUpper(k1) && AllUpper(k2)
    requires i <= j <= |s|
    requires MatchAt(KeyPattern(k1), s, i).Some? && MatchAt(KeyPattern(k2), s, j).Some?
    requires j < MatchAt(KeyPattern(k1), s, i).value.end
    ensures i == j && k1 == k2
  {
    UpperHasNoBang(k2);
    KeysOverlapSuffix(k1, k2, s, i, j);
    KeyRowMatch(k2, true, s, j);
    KeyReference(k1, s, i);
    assert j == 0 || !IsUpper(s[j - 1]);
    assert forall q :: i <= q < i + |k1| ==> IsUpper(s[q]);
    assert i == j;
    assert k1[0..] == k1;
  }

  /** A text without digits holds no reference of any key. */
  lemma DigitFreeNoReference(key: string, t: string)
    requires forall q :: 0 <= q < |t| ==> !IsDigit(t[q])
    ensures forall i :: 0 <= i < |t| ==> MatchAt(KeyPattern(key), t, i).None?
  {
    forall i | 0 <= i < |t| ensures MatchAt(KeyPattern(key), t, i).None? {
      KeyRowMatch(key, !HasChar(key, '!'), t, i);
    }
  }

  /** A key with a sheet followed by digits up to the end of the text matches there and runs to the end. */
  lemma KeyToEnd(key: string, s: string, i: nat)
    requires i + |key| < |s| && s[i..i + |key|] == key
    requires forall q :: i + |key| <= q < |s| ==> IsDigit(s[q])
    ensures MatchAt(KeyRow(key, false), s, i).Some? && MatchAt(KeyRow(key, false), s, i).value.end == |s|
  {
    assert s[i..][..|key|] == s[i..i + |key|];
    KeyRowMatch(key, false, s, i);
    RunEndAt(s, i + |key|, |s|, IsDigit);
  }

  /** A key whose `n`-th character is '!' cannot match where the text has no '!' `n` places on. */
  lemma BangMisplaced(key: string, s: string, i: nat, n: nat)
    requires n < |key| && key[n] == '!'
    requires i + n < |s| && s[i + n] != '!'
    ensures MatchAt(KeyRow(key, false), s, i).None?
  {
    KeyRowMatch(key, false, s, i);
  }

  /** In `<outer><inner>!<col><row>`, the sheet key `<inner>!<col>` matches once, from the end of `<outer>` to the end. */
  lemma ShortKeyReplacesTail(outer: string, inner: string, col: string, row: string, f: Hit -> string, v: string)
    requires AllAlpha(outer) && AllAlpha(inner) && AllUpper(col) && AllDigits(row)
    requires forall h :: f(h) == v
    ensures Sub(KeyPattern(inner + "!" + col), outer + inner + "!" + col + row, f) == outer + v
  {
    var short := inner + "!" + col;
    var t := outer + inner + "!" + col + row;
    var p := KeyPattern(short);
    assert short[|inner|] == '!';
    assert p == KeyRow(short, false);
    assert forall q :: 0 <= q < |outer| ==> t[q] == outer[q];
    assert forall q :: |outer| <= q < |outer| + |inner| ==> t[q] == inner[q - |outer|];
    forall i | 0 <= i < |outer| ensures MatchAt(p, t, i).None? {
      BangMisplaced(short, t, i, |inner|);
    }
    assert t[|outer|..|outer| + |short|] == short;
    assert forall q :: |outer| + |short| <= q < |t| ==> t[q] == row[q - |outer| - |short|];
    KeyToEnd(short, t, |outer|);
    var h := MatchAt(p, t, |outer|).value;
    SubFromGap(p, t, f, 0, |outer|);
    SubFromHit(p, t, f, |outer|, h);
    SubFromNoMatch(p, t, f, |t|);
    assert t[0..|outer|] == outer;
  }

  /** A key with a sheet followed by digits to the end of the text is replaced as a whole. */
  lemma WholeKeyReplaced(key: string, row: string, f: Hit -> string, v: string)
    requires HasChar(key, '!') && AllDigits(row)
    requires forall h :: f(h) == v
    ensures Sub(KeyPattern(key), key + row, f) == v
  {
    var t := key + row;
    assert t[0..|key|] == key;
    assert forall q :: |key| <= q < |t| ==> t[q] == row[q - |key|];
    KeyToEnd(key, t, 0);
    var h := MatchAt(KeyPattern(key), t, 0).value;
    SubFromHit(KeyPattern(key), t, f, 0, h);
    SubFromNoMatch(KeyPattern(key), t, f, |t|);
  }

  /** Two keys of different lengths are visited longer first. */
  lemma LongestFirstTwo(short: string, long: string)
    requires |long| > |short|
    ensures LongestFirst([short, long]) == [long, short]
  {
    var sorted := LongestFirst([short, long]);
    assert |multiset(sorted)| == 2;
    assert sorted[0] in multiset(sorted) && sorted[1] in multiset(sorted);
  }

  /** The map of the example below: the sheet key `<inner>!<col>` first, then `<outer><inner>!<col>`. */
  function PartialMap(outer: string, inner: string, col: string, v1: string, v2: string): (m: TranslationMap)
    requires AllAlpha(outer)
    ensures Keys(m) == [inner + "!" + col, outer + inner + "!" + col]
    ensures GetOr(m, inner + "!" + col, "") == v1 && GetOr(m, outer + inner + "!" + col, "") == v2
  {
    var short, long := inner + "!" + col, outer + inner + "!" + col;
    var m := [(short, v1), (long, v2)];
    assert |long| > |short|;
    assert m[1..] == [(long, v2)];
    assert Get(m, long) == Get(m[1..], long) == Some(v2);
    m
  }

  /** In dict order, the sheet key replaces the end of the longer reference and `<outer>` is left over. */
  lemma DictOrderLeavesOuter(outer: string, inner: string, col: string, row: string, v1: string, v2: string)
    requires AllAlpha(outer) && AllAlpha(inner) && AllUpper(col) && AllDigits(row)
    requires forall q :: 0 <= q < |v1| ==> !IsDigit(v1[q])
    ensures var long := outer + inner + "!" + col;
            SubstituteKeys(long + row, PartialMap(outer, inner, col, v1, v2), [inner + "!" + col, long]) == outer + v1
  {
    var short, long := inner + "!" + col, outer + inner + "!" + col;
    var m := PartialMap(outer, inner, col, v1, v2);
    assert long + row == outer + inner + "!" + col + row;
    ShortKeyReplacesTail(outer, inner, col, row, h => GetOr(m, short, ""), v1);
    var t := outer + v1;
    assert forall q :: 0 <= q < |t| ==> !IsDigit(t[q]);
    DigitFreeNoReference(long, t);
    SubFromNoMatch(KeyPattern(long), t, h => GetOr(m, long, ""), 0);
    assert [short, long][1..] == [long] && [long][1..] == [];
    assert Sub(KeyPattern(short), long + row, h => GetOr(m, short, "")) == t;
    assert SubstituteKeys(t, m, [long]) == SubstituteKeys(t, m, []);
    assert SubstituteKeys(long + row, m, [short, long]) == SubstituteKeys(t, m, [long]);
  }

  /** Longest first, the whole reference becomes the longer key's value, which the sheet key then cannot touch. */
  lemma LongestFirstWhole(outer: string, inner: string, col: string, row: string, v1: string, v2: string)
    requires AllAlpha(outer) && AllAlpha(inner) && AllUpper(col) && AllDigits(row)
    requires forall q :: 0 <= q < |v2| ==> !IsDigit(v2[q])
    ensures var long := outer + inner + "!" + col;
            SubstituteKeys(long + row, PartialMap(outer, inner, col, v1, v2), [long, inner + "!" + col]) == v2
  {
    var short, long := inner + "!" + col, outer + inner + "!" + col;
    var m := PartialMap(outer, inner, col, v1, v2);
    assert long[|outer| + |inner|] == '!';
    WholeKeyReplaced(long, row, h => GetOr(m, long, ""), v2);
    DigitFreeNoReference(short, v2);
    SubFromNoMatch(KeyPattern(short), v2, h => GetOr(m, short, ""), 0);
    assert [long, short][1..] == [short] && [short][1..] == [];
    assert SubstituteKeys(v2, m, [short]) == SubstituteKeys(v2, m, []);
    assert SubstituteKeys(long + row, m, [long, short]) == SubstituteKeys(v2, m, [short]);
  }

  /**
   * A formula `<outer><inner>!<col><row>` and a map holding the sheet key
   * `<inner>!<col>` before the longer `<outer><inner>!<col>`: in dict order the
   * shorter key replaces the end of the reference and `<outer>` is left
   * over, while longest first the whole reference becomes the longer key's
   * value (values without digits).
   */
  lemma LongestFirstAvoidsPartial(outer: string, inner: string, col: string, row: string, v1: string, v2: string)
    requires AllAlpha(outer) && AllAlpha(inner) && AllUpper(col) && AllDigits(row)
    requires forall q :: 0 <= q < |v1| ==> !IsDigit(v1[q])
    requires forall q :: 0 <= q < |v2| ==> !IsDigit(v2[q])
    ensures var long := outer + inner + "!" + col;
            var m := PartialMap(outer, inner, col, v1, v2);
            SubstituteKeys(long + row, m, Keys(m)) == outer + v1
            && SubstituteKeys(long + row, m, LongestFirst(Keys(m))) == v2
  {
    DictOrderLeavesOuter(outer, inner, col, row, v1, v2);
    LongestFirstTwo(inner + "!" + col, outer + inner + "!" + col);
    LongestFirstWhole(outer, inner, col, row, v1, v2);
  }

  // ---------------------------------------------------------------------
  // _extract_dependencies_from_translated

  /** Names that look like columns but are the spreadsheet functions the source filters out. */
  predicate IsExcelFunction(w: string) {
    w in {"IF", "SUM", "SUMIF", "VLOOKUP", "AVERAGEIF", "AND", "OR", "NOT"}
  }

  function DropFunctions(ws: seq<string>): (r: seq<string>)
    ensures forall x :: x in r <==> x in ws && !IsExcelFunction(x)
  {
    if ws == [] then []
    else (if IsExcelFunction(ws[0]) then [] else [ws[0]]) + DropFunctions(ws[1..])
  }

  /** A header-like name: two or more of [A-Z_], first and last a letter. */
  predicate IsHeaderName(w: string) {
    |w| >= 2 && IsUpper(w[0]) && IsUpper(w[|w| - 1])
    && forall k :: 0 <= k < |w| ==> IsUpperOrUnderscore(w[k])
  }

  /** `_extract_dependencies_from_translated`: the distinct header-like names, functions excluded. */
  function DependenciesFromTranslated(t: string): (r: seq<string>)
    ensures NoDup(r)
    ensures forall x :: x in r <==> x in Groups(FindAll(UpperName, t, 0), 0) && !IsExcelFunction(x)
  {
    Dedup(DropFunctions(Groups(FindAll(UpperName, t, 0), 0)))
  }

  /** Every name the scan finds is header-like. */
  lemma UpperNamesAreNames(t: string, x: string)
    requires x in Groups(FindAll(UpperName, t, 0), 0)
    ensures IsHeaderName(x)
  {
    var hs := FindAll(UpperName, t, 0);
    GroupFound(hs, 0, x);
    var h :| h in hs && Group(h, 0) == x;
    UpperNameFound(t, h);
  }

  lemma UpperNameFound(t: string, h: Hit)
    requires h in FindAll(UpperName, t, 0)
    ensures IsHeaderName(Group(h, 0))
  {
    FoundAt(UpperName, t, 0, h);
    assert UpperNameAt(t, h.start) == Some(h);
  }

  /** What the dependency scan lists are header-like names that are not functions. */
  lemma DependenciesAreNames(t: string, x: string)
    requires x in DependenciesFromTranslated(t)
    ensures IsHeaderName(x) && !IsExcelFunction(x)
  {
    UpperNamesAreNames(t, x);
  }

  // ---------------------------------------------------------------------
  // extract_and_translate, _extract_auto_discovery

  /** The extractor `extract_and_translate` hands a configuration to. */
  datatype ExtractorKind = AutoDiscoveryExtractor | MultiSheetExtractor | SingleSheetExtractor

  /** The dispatch on the configuration's "tipo": anything but the two named kinds, or none, is a single sheet. */
  function ExtractorFor(tipo: Option<string>): (e: ExtractorKind)
    ensures e == AutoDiscoveryExtractor <==> tipo == Some("auto_discovery")
    ensures e == MultiSheetExtractor <==> tipo == Some("multi_abas")
    ensures e == SingleSheetExtractor <==> tipo != Some("auto_discovery") && tipo != Some("multi_abas")
  {
    if tipo == Some("auto_discovery") then AutoDiscoveryExtractor
    else if tipo == Some("multi_abas") then MultiSheetExtractor
    else SingleSheetExtractor
  }

  /** The map a discovered formula is translated with: its own, or an automatic one when that is empty. */
  function DiscoveredMapping(d: FAD.Discovered): TranslationMap
  {
    if d.mapping != [] then d.mapping else AutoMappingOf(d.formulaOriginal, d.dependencies)
  }

  /** `openpyxl.utils.column_index_from_string` raises this for letters that name no column. */
  function InvalidColumnMessage(column: string): string
  {
    column + " is not a valid column name"
  }

  /** The entry made for one discovered formula, or the error its column letters raise. */
  function DiscoveredInfo(d: FAD.Discovered): Result<FormulaInfo, string>
  {
    var mapping := DiscoveredMapping(d);
    var translated := MultiSheetText(d.formulaOriginal, mapping);
    match ColumnIndex(d.column)
    case None => Err(InvalidColumnMessage(d.column))
    case Some(idx) =>
      Ok(FormulaInfo(d.formulaOriginal, translated, Some(d.sheet), Some(d.column), idx, mapping,
                     d.sheetReferences, DependenciesFromTranslated(translated), true))
  }

  /** The loop over the discovered formulas: each stored under its key, the first error raised. */
  function TranslateAllOf(ds: Dict<string, FAD.Discovered>): Result<Dict<string, FormulaInfo>, string>
  {
    MapValues(DiscoveredInfo, ds)
  }

  /** What `_extract_auto_discovery` returns for the discovered formulas `found`. */
  function ExtractAutoOf(found: Dict<string, FAD.Discovered>): Result<Dict<string, FormulaInfo>, string>
  {
    match TranslateAllOf(found)
    case Err(e) => Err(e)
    case Ok(all) => Ok(AnalysedOf(all))
  }

  /** The body of the loop over the discovered formulas, for one of them. */
  method TranslateDiscovered(d: FAD.Discovered) returns (r: Result<FormulaInfo, string>)
    ensures r == DiscoveredInfo(d)
  {
    var mapping := d.mapping;
    if mapping == [] {
      mapping := CreateAutoMapping(d.formulaOriginal, d.dependencies);
    }
    var translated := TranslateFormulaMultiSheet(d.formulaOriginal, mapping);
    var idx := ColumnIndex(d.column);
    if idx.None? {
      return Err(InvalidColumnMessage(d.column));
    }
    r := Ok(FormulaInfo(d.formulaOriginal, translated, Some(d.sheet), Some(d.column), idx.value, mapping,
                        d.sheetReferences, DependenciesFromTranslated(translated), true));
  }

  /** The loop of `_extract_auto_discovery` over the discovered formulas. */
  method TranslateAllDiscovered(discovered: Dict<string, FAD.Discovered>)
    returns (r: Result<Dict<string, FormulaInfo>, string>)
    ensures r == TranslateAllOf(discovered)
  {
    var all: Dict<string, FormulaInfo> := [];
    for i := 0 to |discovered|
      invariant TranslateAllOf(discovered[..i]) == Ok(all)
    {
      assert discovered[..i + 1][..i] == discovered[..i];
      var info := TranslateDiscovered(discovered[i].1);
      if info.Err? {
        MapValuesErrorStops(DiscoveredInfo, discovered, i + 1);
        return Err(info.error);
      }
      all := Put(all, discovered[i].0, info.value);
    }
    assert discovered[..|discovered|] == discovered;
    r := Ok(all);
  }

  /**
   * `_extract_auto_discovery` on a workbook (not lightweight): discover the
   * formulas of every sheet, translate each, then analyse the dependencies
   * between them.
   */
  method ExtractAutoDiscovery(wb: FAD.Workbook, active: nat) returns (r: Result<Dict<string, FormulaInfo>, string>)
    requires active < |wb|
    ensures r == ExtractAutoOf(FAD.Merge(FAD.SheetResults(wb, active, |wb|)))
  {
    var discovered := FAD.DiscoverAllSheets(wb, active);
    var translated := TranslateAllDiscovered(discovered);
    if translated.Err? {
      return Err(translated.error);
    }
    var analysed := AnalyzeFormulaDependencies(translated.value);
    r := Ok(analysed);
  }

  /**
   * One discovered formula raises exactly when its column letters name no
   * column; otherwise it is translated with its own map, or, when that is
   * empty, with a map holding exactly the automatic entries, and its column
   * index spells its letters back.
   */
  lemma DiscoveredInfoMeaning(d: FAD.Discovered)
    ensures DiscoveredInfo(d).Err? <==> ColumnIndex(d.column).None?
    ensures DiscoveredInfo(d).Err? ==> DiscoveredInfo(d).error == InvalidColumnMessage(d.column)
    ensures DiscoveredInfo(d).Ok? ==>
              var info := DiscoveredInfo(d).value;
              && info.original == d.formulaOriginal
              && info.translated == MultiSheetText(d.formulaOriginal, info.mapping)
              && (d.mapping != [] ==> info.mapping == d.mapping)
              && (d.mapping == [] ==>
                    DistinctKeys(info.mapping) && HoldsAutoEntries(info.mapping, d.formulaOriginal, d.dependencies))
              && ColumnLetters(info.columnIndex) == UpperStr(d.column)
  {
    if d.mapping == [] {
      AutoMappingGet(d.formulaOriginal, d.dependencies);
    }
    if ColumnIndex(d.column).Some? {
      LettersOfValue(UpperStr(d.column));
    }
  }

  /**
   * An entry of the extraction is its formula's own entry with `depends_on`
   * replaced by the other formula keys whose names its translation mentions,
   * each once.
   */
  lemma ExtractAutoEntry(found: Dict<string, FAD.Discovered>, i: nat)
    requires DistinctKeys(found) && ExtractAutoOf(found).Ok? && i < |found|
    ensures |ExtractAutoOf(found).value| == |found|
    ensures var e := ExtractAutoOf(found).value[i];
            && e.0 == found[i].0
            && DiscoveredInfo(found[i].1).Ok?
            && e.1 == DiscoveredInfo(found[i].1).value.(dependsOn := e.1.dependsOn)
            && NoDup(e.1.dependsOn)
            && forall x :: x in e.1.dependsOn <==> x in Keys(found) && x != found[i].0 && Contains(e.1.translated, ShortName(x))
  {
    MapValuesEntries(DiscoveredInfo, found);
    var all := TranslateAllOf(found).value;
    assert Keys(all)[i] == Keys(found)[i];
    DependsOnForNoDup(Keys(found), found[i].0, all[i].1.translated);
  }

  /**
   * `_extract_auto_discovery` never raises on what `discover_all_sheets`
   * finds: every discovered column is one of the first 300.
   */
  lemma AutoDiscoveryNeverFails(wb: FAD.Workbook, active: nat)
    requires active < |wb|
    ensures ExtractAutoOf(FAD.Merge(FAD.SheetResults(wb, active, |wb|))).Ok?
  {
    var found := FAD.Merge(FAD.SheetResults(wb, active, |wb|));
    FAD.AllSheetsLastWins(wb, active, "");
    MapValuesEntries(DiscoveredInfo, found);
    forall i | 0 <= i < |found| ensures DiscoveredInfo(found[i].1).Ok? {
      FAD.AllSheetsColumns(wb, active, found[i]);
      var idx :| 1 <= idx <= FAD.MaxCols && found[i].1.column == ColumnLetters(idx);
      IndexOfLetters(idx);
      DiscoveredInfoMeaning(found[i].1);
    }
  }
}
