/**
 * The workbook side of the cross-sheet analyser: the pass over every
 * formula of every sheet that collects each sheet's references to other
 * sheets and the map from a target sheet to the sheets that reference it,
 * and the check of those references against another workbook.
 */
module CrossSheetWorkbook {
  import opened Wrappers
  import opened Text
  import opened Assoc
  import opened CrossSheetRefs

  /** A sheet as read from the workbook: cell values and cell formulas by cell reference. */
  datatype SheetData = SheetData(cells: Dict<string, string>, formulas: Dict<string, string>)

  /**
   * The analysis result: each sheet's data, each sheet's outgoing references
   * (only for sheets that have some) and, for each referenced sheet, the
   * sheets whose formulas reference it, each once.
   */
  datatype WorkbookData = WorkbookData(sheets: Dict<string, SheetData>,
                                       crossReferences: Dict<string, seq<CrossRef>>,
                                       dependencies: Dict<string, seq<string>>)

  /** The formula scan the pass applies to each formula and its sheet. */
  type Extractor = (string, string) -> seq<CrossRef>

  /** `_extract_cross_references`. */
  const Extract: Extractor := (formula, sheet) => CrossReferences(formula, sheet)

  /** Every reference the scan returns has the scanned sheet as source and another sheet as target. */
  ghost predicate SoundExtractor(x: Extractor) {
    forall formula, sheet, r :: r in x(formula, sheet) ==> r.sourceSheet == sheet && r.targetSheet != sheet
  }

  lemma ExtractSound()
    ensures SoundExtractor(Extract)
  {
    forall formula, sheet, r | r in Extract(formula, sheet)
      ensures r.sourceSheet == sheet && r.targetSheet != sheet
    {
      CrossReferencesSound(formula, sheet, |CrossPatterns|, r);
    }
  }

  /** Some reference of `refs` targets sheet `t`. */
  predicate Targets(refs: seq<CrossRef>, t: string) {
    exists r :: r in refs && r.targetSheet == t
  }

  lemma TargetsAppend(a: seq<CrossRef>, b: seq<CrossRef>, t: string)
    ensures Targets(a + b, t) <==> Targets(a, t) || Targets(b, t)
  {
    if Targets(a + b, t) {
      var r :| r in a + b && r.targetSheet == t;
      assert r in a || r in b;
    }
    if Targets(a, t) {
      var r :| r in a && r.targetSheet == t;
      assert r in a + b;
    }
    if Targets(b, t) {
      var r :| r in b && r.targetSheet == t;
      assert r in a + b;
    }
  }

  // ---------------------------------------------------------------------
  // analyze_workbook_native: the pass over the formulas

  /** `dependencies[target].add(source)` on a defaultdict of sets kept in insertion order. */
  function WithDependency(deps: Dict<string, seq<string>>, target: string, source: string): Dict<string, seq<string>>
  {
    var members := GetOr(deps, target, []);
    Put(deps, target, if source in members then members else members + [source])
  }

  /** `source` recorded as depending on the target of each of `refs`, in order. */
  function DepsAfter(deps: Dict<string, seq<string>>, refs: seq<CrossRef>, source: string): Dict<string, seq<string>>
  {
    if refs == [] then deps
    else WithDependency(DepsAfter(deps, refs[..|refs| - 1], source), refs[|refs| - 1].targetSheet, source)
  }

  /** One formula of sheet `name`: its references extend the sheet's list and make `name` a dependant of each target. */
  function FormulaStep(x: Extractor, wb: WorkbookData, name: string, formula: string): WorkbookData
  {
    var refs := x(formula, name);
    if refs == [] then wb
    else WorkbookData(wb.sheets,
                      Put(wb.crossReferences, name, GetOr(wb.crossReferences, name, []) + refs),
                      DepsAfter(wb.dependencies, refs, name))
  }

  /** Every formula of sheet `name`, in order. */
  function FormulasStep(x: Extractor, wb: WorkbookData, name: string, formulas: Dict<string, string>): WorkbookData
  {
    if formulas == [] then wb
    else FormulaStep(x, FormulasStep(x, wb, name, formulas[..|formulas| - 1]), name, formulas[|formulas| - 1].1)
  }

  /** The workbook data after every sheet, in order. */
  function Analyze(x: Extractor, sheets: Dict<string, SheetData>): WorkbookData
  {
    if sheets == [] then WorkbookData([], [], [])
    else
      var (name, data) := sheets[|sheets| - 1];
      var wb := Analyze(x, sheets[..|sheets| - 1]);
      FormulasStep(x, wb.(sheets := Put(wb.sheets, name, data)), name, data.formulas)
  }

  /** The loop of `analyze_workbook_native` over the sheets, once their XML has been read into `sheets`. */
  method AnalyzeWorkbook(sheets: Dict<string, SheetData>) returns (wb: WorkbookData)
    ensures wb == Analyze(Extract, sheets)
  {
    wb := WorkbookData([], [], []);
    for i := 0 to |sheets|
      invariant wb == Analyze(Extract, sheets[..i])
    {
      var (name, data) := sheets[i];
      assert sheets[..i + 1][..i] == sheets[..i];
      wb := wb.(sheets := Put(wb.sheets, name, data));
      wb := AnalyzeFormulas(wb, name, data.formulas);
    }
    assert sheets[..|sheets|] == sheets;
  }

  /** The loop over one sheet's formulas. */
  method AnalyzeFormulas(wb0: WorkbookData, name: string, formulas: Dict<string, string>) returns (wb: WorkbookData)
    ensures wb == FormulasStep(Extract, wb0, name, formulas)
  {
    wb := wb0;
    for j := 0 to |formulas|
      invariant wb == FormulasStep(Extract, wb0, name, formulas[..j])
    {
      var formula := formulas[j].1;
      assert formulas[..j + 1][..j] == formulas[..j];
      var refs := ExtractCrossReferences(formula, name);
      if refs != [] {
        var deps := AddDependencies(wb.dependencies, refs, name);
        var crossReferences := Put(wb.crossReferences, name, GetOr(wb.crossReferences, name, []) + refs);
        wb := WorkbookData(wb.sheets, crossReferences, deps);
      }
    }
    assert formulas[..|formulas|] == formulas;
  }

  /** The loop recording `source` as a dependant of each reference's target. */
  method AddDependencies(deps0: Dict<string, seq<string>>, refs: seq<CrossRef>, source: string)
    returns (deps: Dict<string, seq<string>>)
    ensures deps == DepsAfter(deps0, refs, source)
  {
    deps := deps0;
    for k := 0 to |refs|
      invariant deps == DepsAfter(deps0, refs[..k], source)
    {
      assert refs[..k + 1][..k] == refs[..k];
      var members := GetOr(deps, refs[k].targetSheet, []);
      if source !in members {
        members := members + [source];
      }
      deps := Put(deps, refs[k].targetSheet, members);
    }
    assert refs[..|refs|] == refs;
  }

  // ---------------------------------------------------------------------
  // What the pass computes

  /** The references of the formulas of sheet `name`, in order. */
  function SheetRefs(x: Extractor, name: string, formulas: Dict<string, string>): seq<CrossRef>
  {
    if formulas == [] then []
    else SheetRefs(x, name, formulas[..|formulas| - 1]) + x(formulas[|formulas| - 1].1, name)
  }

  /** A sheet's own references all have it as source and another sheet as target. */
  lemma {:induction false} SheetRefsSound(x: Extractor, name: string, formulas: Dict<string, string>, r: CrossRef)
    requires SoundExtractor(x) && r in SheetRefs(x, name, formulas)
    ensures r.sourceSheet == name && r.targetSheet != name
  {
    var init := formulas[..|formulas| - 1];
    if r in SheetRefs(x, name, init) {
      SheetRefsSound(x, name, init, r);
    }
  }

  /** Sheet `s` of `sheets` has a formula referencing sheet `t`. */
  predicate DependsOn(x: Extractor, sheets: Dict<string, SheetData>, t: string, s: string) {
    exists i :: 0 <= i < |sheets| && sheets[i].0 == s && Targets(SheetRefs(x, s, sheets[i].1.formulas), t)
  }

  lemma {:induction false} DepsAfterMembers(d: Dict<string, seq<string>>, refs: seq<CrossRef>, source: string,
                                            t: string, s: string)
    ensures s in GetOr(DepsAfter(d, refs, source), t, [])
            <==> s in GetOr(d, t, []) || (s == source && Targets(refs, t))
  {
    if refs != [] {
      var init, r := refs[..|refs| - 1], refs[|refs| - 1];
      var before := DepsAfter(d, init, source);
      var members := GetOr(before, r.targetSheet, []);
      DepsAfterMembers(d, init, source, t, s);
      GetOrPut(before, r.targetSheet, if source in members then members else members + [source], t, []);
      InitLast(refs);
      TargetsAppend(init, [r], t);
      assert Targets([r], t) <==> r.targetSheet == t by {
        assert r in [r];
      }
    }
  }

  lemma {:induction false} FormulasStepMembers(x: Extractor, wb: WorkbookData, name: string,
                                               formulas: Dict<string, string>, t: string, s: string)
    ensures s in GetOr(FormulasStep(x, wb, name, formulas).dependencies, t, [])
            <==> s in GetOr(wb.dependencies, t, []) || (s == name && Targets(SheetRefs(x, name, formulas), t))
  {
    if formulas != [] {
      var init := formulas[..|formulas| - 1];
      var refs := x(formulas[|formulas| - 1].1, name);
      var before := FormulasStep(x, wb, name, init);
      FormulasStepMembers(x, wb, name, init, t, s);
      TargetsAppend(SheetRefs(x, name, init), refs, t);
      if refs != [] {
        DepsAfterMembers(before.dependencies, refs, name, t, s);
      }
    }
  }

  lemma {:induction false} DependsOnSnoc(x: Extractor, sheets: Dict<string, SheetData>, t: string, s: string)
    requires sheets != []
    ensures DependsOn(x, sheets, t, s)
            <==> DependsOn(x, sheets[..|sheets| - 1], t, s)
                 || (sheets[|sheets| - 1].0 == s && Targets(SheetRefs(x, s, sheets[|sheets| - 1].1.formulas), t))
  {
    var n := |sheets| - 1;
    var init := sheets[..n];
    if DependsOn(x, sheets, t, s) {
      var i :| 0 <= i < |sheets| && sheets[i].0 == s && Targets(SheetRefs(x, s, sheets[i].1.formulas), t);
      if i < n {
        assert init[i] == sheets[i];
      }
    }
    if DependsOn(x, init, t, s) {
      var i :| 0 <= i < n && init[i].0 == s && Targets(SheetRefs(x, s, init[i].1.formulas), t);
      assert sheets[i] == init[i];
    }
  }

  lemma {:induction false} AnalyzeMembers(x: Extractor, sheets: Dict<string, SheetData>, t: string, s: string)
    ensures s in GetOr(Analyze(x, sheets).dependencies, t, []) <==> DependsOn(x, sheets, t, s)
  {
    if sheets != [] {
      var n := |sheets| - 1;
      var (name, data) := sheets[n];
      var wb := Analyze(x, sheets[..n]);
      AnalyzeMembers(x, sheets[..n], t, s);
      FormulasStepMembers(x, wb.(sheets := Put(wb.sheets, name, data)), name, data.formulas, t, s);
      DependsOnSnoc(x, sheets, t, s);
    }
  }

  /**
   * After the pass, sheet `s` is listed under sheet `t` exactly when some
   * formula of `s` references `t`; so no sheet is listed under itself.
   */
  lemma AnalyzeDependencies(sheets: Dict<string, SheetData>, t: string, s: string)
    ensures s in GetOr(Analyze(Extract, sheets).dependencies, t, []) <==> DependsOn(Extract, sheets, t, s)
    ensures t !in GetOr(Analyze(Extract, sheets).dependencies, t, [])
  {
    AnalyzeMembers(Extract, sheets, t, s);
    AnalyzeMembers(Extract, sheets, t, t);
    if DependsOn(Extract, sheets, t, t) {
      var i :| 0 <= i < |sheets| && sheets[i].0 == t && Targets(SheetRefs(Extract, t, sheets[i].1.formulas), t);
      var r :| r in SheetRefs(Extract, t, sheets[i].1.formulas) && r.targetSheet == t;
      ExtractSound();
      SheetRefsSound(Extract, t, sheets[i].1.formulas, r);
    }
  }

  /** The references of every entry of `sheets` named `n`, in order. */
  function RefsNamed(x: Extractor, sheets: Dict<string, SheetData>, n: string): seq<CrossRef>
  {
    if sheets == [] then []
    else
      var (name, data) := sheets[|sheets| - 1];
      RefsNamed(x, sheets[..|sheets| - 1], n) + (if name == n then SheetRefs(x, name, data.formulas) else [])
  }

  /** `cross_references.get(n)` is the list `refs`, and is absent when that list would be empty. */
  predicate ListedAs(crossReferences: Dict<string, seq<CrossRef>>, n: string, refs: seq<CrossRef>) {
    Get(crossReferences, n) == if refs == [] then None else Some(refs)
  }

  lemma {:induction false} FormulaStepRefs(x: Extractor, wb: WorkbookData, name: string, formula: string,
                                           n: string, refs: seq<CrossRef>)
    requires ListedAs(wb.crossReferences, n, refs)
    ensures ListedAs(FormulaStep(x, wb, name, formula).crossReferences, n,
                     refs + if n == name then x(formula, name) else [])
  {
    var more := x(formula, name);
    if more != [] {
      GetPutAny(wb.crossReferences, name, GetOr(wb.crossReferences, name, []) + more, n);
    }
    if n != name || more == [] {
      AppendEmpty(refs);
    }
  }

  lemma {:induction false} FormulasStepRefs(x: Extractor, wb: WorkbookData, name: string,
                                            formulas: Dict<string, string>, n: string, refs: seq<CrossRef>)
    requires ListedAs(wb.crossReferences, n, refs)
    ensures ListedAs(FormulasStep(x, wb, name, formulas).crossReferences, n,
                     refs + if n == name then SheetRefs(x, name, formulas) else [])
  {
    if formulas == [] {
      AppendEmpty(refs);
    } else {
      var init := formulas[..|formulas| - 1];
      var formula := formulas[|formulas| - 1].1;
      var listed := refs + if n == name then SheetRefs(x, name, init) else [];
      FormulasStepRefs(x, wb, name, init, n, refs);
      FormulaStepRefs(x, FormulasStep(x, wb, name, init), name, formula, n, listed);
      if n == name {
        AppendAssoc(refs, SheetRefs(x, name, init), x(formula, name));
      } else {
        AppendEmpty(refs);
      }
    }
  }

  lemma {:induction false} AnalyzeRefs(x: Extractor, sheets: Dict<string, SheetData>, n: string)
    ensures ListedAs(Analyze(x, sheets).crossReferences, n, RefsNamed(x, sheets, n))
  {
    if sheets != [] {
      var init := sheets[..|sheets| - 1];
      var (name, data) := sheets[|sheets| - 1];
      var wb := Analyze(x, init);
      AnalyzeRefs(x, init, n);
      FormulasStepRefs(x, wb.(sheets := Put(wb.sheets, name, data)), name, data.formulas, n, RefsNamed(x, init, n));
    }
  }

  /** After the pass, each sheet's entry lists all references of its formulas, and only sheets with some have one. */
  lemma AnalyzeCrossReferences(sheets: Dict<string, SheetData>, n: string)
    ensures ListedAs(Analyze(Extract, sheets).crossReferences, n, RefsNamed(Extract, sheets, n))
  {
    AnalyzeRefs(Extract, sheets, n);
  }

  // ---------------------------------------------------------------------
  // validate_cross_references

  /** One finding of the validation: a reference to a sheet or a cell the target workbook does not have. */
  datatype RefError = RefError(kind: string, sourceSheet: string, targetSheet: string, reference: string, formula: string)

  /**
   * The check of one reference listed under `sheet`: its sheet must exist in
   * the target workbook, and a reference without ':' must name a cell that
   * has a value there; ranges and columns are not looked up.
   */
  function RefCheck(sheet: string, ref: CrossRef, target: Dict<string, SheetData>): Option<RefError>
  {
    match Get(target, ref.targetSheet)
    case None => Some(RefError("missing_sheet", sheet, ref.targetSheet, ref.targetReference, ref.formula))
    case Some(data) =>
      if !HasChar(ref.targetReference, ':') && !HasKey(data.cells, ref.targetReference) then
        Some(RefError("missing_cell", sheet, ref.targetSheet, ref.targetReference, ref.formula))
      else None
  }

  /** The findings for the references `refs` listed under `sheet`, in order. */
  function RefErrors(sheet: string, refs: seq<CrossRef>, target: Dict<string, SheetData>): seq<RefError>
  {
    if refs == [] then []
    else
      RefErrors(sheet, refs[..|refs| - 1], target)
        + match RefCheck(sheet, refs[|refs| - 1], target) case Some(e) => [e] case None => []
  }

  /** The findings for every listed reference, sheet by sheet. */
  function ValidationErrors(crossReferences: Dict<string, seq<CrossRef>>, target: Dict<string, SheetData>): seq<RefError>
  {
    if crossReferences == [] then []
    else
      var (sheet, refs) := crossReferences[|crossReferences| - 1];
      ValidationErrors(crossReferences[..|crossReferences| - 1], target) + RefErrors(sheet, refs, target)
  }

  /** `validate_cross_references(source_data, target_data)`. */
  method ValidateCrossReferences(source: WorkbookData, target: WorkbookData) returns (errors: seq<RefError>)
    ensures errors == ValidationErrors(source.crossReferences, target.sheets)
  {
    errors := [];
    var crossReferences := source.crossReferences;
    for i := 0 to |crossReferences|
      invariant errors == ValidationErrors(crossReferences[..i], target.sheets)
    {
      var (sheet, refs) := crossReferences[i];
      assert crossReferences[..i + 1][..i] == crossReferences[..i];
      errors := CheckReferences(errors, sheet, refs, target.sheets);
    }
    assert crossReferences[..|crossReferences|] == crossReferences;
  }

  /** The inner loop of `validate_cross_references` over the references of one sheet. */
  method CheckReferences(errors0: seq<RefError>, sheet: string, refs: seq<CrossRef>, target: Dict<string, SheetData>)
    returns (errors: seq<RefError>)
    ensures errors == errors0 + RefErrors(sheet, refs, target)
  {
    errors := errors0;
    for k := 0 to |refs|
      invariant errors == errors0 + RefErrors(sheet, refs[..k], target)
    {
      var ref := refs[k];
      assert refs[..k + 1][..k] == refs[..k];
      var targetSheet := Get(target, ref.targetSheet);
      if targetSheet.None? {
        errors := errors + [RefError("missing_sheet", sheet, ref.targetSheet, ref.targetReference, ref.formula)];
        continue;
      }
      if !HasChar(ref.targetReference, ':') {
        if !HasKey(targetSheet.value.cells, ref.targetReference) {
          errors := errors + [RefError("missing_cell", sheet, ref.targetSheet, ref.targetReference, ref.formula)];
        }
      }
    }
    assert refs[..|refs|] == refs;
  }

  /** A reference listed under `sheet` in `crossReferences` whose check gives `e`. */
  predicate Reports(crossReferences: Dict<string, seq<CrossRef>>, target: Dict<string, SheetData>, e: RefError) {
    exists i, ref :: 0 <= i < |crossReferences| && ref in crossReferences[i].1
                     && RefCheck(crossReferences[i].0, ref, target) == Some(e)
  }

  lemma {:induction false} RefErrorsMembers(sheet: string, refs: seq<CrossRef>, target: Dict<string, SheetData>, e: RefError)
    ensures e in RefErrors(sheet, refs, target) <==> exists ref :: ref in refs && RefCheck(sheet, ref, target) == Some(e)
  {
    if refs != [] {
      var init, last := refs[..|refs| - 1], refs[|refs| - 1];
      RefErrorsMembers(sheet, init, target, e);
      InitLast(refs);
      if exists ref :: ref in refs && RefCheck(sheet, ref, target) == Some(e) {
        var ref :| ref in refs && RefCheck(sheet, ref, target) == Some(e);
        if ref != last {
          assert ref in init;
        }
      }
      if exists ref :: ref in init && RefCheck(sheet, ref, target) == Some(e) {
        var ref :| ref in init && RefCheck(sheet, ref, target) == Some(e);
        assert ref in refs;
      }
      assert last in refs;
    }
  }

  /** A finding is reported exactly when some listed reference fails its check with it. */
  lemma {:induction false} ValidationErrorsMembers(crossReferences: Dict<string, seq<CrossRef>>,
                                                   target: Dict<string, SheetData>, e: RefError)
    ensures e in ValidationErrors(crossReferences, target) <==> Reports(crossReferences, target, e)
  {
    if crossReferences != [] {
      var n := |crossReferences| - 1;
      var init := crossReferences[..n];
      var (sheet, refs) := crossReferences[n];
      ValidationErrorsMembers(init, target, e);
      RefErrorsMembers(sheet, refs, target, e);
      if Reports(crossReferences, target, e) {
        var i, ref :| 0 <= i < |crossReferences| && ref in crossReferences[i].1
                      && RefCheck(crossReferences[i].0, ref, target) == Some(e);
        if i < n {
          assert init[i] == crossReferences[i];
        }
      }
      if Reports(init, target, e) {
        var i, ref :| 0 <= i < n && ref in init[i].1 && RefCheck(init[i].0, ref, target) == Some(e);
        assert crossReferences[i] == init[i];
      }
    }
  }

  /** A range or column reference is reported only when its whole sheet is missing. */
  lemma RangesOnlyMissingSheet(crossReferences: Dict<string, seq<CrossRef>>, target: Dict<string, SheetData>, e: RefError)
    requires e in ValidationErrors(crossReferences, target) && HasChar(e.reference, ':')
    ensures e.kind == "missing_sheet" && !HasKey(target, e.targetSheet)
  {
    ValidationErrorsMembers(crossReferences, target, e);
  }

  /** Every listed reference to a sheet the target workbook lacks is reported as a missing sheet. */
  lemma MissingSheetReported(crossReferences: Dict<string, seq<CrossRef>>, target: Dict<string, SheetData>,
                             i: nat, ref: CrossRef)
    requires i < |crossReferences| && ref in crossReferences[i].1 && !HasKey(target, ref.targetSheet)
    ensures RefError("missing_sheet", crossReferences[i].0, ref.targetSheet, ref.targetReference, ref.formula)
            in ValidationErrors(crossReferences, target)
  {
    ValidationErrorsMembers(crossReferences, target,
                            RefError("missing_sheet", crossReferences[i].0, ref.targetSheet, ref.targetReference, ref.formula));
  }
}
