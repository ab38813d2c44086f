/**
 * The impact analysis of divergences: for each failed result of a formula
 * column, the message naming the columns its formula reads; the results
 * copied with that message added; and, for each column, the formulas that
 * read it directly.
 */
module Impact {
  import opened Wrappers
  import opened Text
  import opened Assoc
  import opened Sorting
  import opened FormulaExtractor

  /** One validation result, with the keys the impact analysis reads and the one it adds. */
  datatype ValidationResult = ValidationResult(
    key: Option<string>,          // 'chave'
    column: string,               // 'coluna'
    lineIdx: Option<int>,         // 'linha_idx'
    passed: bool,                 // 'resultado'
    divergences: Option<string>)  // 'divergencias_na_formula'

  /** The extracted formulas by key, in dict order. */
  type Formulas = Dict<string, FormulaInfo>

  /** `resultado.get('linha_idx', 0)`. */
  function LineIdx(r: ValidationResult): int
  {
    match r.lineIdx
    case Some(i) => i
    case None => 0
  }

  /** `f"{chave}_{coluna}_{linha_idx}"`, where `chave` defaults to `f"Linha_{linha_idx}"`. */
  function ResultKey(r: ValidationResult): string
  {
    var idx := IntToString(LineIdx(r));
    var chave := match r.key
      case Some(k) => k
      case None => "Linha_" + idx;
    chave + "_" + r.column + "_" + idx
  }

  // ---------------------------------------------------------------------
  // analyze_formula_dependencies

  function AnyFormula(entry: (string, FormulaInfo)): bool { true }

  function ShortNameOf(entry: (string, FormulaInfo)): string { ShortName(entry.0) }

  function MappedColumns(entry: (string, FormulaInfo)): seq<string> { Values(entry.1.mapping) }

  /**
   * `formula_dependencies`: each formula's mapping values, in mapping order
   * with repeats, under the formula's short name.
   */
  function FormulaDependencies(formulas: Formulas): Dict<string, seq<string>>
  {
    Collect(formulas, AnyFormula, ShortNameOf, MappedColumns)
  }

  const CausesPrefix := "Possíveis causas: divergências em "

  /** The message naming the first three dependencies and how many more there are. */
  function CausesMessage(deps: seq<string>): (msg: string)
    ensures msg == "" <==> deps == []
  {
    if deps == [] then ""
    else
      var head := CausesPrefix + Join(Take(deps, 3), ", ");
      assert head[0] == 'P';
      head + (if |deps| > 3 then " e outras " + NatToString(|deps| - 3) + " colunas" else "")
  }

  /** The entry of one result: the message for a failed result of a formula column, "" otherwise. */
  function EntryFor(fdeps: Dict<string, seq<string>>, r: ValidationResult): (msg: string)
    ensures msg != "" <==> !r.passed && Get(fdeps, r.column).Some? && Get(fdeps, r.column).value != []
  {
    match Get(fdeps, r.column)
    case Some(deps) => if !r.passed then CausesMessage(deps) else ""
    case None => ""
  }

  function AnyResult(r: ValidationResult): bool { true }

  /** `impacto_por_resultado`: the entry of each result under its key; a later result with the same key overwrites. */
  function ImpactOf(results: seq<ValidationResult>, formulas: Formulas): Dict<string, string>
  {
    var fdeps := FormulaDependencies(formulas);
    Collect(results, AnyResult, ResultKey, r => EntryFor(fdeps, r))
  }

  /** Every result has an entry under its key, and every entry belongs to a result. */
  lemma ImpactKeys(results: seq<ValidationResult>, formulas: Formulas, k: string)
    ensures Get(ImpactOf(results, formulas), k).Some? <==> exists i :: 0 <= i < |results| && ResultKey(results[i]) == k
  {
    var fdeps := FormulaDependencies(formulas);
    CollectHasKey(results, AnyResult, ResultKey, r => EntryFor(fdeps, r), k);
  }

  /** The entry under a key is that of the last result with the key. */
  lemma ImpactLastWins(results: seq<ValidationResult>, formulas: Formulas, i: nat)
    requires i < |results|
    requires forall j :: i < j < |results| ==> ResultKey(results[j]) != ResultKey(results[i])
    ensures Get(ImpactOf(results, formulas), ResultKey(results[i]))
            == Some(EntryFor(FormulaDependencies(formulas), results[i]))
  {
    var fdeps := FormulaDependencies(formulas);
    CollectLast(results, AnyResult, ResultKey, r => EntryFor(fdeps, r), i);
  }

  /**
   * A formula's dependency list is its mapping's values, under its short
   * name; of two formulas with one short name the later wins.
   */
  lemma FormulaDependenciesLastWins(formulas: Formulas, i: nat)
    requires i < |formulas|
    requires forall j :: i < j < |formulas| ==> ShortName(formulas[j].0) != ShortName(formulas[i].0)
    ensures Get(FormulaDependencies(formulas), ShortName(formulas[i].0)) == Some(Values(formulas[i].1.mapping))
  {
    CollectLast(formulas, AnyFormula, ShortNameOf, MappedColumns, i);
  }

  /** Only the short names of formulas are formula columns. */
  lemma FormulaDependenciesKeys(formulas: Formulas, name: string)
    ensures Get(FormulaDependencies(formulas), name).Some?
            <==> exists i :: 0 <= i < |formulas| && ShortName(formulas[i].0) == name
  {
    CollectHasKey(formulas, AnyFormula, ShortNameOf, MappedColumns, name);
  }

  lemma CausesOfTwo(deps: seq<string>)
    requires deps == ["SALARIO", "BONUS"]
    ensures CausesMessage(deps) == CausesPrefix + "SALARIO, BONUS"
  {
    assert Take(deps, 3) == deps;
    assert deps[1..] == ["BONUS"];
    assert Join(deps, ", ") == "SALARIO" + ", " + "BONUS";
  }

  lemma JoinThree(three: seq<string>)
    requires three == ["A", "B", "C"]
    ensures Join(three, ", ") == "A, B, C"
  {
    assert three[1..] == ["B", "C"] && three[1..][1..] == ["C"];
    assert Join(three[1..], ", ") == "B" + ", " + "C";
  }

  /** Past three dependencies the message names three and counts the rest. */
  lemma CausesOfFive(deps: seq<string>)
    requires deps == ["A", "B", "C", "D", "E"]
    ensures CausesMessage(deps) == CausesPrefix + "A, B, C" + " e outras 2 colunas"
  {
    assert Take(deps, 3) == ["A", "B", "C"];
    JoinThree(Take(deps, 3));
    assert NatToString(|deps| - 3) == "2";
  }

  /** `analyze_formula_dependencies(validation_results, formulas)`. */
  method AnalyzeImpactDependencies(results: seq<ValidationResult>, formulas: Formulas)
    returns (impact: Dict<string, string>)
    ensures impact == ImpactOf(results, formulas)
  {
    var fdeps := BuildFormulaDependencies(formulas);
    ghost var entry := r => EntryFor(fdeps, r);
    impact := [];
    for i := 0 to |results|
      invariant impact == Collect(results[..i], AnyResult, ResultKey, entry)
    {
      CollectSnoc(results, AnyResult, ResultKey, entry, i);
      var r := results[i];
      var msg := CausesFor(fdeps, r);
      impact := Put(impact, ResultKey(r), msg);
    }
    CollectAll(results, AnyResult, ResultKey, entry);
  }

  /** The message of one result, as the loop body of `analyze_formula_dependencies` builds it. */
  method CausesFor(fdeps: Dict<string, seq<string>>, r: ValidationResult) returns (msg: string)
    ensures msg == EntryFor(fdeps, r)
  {
    msg := "";
    if Get(fdeps, r.column).Some? && !r.passed {
      var deps := Get(fdeps, r.column).value;
      if deps != [] {
        msg := CausesPrefix + Join(Take(deps, 3), ", ");
        if |deps| > 3 {
          msg := msg + " e outras " + NatToString(|deps| - 3) + " colunas";
        }
      }
    }
  }

  /** The second loop of `analyze_formula_dependencies`: `formula_dependencies[col_name] = deps`. */
  method BuildFormulaDependencies(formulas: Formulas) returns (fdeps: Dict<string, seq<string>>)
    ensures fdeps == FormulaDependencies(formulas)
  {
    fdeps := [];
    for i := 0 to |formulas|
      invariant fdeps == Collect(formulas[..i], AnyFormula, ShortNameOf, MappedColumns)
    {
      CollectSnoc(formulas, AnyFormula, ShortNameOf, MappedColumns, i);
      var (key, info) := formulas[i];
      fdeps := Put(fdeps, ShortName(key), Values(info.mapping));
    }
    CollectAll(formulas, AnyFormula, ShortNameOf, MappedColumns);
  }

  // ---------------------------------------------------------------------
  // gerar_relatorio_impacto

  /** Each result, copied with its entry (or "") as `divergencias_na_formula`. */
  function Enriched(impact: Dict<string, string>, r: ValidationResult): (e: ValidationResult)
    ensures e.divergences == Some(GetOr(impact, ResultKey(r), ""))
    ensures e.(divergences := r.divergences) == r
  {
    r.(divergences := Some(GetOr(impact, ResultKey(r), "")))
  }

  /** `gerar_relatorio_impacto(impacto_por_resultado, validation_results)`. */
  method GerarRelatorioImpacto(impact: Dict<string, string>, results: seq<ValidationResult>)
    returns (enriched: seq<ValidationResult>)
    ensures |enriched| == |results|
    ensures forall i :: 0 <= i < |results| ==>
      enriched[i].divergences == Some(GetOr(impact, ResultKey(results[i]), ""))
      && enriched[i].(divergences := results[i].divergences) == results[i]
  {
    enriched := [];
    for i := 0 to |results|
      invariant |enriched| == i
      invariant forall j :: 0 <= j < i ==> enriched[j] == Enriched(impact, results[j])
    {
      var copy := results[i].(divergences := Some(GetOr(impact, ResultKey(results[i]), "")));
      enriched := enriched + [copy];
    }
    forall i | 0 <= i < |results|
      ensures enriched[i].divergences == Some(GetOr(impact, ResultKey(results[i]), ""))
      ensures enriched[i].(divergences := results[i].divergences) == results[i]
    {
      assert enriched[i] == Enriched(impact, results[i]);
    }
  }

  /**
   * Chained with the analysis, a result is labelled with the entry of the last
   * result sharing its key: "" for a passing one, the causes of its formula
   * column otherwise.
   */
  lemma EnrichedMessage(results: seq<ValidationResult>, formulas: Formulas, i: nat, j: nat)
    requires i <= j < |results| && ResultKey(results[j]) == ResultKey(results[i])
    requires forall k :: j < k < |results| ==> ResultKey(results[k]) != ResultKey(results[j])
    ensures Enriched(ImpactOf(results, formulas), results[i]).divergences
            == Some(EntryFor(FormulaDependencies(formulas), results[j]))
  {
    ImpactLastWins(results, formulas, j);
  }

  // ---------------------------------------------------------------------
  // analisar_cadeia_impacto

  /** `cadeia_impacto[c].add(f)` for each `c` of `cols`, creating a missing set. */
  function AddConsumer(chain: Dict<string, set<string>>, cols: seq<string>, f: string): Dict<string, set<string>>
  {
    if cols == [] then chain
    else
      var c := cols[|cols| - 1];
      var d := AddConsumer(chain, cols[..|cols| - 1], f);
      Put(d, c, GetOr(d, c, {}) + {f})
  }

  /** `analisar_cadeia_impacto(formulas)`: each mapped column to the formulas whose mapping names it. */
  function ImpactChain(formulas: Formulas): Dict<string, set<string>>
  {
    if formulas == [] then []
    else
      var last := formulas[|formulas| - 1];
      AddConsumer(ImpactChain(formulas[..|formulas| - 1]), Values(last.1.mapping), last.0)
  }

  /** Adding `f` under `cols` adds exactly `f`, and only under those columns. */
  lemma {:induction false} AddConsumerMembers(chain: Dict<string, set<string>>, cols: seq<string>, f: string,
                                              c: string, x: string)
    ensures x in GetOr(AddConsumer(chain, cols, f), c, {}) <==> x in GetOr(chain, c, {}) || (x == f && c in cols)
  {
    if cols != [] {
      var n := |cols| - 1;
      var init := cols[..n];
      assert c in cols <==> c in init || c == cols[n] by {
        assert cols == init + [cols[n]];
      }
      AddConsumerMembers(chain, init, f, c, x);
      AddConsumerLast(chain, cols, f, c);
    }
  }

  /** Adding under `cols` creates entries for exactly the missing columns of `cols`. */
  lemma {:induction false} AddConsumerKeys(chain: Dict<string, set<string>>, cols: seq<string>, f: string, c: string)
    ensures Get(AddConsumer(chain, cols, f), c).Some? <==> Get(chain, c).Some? || c in cols
  {
    if cols != [] {
      var n := |cols| - 1;
      var init := cols[..n];
      assert c in cols <==> c in init || c == cols[n] by {
        assert cols == init + [cols[n]];
      }
      AddConsumerKeys(chain, init, f, c);
      AddConsumerLast(chain, cols, f, c);
    }
  }

  /** The last column of `cols` is added to what the columns before it built. */
  lemma AddConsumerLast(chain: Dict<string, set<string>>, cols: seq<string>, f: string, c: string)
    requires cols != []
    ensures var d := AddConsumer(chain, cols[..|cols| - 1], f);
      GetOr(AddConsumer(chain, cols, f), c, {})
        == if c == cols[|cols| - 1] then GetOr(d, c, {}) + {f} else GetOr(d, c, {})
    ensures var d := AddConsumer(chain, cols[..|cols| - 1], f);
      Get(AddConsumer(chain, cols, f), c).Some? <==> Get(d, c).Some? || c == cols[|cols| - 1]
  {
    var n := |cols| - 1;
    var d := AddConsumer(chain, cols[..n], f);
    var v := GetOr(d, cols[n], {}) + {f};
    GetOrPut(d, cols[n], v, c, {});
    GetPutAny(d, cols[n], v, c);
  }

  /**
   * Formula `f` is listed under column `c` exactly when `c` is a value of
   * `f`'s mapping, and `c` has an entry exactly when some mapping names it:
   * direct consumers only, not a transitive closure.
   */
  lemma {:induction false} ImpactChainMembers(formulas: Formulas, c: string, f: string)
    ensures f in GetOr(ImpactChain(formulas), c, {})
            <==> exists e :: e in formulas && e.0 == f && c in Values(e.1.mapping)
    ensures Get(ImpactChain(formulas), c).Some?
            <==> exists e :: e in formulas && c in Values(e.1.mapping)
  {
    if formulas != [] {
      var n := |formulas| - 1;
      var init := formulas[..n];
      var last := formulas[n];
      assert forall e :: e in formulas <==> e in init || e == last by {
        assert formulas == init + [last];
      }
      ImpactChainMembers(init, c, f);
      AddConsumerMembers(ImpactChain(init), Values(last.1.mapping), last.0, c, f);
      AddConsumerKeys(ImpactChain(init), Values(last.1.mapping), last.0, c);
    }
  }

  /**
   * Formulas in which T reads only X and U reads only T: U is listed under
   * T but not under X, as the chain records direct consumers only.
   */
  lemma ChainIsOneHop(formulas: Formulas, t: FormulaInfo, u: FormulaInfo)
    requires ("T", t) in formulas && ("U", u) in formulas
    requires forall e :: e in formulas ==> e == ("T", t) || e == ("U", u)
    requires Values(t.mapping) == ["X"] && Values(u.mapping) == ["T"]
    ensures "T" in GetOr(ImpactChain(formulas), "X", {})
    ensures "U" in GetOr(ImpactChain(formulas), "T", {})
    ensures "U" !in GetOr(ImpactChain(formulas), "X", {})
  {
    assert "X" in Values(t.mapping) && "T" in Values(u.mapping) && "X" !in Values(u.mapping);
    ImpactChainMembers(formulas, "X", "T");
    ImpactChainMembers(formulas, "T", "U");
    ImpactChainMembers(formulas, "X", "U");
  }

  /** `analisar_cadeia_impacto(formulas)`. */
  method AnalisarCadeiaImpacto(formulas: Formulas) returns (chain: Dict<string, set<string>>)
    ensures chain == ImpactChain(formulas)
  {
    chain := [];
    for i := 0 to |formulas|
      invariant chain == ImpactChain(formulas[..i])
    {
      assert formulas[..i + 1][..i] == formulas[..i];
      var (key, info) := formulas[i];
      chain := AddConsumers(chain, Values(info.mapping), key);
    }
    assert formulas[..|formulas|] == formulas;
  }

  /** The inner loop: the formula `f` added under each column its mapping names. */
  method AddConsumers(chain0: Dict<string, set<string>>, cols: seq<string>, f: string)
    returns (chain: Dict<string, set<string>>)
    ensures chain == AddConsumer(chain0, cols, f)
  {
    chain := chain0;
    for j := 0 to |cols|
      invariant chain == AddConsumer(chain0, cols[..j], f)
    {
      AddConsumerStep(chain0, cols, f, j);
      var c := cols[j];
      if Get(chain, c).None? {
        PutTwice(chain, c, f);
        chain := Put(chain, c, {});
      }
      chain := Put(chain, c, GetOr(chain, c, {}) + {f});
    }
    assert cols[..|cols|] == cols;
  }

  /** One more column is one more `add`. */
  lemma AddConsumerStep(chain0: Dict<string, set<string>>, cols: seq<string>, f: string, j: nat)
    requires j < |cols|
    ensures AddConsumer(chain0, cols[..j + 1], f)
            == Put(AddConsumer(chain0, cols[..j], f), cols[j], GetOr(AddConsumer(chain0, cols[..j], f), cols[j], {}) + {f})
  {
    assert cols[..j + 1][..j] == cols[..j];
  }

  /** Creating an empty set first and adding to it is adding to the missing set. */
  lemma PutTwice(chain: Dict<string, set<string>>, c: string, f: string)
    requires Get(chain, c).None?
    ensures Put(Put(chain, c, {}), c, GetOr(Put(chain, c, {}), c, {}) + {f}) == Put(chain, c, GetOr(chain, c, {}) + {f})
  {
    var empty: set<string> := {};
    GetPutAny(chain, c, empty, c);
    assert GetOr(Put(chain, c, empty), c, empty) == empty;
    assert GetOr(chain, c, empty) == empty;
    PutPut(chain, c, empty, empty + {f});
  }
}
