/**
 * The analysis that the validation entry point runs after validating: the
 * dependency statistics and reverse dependencies, the alerts raised from
 * error rates and from wide impact chains, and the cascade of each origin
 * column split into plain columns and sheet-qualified formulas.
 */
module ValidateMain {
  import opened Wrappers
  import opened Text
  import opened Assoc
  import opened Sorting
  import opened FormulaExtractor
  import opened Impact
  import opened Report

  // ---------------------------------------------------------------------
  // Statistics

  /** `sum(len(f.get('depends_on', [])) for f in formulas.values())`. */
  function TotalDependencies(formulas: Formulas): nat
  {
    if formulas == [] then 0
    else TotalDependencies(formulas[..|formulas| - 1]) + |formulas[|formulas| - 1].1.dependsOn|
  }

  /** `sum(len(f.get('referencias_externas', [])) for f in formulas.values())`. */
  function CrossSheetDeps(formulas: Formulas): nat
  {
    if formulas == [] then 0
    else CrossSheetDeps(formulas[..|formulas| - 1]) + |formulas[|formulas| - 1].1.externalRefs|
  }

  /** `n` copies of `x`. */
  function Repeat<T>(x: T, n: nat): (r: seq<T>)
    ensures |r| == n
    ensures forall i :: 0 <= i < n ==> r[i] == x
  {
    if n == 0 then [] else Repeat(x, n - 1) + [x]
  }

  /** The reverse dependencies: each column to the formulas that depend on it. */
  type ReverseDeps = Dict<string, seq<string>>

  /** `reverse_dependencies[dep].append(name)` for each `dep` of `deps`, creating a missing list. */
  function AddReverse(rev: ReverseDeps, deps: seq<string>, name: string): ReverseDeps
  {
    if deps == [] then rev
    else
      var d := AddReverse(rev, deps[..|deps| - 1], name);
      var dep := deps[|deps| - 1];
      Put(d, dep, GetOr(d, dep, []) + [name])
  }

  /** The reverse dependencies of all formulas, in dict order. */
  function ReverseDependencies(formulas: Formulas): ReverseDeps
  {
    if formulas == [] then []
    else
      var last := formulas[|formulas| - 1];
      AddReverse(ReverseDependencies(formulas[..|formulas| - 1]), last.1.dependsOn, last.0)
  }

  /** How often column `d` occurs in the `depends_on` lists of all formulas. */
  function ReferenceCount(formulas: Formulas, d: string): nat
  {
    if formulas == [] then 0
    else ReferenceCount(formulas[..|formulas| - 1], d) + Count(formulas[|formulas| - 1].1.dependsOn, d)
  }

  /** The formula names that depend on `d`, once per occurrence of `d` in their lists, in formula order. */
  function Sources(formulas: Formulas, d: string): (r: seq<string>)
    ensures |r| == ReferenceCount(formulas, d)
  {
    if formulas == [] then []
    else
      var last := formulas[|formulas| - 1];
      Sources(formulas[..|formulas| - 1], d) + Repeat(last.0, Count(last.1.dependsOn, d))
  }

  lemma {:induction false} AddReverseGet(rev: ReverseDeps, deps: seq<string>, name: string, d: string)
    ensures GetOr(AddReverse(rev, deps, name), d, []) == GetOr(rev, d, []) + Repeat(name, Count(deps, d))
  {
    if deps == [] {
      assert AddReverse(rev, deps, name) == rev;
      assert GetOr(rev, d, []) + [] == GetOr(rev, d, []);
    } else {
      var init := deps[..|deps| - 1];
      var dep := deps[|deps| - 1];
      var prev := AddReverse(rev, init, name);
      var list := GetOr(prev, dep, []) + [name];
      assert AddReverse(rev, deps, name) == Put(prev, dep, list);
      AddReverseGet(rev, init, name, d);
      GetOrPut(prev, dep, list, d, []);
      CountLast(deps, d);
      if dep == d {
        assert Repeat(name, Count(deps, d)) == Repeat(name, Count(init, d)) + [name];
        AppendAssoc(GetOr(rev, d, []), Repeat(name, Count(init, d)), [name]);
      }
    }
  }

  /**
   * The list under column `d` names, in formula order, every formula whose
   * `depends_on` holds `d`, once per occurrence; a column no formula depends
   * on has no list.
   */
  lemma {:induction false} ReverseDependenciesGet(formulas: Formulas, d: string)
    ensures GetOr(ReverseDependencies(formulas), d, []) == Sources(formulas, d)
  {
    if formulas != [] {
      var n := |formulas| - 1;
      ReverseDependenciesGet(formulas[..n], d);
      AddReverseGet(ReverseDependencies(formulas[..n]), formulas[n].1.dependsOn, formulas[n].0, d);
    }
  }

  /** The summed lengths of the lists of a dict. */
  function TotalLength<T>(d: Dict<string, seq<T>>): nat
  {
    if d == [] then 0 else |d[0].1| + TotalLength(d[1..])
  }

  lemma {:induction false} TotalLengthPut<T>(d: Dict<string, seq<T>>, k: string, v: seq<T>)
    ensures TotalLength(Put(d, k, v)) + |GetOr(d, k, [])| == TotalLength(d) + |v|
  {
    if d != [] && d[0].0 != k {
      TotalLengthPut(d[1..], k, v);
      assert Put(d, k, v)[1..] == Put(d[1..], k, v);
    } else if d != [] {
      assert Put(d, k, v)[1..] == d[1..];
    }
  }

  lemma {:induction false} AddReverseLength(rev: ReverseDeps, deps: seq<string>, name: string)
    ensures TotalLength(AddReverse(rev, deps, name)) == TotalLength(rev) + |deps|
  {
    if deps != [] {
      var init := deps[..|deps| - 1];
      var dep := deps[|deps| - 1];
      var prev := AddReverse(rev, init, name);
      AddReverseLength(rev, init, name);
      TotalLengthPut(prev, dep, GetOr(prev, dep, []) + [name]);
    }
  }

  /** `total_dependencies` is the number of entries of the reverse dependency lists. */
  lemma {:induction false} ReverseDependenciesTotal(formulas: Formulas)
    ensures TotalLength(ReverseDependencies(formulas)) == TotalDependencies(formulas)
  {
    if formulas != [] {
      var n := |formulas| - 1;
      ReverseDependenciesTotal(formulas[..n]);
      AddReverseLength(ReverseDependencies(formulas[..n]), formulas[n].1.dependsOn, formulas[n].0);
    }
  }

  // ---------------------------------------------------------------------
  // most_referenced

  /** `ref_counts[x] = ref_counts.get(x, 0) + 1` for each `x` of `names`. */
  function TallyNames(counts: Dict<string, int>, names: seq<string>): Dict<string, int>
  {
    if names == [] then counts
    else
      var c := TallyNames(counts, names[..|names| - 1]);
      var x := names[|names| - 1];
      Put(c, x, GetOr(c, x, 0) + 1)
  }

  /** The counts as written: every name inside every reverse dependency list is tallied. */
  function NameCounts(rev: ReverseDeps): Dict<string, int>
  {
    if rev == [] then []
    else TallyNames(NameCounts(rev[..|rev| - 1]), rev[|rev| - 1].1)
  }

  /** The counts as intended: each column's count is the length of its list. */
  function ListLengths(rev: ReverseDeps): (counts: Dict<string, int>)
    ensures Keys(counts) == Keys(rev)
  {
    if rev == [] then [] else [(rev[0].0, |rev[0].1|)] + ListLengths(rev[1..])
  }

  /** `ref_counts`, as written (`intended` false) or as the statistic's name promises (`intended` true). */
  function RefCounts(rev: ReverseDeps, intended: bool): Dict<string, int>
  {
    if intended then ListLengths(rev) else NameCounts(rev)
  }

  /** How often `x` occurs in all lists of `rev`. */
  function Occurrences(rev: ReverseDeps, x: string): nat
  {
    if rev == [] then 0 else Occurrences(rev[..|rev| - 1], x) + Count(rev[|rev| - 1].1, x)
  }

  lemma {:induction false} TallyNamesGet(counts: Dict<string, int>, names: seq<string>, x: string)
    ensures GetOr(TallyNames(counts, names), x, 0) == GetOr(counts, x, 0) + Count(names, x)
  {
    if names == [] {
      assert TallyNames(counts, names) == counts;
    } else {
      var init := names[..|names| - 1];
      TallyNamesLast(counts, names, x);
      TallyNamesGet(counts, init, x);
      CountLast(names, x);
    }
  }

  /** The last name adds one to its own count on top of the names before it. */
  lemma {:induction false} TallyNamesLast(counts: Dict<string, int>, names: seq<string>, x: string)
    requires names != []
    ensures GetOr(TallyNames(counts, names), x, 0)
            == GetOr(TallyNames(counts, names[..|names| - 1]), x, 0) + (if names[|names| - 1] == x then 1 else 0)
  {
    var c := TallyNames(counts, names[..|names| - 1]);
    var y := names[|names| - 1];
    var v := GetOr(c, y, 0) + 1;
    assert TallyNames(counts, names) == Put(c, y, v);
    GetOrPut(c, y, v, x, 0);
  }

  /** As written, the count of a name is how often it occurs inside the lists, whatever the keys are. */
  lemma {:induction false} NameCountsGet(rev: ReverseDeps, x: string)
    ensures GetOr(NameCounts(rev), x, 0) == Occurrences(rev, x)
  {
    if rev != [] {
      var init := rev[..|rev| - 1];
      var names := rev[|rev| - 1].1;
      assert NameCounts(rev) == TallyNames(NameCounts(init), names);
      assert Occurrences(rev, x) == Occurrences(init, x) + Count(names, x);
      NameCountsGet(init, x);
      TallyNamesGet(NameCounts(init), names, x);
    }
  }

  lemma {:induction false} ListLengthsGet(rev: ReverseDeps, d: string)
    ensures GetOr(ListLengths(rev), d, 0) == |GetOr(rev, d, [])|
  {
    if rev != [] && rev[0].0 != d {
      ListLengthsGet(rev[1..], d);
    }
  }

  /** As intended, the count of a column is how often the formulas reference it. */
  lemma IntendedCountsAreReferences(formulas: Formulas, d: string)
    ensures GetOr(RefCounts(ReverseDependencies(formulas), true), d, 0) == ReferenceCount(formulas, d)
  {
    ListLengthsGet(ReverseDependencies(formulas), d);
    ReverseDependenciesGet(formulas, d);
  }

  /** The sort key of `sorted(..., key=lambda x: x[1], reverse=True)`, negated for the ascending stable sort. */
  function NegCount(p: (string, int)): real
  {
    -(p.1 as real)
  }

  /** The three pairs with the highest counts, earlier pairs first among equal counts. */
  function TopPairs(counts: Dict<string, int>): seq<(string, int)>
  {
    Take(SortBy(counts, NegCount), 3)
  }

  /** `most_referenced`: the names of the top pairs. */
  function MostReferenced(counts: Dict<string, int>): seq<string>
  {
    if counts == [] then [] else Keys(TopPairs(counts))
  }

  /**
   * At most three pairs of the counts are ranked, in non-increasing order of
   * count, and no pair left out has a higher count than a ranked one.
   */
  lemma TopPairsSpec(counts: Dict<string, int>)
    ensures |TopPairs(counts)| == if |counts| < 3 then |counts| else 3
    ensures forall p :: p in TopPairs(counts) ==> p in counts
    ensures forall i, j :: 0 <= i < j < |TopPairs(counts)| ==> TopPairs(counts)[i].1 >= TopPairs(counts)[j].1
    ensures forall p, t :: p in counts && t in TopPairs(counts) && p !in TopPairs(counts) ==> p.1 <= t.1
  {
    var top := TopPairs(counts);
    TakeSortedSmallest(counts, NegCount, 3);
    forall i, j | 0 <= i < j < |top| ensures top[i].1 >= top[j].1 {
      assert NegCount(top[i]) <= NegCount(top[j]);
    }
    forall p, t | p in counts && t in top && p !in top ensures p.1 <= t.1 {
      assert NegCount(t) <= NegCount(p);
    }
  }

  lemma MostReferencedSpec(counts: Dict<string, int>)
    ensures |MostReferenced(counts)| <= 3
    ensures MostReferenced(counts) == Keys(TopPairs(counts))
  {
    TopPairsSpec(counts);
  }

  /** A formula "F" depending on columns "A" and "B". */
  predicate OneFormulaTwoDeps(formulas: Formulas)
  {
    |formulas| == 1 && formulas[0].0 == "F" && formulas[0].1.dependsOn == ["A", "B"]
  }

  lemma OneFormulaReverse(formulas: Formulas)
    requires OneFormulaTwoDeps(formulas)
    ensures ReverseDependencies(formulas) == [("A", ["F"]), ("B", ["F"])]
  {
    var deps := formulas[0].1.dependsOn;
    assert formulas[..0] == [];
    assert deps[..1] == ["A"] && deps[..1][..0] == [];
    var empty: ReverseDeps := [];
    var a: seq<string> := ["A"];
    assert a[..0] == [] && a[|a| - 1] == "A";
    assert AddReverse(empty, a[..0], "F") == empty;
    assert GetOr(empty, "A", []) == [];
    assert AddReverse(empty, a, "F") == Put(empty, "A", [] + ["F"]);
    assert [] + ["F"] == ["F"];
    var one: ReverseDeps := [("A", ["F"])];
    assert one[1..] == [];
    assert GetOr(one, "B", []) == [];
    assert Put(one, "B", ["F"]) == [("A", ["F"]), ("B", ["F"])];
  }

  /**
   * As written, `most_referenced` ranks the formula "F" (by its number of
   * dependencies), and none of the columns it references.
   */
  lemma MostReferencedAsWritten(formulas: Formulas)
    requires OneFormulaTwoDeps(formulas)
    ensures MostReferenced(RefCounts(ReverseDependencies(formulas), false)) == ["F"]
  {
    OneFormulaReverse(formulas);
    var rev := ReverseDependencies(formulas);
    assert rev[..1] == [("A", ["F"])] && rev[..1][..0] == [];
    assert TallyNames([], ["F"]) == [("F", 1)];
    assert ["F"][..0] == [];
    assert NameCounts(rev[..1]) == [("F", 1)];
    assert TallyNames([("F", 1)], ["F"]) == [("F", 2)];
    var counts := [("F", 2)];
    assert counts[..0] == [];
    assert SortBy(counts, NegCount) == counts;
  }

  /** As intended, both referenced columns are ranked, in dict order. */
  lemma MostReferencedIntended(formulas: Formulas)
    requires OneFormulaTwoDeps(formulas)
    ensures MostReferenced(RefCounts(ReverseDependencies(formulas), true)) == ["A", "B"]
  {
    OneFormulaReverse(formulas);
    var rev: ReverseDeps := [("A", ["F"]), ("B", ["F"])];
    assert rev[1..][1..] == [];
    var counts: Dict<string, int> := [("A", 1), ("B", 1)];
    assert ListLengths(rev) == counts;
    TiedCountsSorted(counts);
    assert Take(counts, 3) == counts;
  }

  /** Two pairs of equal count keep their order. */
  lemma TiedCountsSorted(counts: Dict<string, int>)
    requires counts == [("A", 1), ("B", 1)]
    ensures SortBy(counts, NegCount) == counts
  {
    var first := counts[..1];
    assert first[..0] == [] && first[0] == ("A", 1);
    assert SortBy(first, NegCount) == first;
    assert counts[..|counts| - 1] == first;
    assert Insert(("B", 1), first, NegCount) == counts;
  }

  /** The `statistics` block. */
  datatype Statistics = Statistics(
    totalFormulas: nat,
    totalDependencies: nat,
    crossSheetDeps: nat,
    mostReferenced: seq<string>,
    maxDepth: nat)

  function StatisticsOf(formulas: Formulas, intended: bool): Statistics
  {
    Statistics(|formulas|, TotalDependencies(formulas), CrossSheetDeps(formulas),
               MostReferenced(RefCounts(ReverseDependencies(formulas), intended)), 0)
  }

  /** The dependency section of the report: the reverse dependencies and the statistics. */
  method ComputeDependencies(formulas: Formulas, intended: bool) returns (rev: ReverseDeps, stats: Statistics)
    ensures rev == ReverseDependencies(formulas)
    ensures stats == StatisticsOf(formulas, intended)
  {
    rev := [];
    for i := 0 to |formulas|
      invariant rev == ReverseDependencies(formulas[..i])
    {
      assert formulas[..i + 1][..i] == formulas[..i];
      var (name, info) := formulas[i];
      rev := AppendSources(rev, info.dependsOn, name);
    }
    assert formulas[..|formulas|] == formulas;
    var counts: Dict<string, int>;
    if intended {
      counts := CountLengths(rev);
    } else {
      counts := CountNames(rev);
    }
    var top: seq<string> := [];
    if counts != [] {
      top := Keys(Take(SortBy(counts, NegCount), 3));
    }
    stats := Statistics(|formulas|, TotalDependencies(formulas), CrossSheetDeps(formulas), top, 0);
  }

  /** The inner loop of the reverse dependencies: `name` appended under each of `deps`. */
  method AppendSources(rev0: ReverseDeps, deps: seq<string>, name: string) returns (rev: ReverseDeps)
    ensures rev == AddReverse(rev0, deps, name)
  {
    rev := rev0;
    for j := 0 to |deps|
      invariant rev == AddReverse(rev0, deps[..j], name)
    {
      AddReverseStep(rev0, deps, name, j);
      var dep := deps[j];
      if Get(rev, dep).None? {
        CreateThenAppend(rev, dep, name);
        rev := Put(rev, dep, []);
      }
      rev := Put(rev, dep, GetOr(rev, dep, []) + [name]);
    }
    assert deps[..|deps|] == deps;
  }

  lemma AddReverseStep(rev0: ReverseDeps, deps: seq<string>, name: string, j: nat)
    requires j < |deps|
    ensures AddReverse(rev0, deps[..j + 1], name)
            == Put(AddReverse(rev0, deps[..j], name), deps[j], GetOr(AddReverse(rev0, deps[..j], name), deps[j], []) + [name])
  {
    assert deps[..j + 1][..j] == deps[..j];
  }

  /** Creating an empty list and appending to it is appending to the missing list. */
  lemma CreateThenAppend(rev: ReverseDeps, dep: string, name: string)
    requires Get(rev, dep).None?
    ensures Put(Put(rev, dep, []), dep, GetOr(Put(rev, dep, []), dep, []) + [name]) == Put(rev, dep, GetOr(rev, dep, []) + [name])
  {
    var empty: seq<string> := [];
    GetPutAny(rev, dep, empty, dep);
    assert GetOr(Put(rev, dep, empty), dep, empty) == empty;
    assert GetOr(rev, dep, empty) == empty;
    PutPut(rev, dep, empty, empty + [name]);
  }

  /** The counting loop as written. */
  method CountNames(rev: ReverseDeps) returns (counts: Dict<string, int>)
    ensures counts == NameCounts(rev)
  {
    counts := [];
    for i := 0 to |rev|
      invariant counts == NameCounts(rev[..i])
    {
      assert rev[..i + 1][..i] == rev[..i];
      counts := TallyLoop(counts, rev[i].1);
    }
    assert rev[..|rev|] == rev;
  }

  method TallyLoop(counts0: Dict<string, int>, names: seq<string>) returns (counts: Dict<string, int>)
    ensures counts == TallyNames(counts0, names)
  {
    counts := counts0;
    for j := 0 to |names|
      invariant counts == TallyNames(counts0, names[..j])
    {
      assert names[..j + 1][..j] == names[..j];
      counts := Put(counts, names[j], GetOr(counts, names[j], 0) + 1);
    }
    assert names[..|names|] == names;
  }

  /** The counting loop as intended: one count per column, the length of its list. */
  method CountLengths(rev: ReverseDeps) returns (counts: Dict<string, int>)
    ensures counts == ListLengths(rev)
  {
    counts := [];
    var i := |rev|;
    while i > 0
      invariant 0 <= i <= |rev|
      invariant counts == ListLengths(rev[i..])
    {
      i := i - 1;
      assert rev[i..][1..] == rev[i + 1..];
      counts := [(rev[i].0, |rev[i].1|)] + counts;
    }
  }

  // ---------------------------------------------------------------------
  // Alerts

  /** The results for column `c`. */
  function ColumnCount(results: seq<ValidationResult>, c: string): nat
  {
    if results == [] then 0
    else (if results[0].column == c then 1 else 0) + ColumnCount(results[1..], c)
  }

  /** The failed results for column `c`. */
  function ColumnErrors(results: seq<ValidationResult>, c: string): (e: nat)
    ensures e <= ColumnCount(results, c)
  {
    if results == [] then 0
    else (if results[0].column == c && !results[0].passed then 1 else 0) + ColumnErrors(results[1..], c)
  }

  /** The error rate of a column with `n` results of which `e` failed, exactly. */
  function ErrorRate(e: nat, n: nat): real
    requires n > 0
  {
    (e as real) / (n as real)
  }

  lemma RateAbove(e: nat, n: nat, k: nat)
    requires n > 0
    ensures ErrorRate(e, n) > (k as real) / 10.0 <==> 10 * e > k * n
  {
    var r := ErrorRate(e, n);
    assert r * (n as real) == e as real;
    if 10 * e > k * n {
      assert (10 * e) as real > (k * n) as real;
      assert r * (n as real) * 10.0 > (k as real) * (n as real);
    } else {
      assert (10 * e) as real <= (k * n) as real;
      assert r * (n as real) * 10.0 <= (k as real) * (n as real);
    }
  }

  /** The error-rate alert of a configured column, if its rate is high enough. */
  function RateAlert(results: seq<ValidationResult>, c: string): (a: Option<Alert>)
    ensures a.Some? <==> ColumnCount(results, c) > 0 && 10 * ColumnErrors(results, c) > ColumnCount(results, c)
    ensures a.Some? ==> a.value.location == c
    ensures a.Some? ==> (a.value.severity == Some("alta") <==> 10 * ColumnErrors(results, c) > 3 * ColumnCount(results, c))
    ensures a.Some? ==> a.value.severity in {Some("alta"), Some("media")}
    ensures a.Some? ==> a.value.impact == if a.value.severity == Some("alta")
                                           then Records(ColumnCount(results, c))
                                           else Records(ColumnErrors(results, c))
  {
    var n := ColumnCount(results, c);
    var e := ColumnErrors(results, c);
    if n == 0 then None
    else
      RateAbove(e, n, 3);
      RateAbove(e, n, 1);
      if ErrorRate(e, n) > 0.3 then
        Some(Alert(Some("alta"), "taxa_erro_alta", c, "Revisar processo de cálculo ou mapeamento desta coluna", Records(n)))
      else if ErrorRate(e, n) > 0.1 then
        Some(Alert(Some("media"), "taxa_erro_media", c, "Verificar casos específicos de divergência", Records(e)))
      else None
  }

  /** The error-rate alerts of the configured columns, in their order. */
  function RateAlerts(results: seq<ValidationResult>, cols: seq<string>): seq<Alert>
  {
    FilterMap(cols, c => RateAlert(results, c))
  }

  /** The impact-chain alert of a column that more than three formulas read. */
  function CascadeAlert(col: string, consumers: set<string>): Alert
  {
    Alert(Some("alta"), "impacto_cascata", col, "Priorizar correção desta coluna devido ao alto impacto", Affects(consumers))
  }

  /** The impact-chain alert of an entry, if it has more than three consumers. */
  function ChainEntryAlert(e: (string, set<string>)): Option<Alert>
  {
    if |e.1| > 3 then Some(CascadeAlert(e.0, e.1)) else None
  }

  /** The impact-chain alerts, in chain order. */
  function CascadeAlerts(chain: Dict<string, set<string>>): seq<Alert>
  {
    FilterMap(chain, ChainEntryAlert)
  }

  /** `alertas`: none without results; otherwise the error-rate alerts, then the impact-chain alerts. */
  function Alerts(results: seq<ValidationResult>, cols: seq<string>, chain: Dict<string, set<string>>): seq<Alert>
  {
    if results == [] then [] else RateAlerts(results, cols) + CascadeAlerts(chain)
  }

  /** An error-rate alert is raised for exactly the configured columns whose rate is above 10%. */
  lemma RateAlertsMembers(results: seq<ValidationResult>, cols: seq<string>, a: Alert)
    ensures a in RateAlerts(results, cols) <==> exists i :: 0 <= i < |cols| && RateAlert(results, cols[i]) == Some(a)
  {
    FilterMapMembers(cols, c => RateAlert(results, c), a);
  }

  /** An impact-chain alert is raised for exactly the columns with more than three consumers. */
  lemma CascadeAlertsMembers(chain: Dict<string, set<string>>, a: Alert)
    ensures a in CascadeAlerts(chain) <==>
      exists i :: 0 <= i < |chain| && |chain[i].1| > 3 && a == CascadeAlert(chain[i].0, chain[i].1)
  {
    FilterMapMembers(chain, ChainEntryAlert, a);
  }

  /** Every impact-chain alert has severity alta, so it sorts ahead of every media alert. */
  lemma {:induction false} CascadeAlertsHigh(chain: Dict<string, set<string>>)
    ensures forall a :: a in CascadeAlerts(chain) ==> SeverityRank(a) == 1.0
  {
    forall a | a in CascadeAlerts(chain) ensures SeverityRank(a) == 1.0 {
      CascadeAlertsMembers(chain, a);
    }
  }

  /** The alert section of the entry point. */
  method GenerateAlerts(results: seq<ValidationResult>, cols: seq<string>, chain: Dict<string, set<string>>)
    returns (alerts: seq<Alert>)
    ensures alerts == Alerts(results, cols, chain)
  {
    alerts := [];
    if results != [] {
      for i := 0 to |cols|
        invariant alerts == RateAlerts(results, cols[..i])
      {
        FilterMapSnoc(cols, c => RateAlert(results, c), i);
        var n := ColumnCount(results, cols[i]);
        if n > 0 {
          var e := ColumnErrors(results, cols[i]);
          var rate := (e as real) / (n as real);
          if rate > 0.3 {
            alerts := alerts + [Alert(Some("alta"), "taxa_erro_alta", cols[i],
                                      "Revisar processo de cálculo ou mapeamento desta coluna", Records(n))];
          } else if rate > 0.1 {
            alerts := alerts + [Alert(Some("media"), "taxa_erro_media", cols[i],
                                      "Verificar casos específicos de divergência", Records(e))];
          }
        }
      }
      assert cols[..|cols|] == cols;
      var more := ChainAlerts(chain);
      alerts := alerts + more;
    }
  }

  method ChainAlerts(chain: Dict<string, set<string>>) returns (alerts: seq<Alert>)
    ensures alerts == CascadeAlerts(chain)
  {
    alerts := [];
    for i := 0 to |chain|
      invariant alerts == CascadeAlerts(chain[..i])
    {
      FilterMapSnoc(chain, ChainEntryAlert, i);
      var (c, s) := chain[i];
      if |s| > 3 {
        alerts := alerts + [CascadeAlert(c, s)];
      }
    }
    assert chain[..|chain|] == chain;
  }

  // ---------------------------------------------------------------------
  // Cascade

  /** The items of a chain entry split into formulas (with a '.') and plain columns. */
  function Split(items: set<string>): Affected
  {
    Affected(set x | x in items && !HasChar(x, '.'), set x | x in items && HasChar(x, '.'))
  }

  /** The split is a partition: each item lands in exactly one part, so the level is the number of items. */
  lemma SplitPartition(items: set<string>)
    ensures Split(items).columns + Split(items).formulas == items
    ensures Split(items).columns * Split(items).formulas == {}
    ensures ImpactLevel(Split(items)) == |items|
  {
    var a := Split(items);
    assert a.columns + a.formulas == items;
    assert a.columns * a.formulas == {};
    assert |a.columns + a.formulas| == |a.columns| + |a.formulas| - |a.columns * a.formulas|;
  }

  function HasConsumers(e: (string, set<string>)): bool { e.1 != {} }

  function Origin(e: (string, set<string>)): string { e.0 }

  function SplitEntry(e: (string, set<string>)): Affected { Split(e.1) }

  /** `impacto_cascata`: each origin with consumers, to its split consumers. */
  function CascadeOf(chain: Dict<string, set<string>>): Cascade
  {
    Collect(chain, HasConsumers, Origin, SplitEntry)
  }

  /** An origin's entry splits its consumers, and its level in the report is their number. */
  lemma CascadeEntry(chain: Dict<string, set<string>>, i: nat)
    requires DistinctKeys(chain) && i < |chain| && chain[i].1 != {}
    ensures Get(CascadeOf(chain), chain[i].0) == Some(Split(chain[i].1))
    ensures ImpactLevel(Split(chain[i].1)) == |chain[i].1|
  {
    forall j | i < j < |chain| && HasConsumers(chain[j]) ensures Origin(chain[j]) != Origin(chain[i]) {
      assert Keys(chain)[i] == chain[i].0 && Keys(chain)[j] == chain[j].0;
    }
    CollectLast(chain, HasConsumers, Origin, SplitEntry, i);
    SplitPartition(chain[i].1);
  }

  /** Only origins with consumers appear in the cascade. */
  lemma CascadeKeys(chain: Dict<string, set<string>>, c: string)
    ensures Get(CascadeOf(chain), c).Some? <==> exists i :: 0 <= i < |chain| && chain[i].1 != {} && chain[i].0 == c
  {
    CollectHasKey(chain, HasConsumers, Origin, SplitEntry, c);
  }

  lemma {:induction false} AddConsumerDistinct(chain: Dict<string, set<string>>, cols: seq<string>, f: string)
    requires DistinctKeys(chain)
    ensures DistinctKeys(AddConsumer(chain, cols, f))
  {
    if cols != [] {
      var d := AddConsumer(chain, cols[..|cols| - 1], f);
      AddConsumerDistinct(chain, cols[..|cols| - 1], f);
      PutDistinct(d, cols[|cols| - 1], GetOr(d, cols[|cols| - 1], {}) + {f});
    }
  }

  /** The impact chain is a dict: one entry per column. */
  lemma {:induction false} ImpactChainDistinct(formulas: Formulas)
    ensures DistinctKeys(ImpactChain(formulas))
  {
    if formulas != [] {
      var n := |formulas| - 1;
      ImpactChainDistinct(formulas[..n]);
      AddConsumerDistinct(ImpactChain(formulas[..n]), Values(formulas[n].1.mapping), formulas[n].0);
    }
  }

  /** The cascade section of the entry point. */
  method BuildCascade(chain: Dict<string, set<string>>) returns (cascade: Cascade)
    ensures cascade == CascadeOf(chain)
  {
    cascade := [];
    for i := 0 to |chain|
      invariant cascade == Collect(chain[..i], HasConsumers, Origin, SplitEntry)
    {
      CollectSnoc(chain, HasConsumers, Origin, SplitEntry, i);
      var (origin, items) := chain[i];
      if items != {} {
        var affected := SplitItems(items);
        cascade := Put(cascade, origin, affected);
      }
    }
    CollectAll(chain, HasConsumers, Origin, SplitEntry);
  }

  /** The loop over the consumers of one origin, sorting each into formulas or columns. */
  method SplitItems(items: set<string>) returns (affected: Affected)
    ensures affected == Split(items)
  {
    var columns: set<string> := {};
    var formulas: set<string> := {};
    var rest := items;
    while rest != {}
      invariant rest <= items
      invariant columns == set x | x in items - rest && !HasChar(x, '.')
      invariant formulas == set x | x in items - rest && HasChar(x, '.')
      decreases |rest|
    {
      var item :| item in rest;
      if HasChar(item, '.') {
        formulas := formulas + {item};
      } else {
        columns := columns + {item};
      }
      rest := rest - {item};
    }
    affected := Affected(columns, formulas);
  }
}
