/**
 * What the cross-sheet analyser derives from its pass over a workbook: the
 * dependency graph (one node per sheet, one edge per referenced sheet with the
 * number of references to it, and the processing levels) and the list of
 * optimisation suggestions (a circular dependency, sheets with many
 * dependencies, sheets with many outgoing references).
 */
module CrossSheetGraph {
  import opened Wrappers
  import opened Text
  import opened Assoc
  import opened CrossSheetRefs
  import opened CrossSheetWorkbook
  import opened CrossSheetOrder
  import opened CrossSheetCycles

  datatype GraphNode = GraphNode(id: string, kind: string, formulasCount: nat)

  datatype GraphEdge = GraphEdge(source: string, target: string, count: nat)

  /** `{'nodes': ..., 'edges': ..., 'levels': ...}`; level `k` is `levels[k]`. */
  datatype DependencyGraph = DependencyGraph(nodes: seq<GraphNode>, edges: seq<GraphEdge>, levels: seq<set<string>>)

  /** The node of one sheet: its name and the number of its formulas. */
  function NodeOf(sheet: (string, SheetData)): GraphNode
  {
    GraphNode(sheet.0, "sheet", |sheet.1.formulas|)
  }

  /** One node per sheet, in the order of the sheets. */
  function NodesOf(sheets: Dict<string, SheetData>): (r: seq<GraphNode>)
    ensures |r| == |sheets|
    ensures forall i :: 0 <= i < |sheets| ==> r[i].id == sheets[i].0 && r[i].formulasCount == |sheets[i].1.formulas|
  {
    if sheets == [] then [] else NodesOf(sheets[..|sheets| - 1]) + [NodeOf(sheets[|sheets| - 1])]
  }

  /** The target sheet of each reference, in order. */
  function TargetSheets(refs: seq<CrossRef>): (r: seq<string>)
    ensures |r| == |refs|
    ensures forall i :: 0 <= i < |refs| ==> r[i] == refs[i].targetSheet
  {
    if refs == [] then [] else TargetSheets(refs[..|refs| - 1]) + [refs[|refs| - 1].targetSheet]
  }

  /** One edge from `source` to each of `ts`, counting the occurrences of that target in `all`. */
  function EdgesFor(source: string, ts: seq<string>, all: seq<string>): (r: seq<GraphEdge>)
    ensures |r| == |ts|
    ensures forall i :: 0 <= i < |ts| ==> r[i] == GraphEdge(source, ts[i], Count(all, ts[i]))
  {
    if ts == [] then [] else [GraphEdge(source, ts[0], Count(all, ts[0]))] + EdgesFor(source, ts[1..], all)
  }

  /**
   * The edges of one source sheet: its distinct targets, each with the number
   * of its references to it. The source iterates a `set`, whose order Python
   * leaves open; the model takes first-occurrence order.
   */
  function SourceEdges(source: string, refs: seq<CrossRef>): seq<GraphEdge>
  {
    var all := TargetSheets(refs);
    EdgesFor(source, Dedup(all), all)
  }

  /** `f` of every element of `xs`, concatenated in order. */
  function Flatten<A, B>(xs: seq<A>, f: A -> seq<B>): seq<B>
  {
    if xs == [] then [] else Flatten(xs[..|xs| - 1], f) + f(xs[|xs| - 1])
  }

  function EntryEdges(entry: (string, seq<CrossRef>)): seq<GraphEdge>
  {
    SourceEdges(entry.0, entry.1)
  }

  /** The edges of every entry of `cross_references`, entry by entry. */
  function EdgesOf(crossReferences: Dict<string, seq<CrossRef>>): seq<GraphEdge>
  {
    Flatten(crossReferences, EntryEdges)
  }

  /** `generate_dependency_graph(workbook_data)`. */
  function GraphOf(wb: WorkbookData): DependencyGraph
  {
    DependencyGraph(NodesOf(wb.sheets), EdgesOf(wb.crossReferences), ProcessingOrder(wb.dependencies))
  }

  /** The sum of the edges' counts. */
  function Total(edges: seq<GraphEdge>): nat
  {
    if edges == [] then 0 else edges[0].count + Total(edges[1..])
  }

  // ---------------------------------------------------------------------
  // Properties of the edges

  lemma TargetsIn(refs: seq<CrossRef>, t: string)
    ensures t in TargetSheets(refs) <==> Targets(refs, t)
  {
    var all := TargetSheets(refs);
    if t in all {
      var i :| 0 <= i < |all| && all[i] == t;
      assert refs[i] in refs;
    }
    if Targets(refs, t) {
      var r :| r in refs && r.targetSheet == t;
      var i :| 0 <= i < |refs| && refs[i] == r;
      assert all[i] == t;
    }
  }

  /**
   * An edge leaves `source` exactly for each sheet its references target, and
   * carries the number of references to that sheet, which is positive.
   */
  lemma SourceEdgesMembers(source: string, refs: seq<CrossRef>, e: GraphEdge)
    ensures e in SourceEdges(source, refs)
            <==> e.source == source && Targets(refs, e.target) && e.count == Count(TargetSheets(refs), e.target)
    ensures e in SourceEdges(source, refs) ==> e.count > 0
  {
    var all := TargetSheets(refs);
    var ts := Dedup(all);
    var edges := SourceEdges(source, refs);
    TargetsIn(refs, e.target);
    CountPositive(all, e.target);
    if e.source == source && Targets(refs, e.target) && e.count == Count(all, e.target) {
      var i :| 0 <= i < |ts| && ts[i] == e.target;
      assert edges[i] == e;
    }
  }

  /** No sheet is the target of two edges from the same source. */
  lemma SourceEdgesDistinct(source: string, refs: seq<CrossRef>)
    ensures var edges := SourceEdges(source, refs);
      forall i, j :: 0 <= i < j < |edges| ==> edges[i].target != edges[j].target
  {
    var ts := Dedup(TargetSheets(refs));
    assert NoDup(ts);
  }

  /** Occurrences in `xs` of each of `ts`, added up. */
  function Tally(ts: seq<string>, xs: seq<string>): nat
  {
    if ts == [] then 0 else Count(xs, ts[0]) + Tally(ts[1..], xs)
  }

  lemma {:induction false} TallyCons(ts: seq<string>, x: string, xs: seq<string>)
    ensures Tally(ts, [x] + xs) == Count(ts, x) + Tally(ts, xs)
  {
    if ts != [] {
      TailOfCons(x, xs);
      TallyCons(ts[1..], x, xs);
    }
  }

  lemma {:induction false} CountOnce(ts: seq<string>, x: string)
    requires NoDup(ts) && x in ts
    ensures Count(ts, x) == 1
  {
    if ts[0] == x {
      forall j | 0 <= j < |ts| - 1
        ensures ts[1..][j] != x
      {
        assert ts[j + 1] != ts[0];
      }
      CountPositive(ts[1..], x);
    } else {
      assert x in ts[1..];
      CountOnce(ts[1..], x);
    }
  }

  /** Each element of `xs` is counted once by a list holding every element once. */
  lemma {:induction false} TallyAll(ts: seq<string>, xs: seq<string>)
    requires NoDup(ts) && forall x :: x in xs ==> x in ts
    ensures Tally(ts, xs) == |xs|
  {
    if xs == [] {
      TallyEmpty(ts);
    } else {
      assert xs == [xs[0]] + xs[1..];
      TallyCons(ts, xs[0], xs[1..]);
      CountOnce(ts, xs[0]);
      TallyAll(ts, xs[1..]);
    }
  }

  lemma {:induction false} TallyEmpty(ts: seq<string>)
    ensures Tally(ts, []) == 0
  {
    if ts != [] {
      TallyEmpty(ts[1..]);
    }
  }

  lemma {:induction false} TotalEdgesFor(source: string, ts: seq<string>, all: seq<string>)
    ensures Total(EdgesFor(source, ts, all)) == Tally(ts, all)
  {
    if ts != [] {
      TotalEdgesFor(source, ts[1..], all);
    }
  }

  /** The counts of a source's edges add up to its number of references: every reference is counted once. */
  lemma SourceEdgesTotal(source: string, refs: seq<CrossRef>)
    ensures Total(SourceEdges(source, refs)) == |refs|
  {
    var all := TargetSheets(refs);
    TotalEdgesFor(source, Dedup(all), all);
    TallyAll(Dedup(all), all);
  }

  lemma {:induction false} FlattenMembers<A, B>(xs: seq<A>, f: A -> seq<B>, y: B)
    ensures y in Flatten(xs, f) <==> exists i :: 0 <= i < |xs| && y in f(xs[i])
  {
    if xs != [] {
      var n := |xs| - 1;
      var init := xs[..n];
      FlattenMembers(init, f, y);
      if y in Flatten(xs, f) && y !in f(xs[n]) {
        var i :| 0 <= i < |init| && y in f(init[i]);
        assert init[i] == xs[i];
      }
      if exists i :: 0 <= i < |xs| && y in f(xs[i]) {
        var i :| 0 <= i < |xs| && y in f(xs[i]);
        if i < n {
          assert init[i] == xs[i];
        }
      }
    }
  }

  /** Every edge of the graph is an edge of one entry of `cross_references`, and the other way round. */
  lemma EdgesOfMembers(crossReferences: Dict<string, seq<CrossRef>>, e: GraphEdge)
    ensures e in EdgesOf(crossReferences)
            <==> exists i :: 0 <= i < |crossReferences| && e in SourceEdges(crossReferences[i].0, crossReferences[i].1)
  {
    FlattenMembers(crossReferences, EntryEdges, e);
  }

  // ---------------------------------------------------------------------
  // The graph as the analyser builds it

  /** `generate_dependency_graph`: the node loop, the edge loop, then the levels. */
  method GenerateDependencyGraph(wb: WorkbookData) returns (g: DependencyGraph)
    ensures g == GraphOf(wb)
  {
    var nodes: seq<GraphNode> := [];
    for i := 0 to |wb.sheets|
      invariant nodes == NodesOf(wb.sheets[..i])
    {
      assert wb.sheets[..i + 1][..i] == wb.sheets[..i];
      nodes := nodes + [NodeOf(wb.sheets[i])];
    }
    assert wb.sheets[..|wb.sheets|] == wb.sheets;
    var edges: seq<GraphEdge> := [];
    for i := 0 to |wb.crossReferences|
      invariant edges == EdgesOf(wb.crossReferences[..i])
    {
      var (source, refs) := wb.crossReferences[i];
      var more := EdgesFrom(source, refs);
      assert wb.crossReferences[..i + 1][..i] == wb.crossReferences[..i];
      assert more == EntryEdges(wb.crossReferences[i]);
      edges := edges + more;
    }
    assert wb.crossReferences[..|wb.crossReferences|] == wb.crossReferences;
    var levels := CalculateProcessingOrder(wb.dependencies);
    g := DependencyGraph(nodes, edges, levels);
  }

  /** The edges of one source: collect its target set, then count the references to each target. */
  method EdgesFrom(source: string, refs: seq<CrossRef>) returns (edges: seq<GraphEdge>)
    ensures edges == SourceEdges(source, refs)
  {
    var targets := TargetSet(refs);
    var all := TargetSheets(refs);
    edges := [];
    for k := 0 to |targets|
      invariant edges == EdgesFor(source, targets[..k], all)
    {
      EdgesForSnoc(source, targets[..k], targets[k], all);
      assert targets[..k + 1] == targets[..k] + [targets[k]];
      edges := edges + [GraphEdge(source, targets[k], Count(all, targets[k]))];
    }
    assert targets[..|targets|] == targets;
  }

  /** `targets = set(); targets.add(ref['target_sheet'])` for each reference. */
  method TargetSet(refs: seq<CrossRef>) returns (targets: seq<string>)
    ensures targets == Dedup(TargetSheets(refs))
  {
    targets := [];
    for j := 0 to |refs|
      invariant targets == Dedup(TargetSheets(refs[..j]))
    {
      assert refs[..j + 1][..j] == refs[..j];
      DedupSnoc(TargetSheets(refs[..j]), refs[j].targetSheet);
      if refs[j].targetSheet !in targets {
        targets := targets + [refs[j].targetSheet];
      }
    }
    assert refs[..|refs|] == refs;
  }

  lemma EdgesForSnoc(source: string, ts: seq<string>, t: string, all: seq<string>)
    ensures EdgesFor(source, ts + [t], all) == EdgesFor(source, ts, all) + [GraphEdge(source, t, Count(all, t))]
  {
    var l := EdgesFor(source, ts + [t], all);
    var r := EdgesFor(source, ts, all) + [GraphEdge(source, t, Count(all, t))];
    assert |l| == |r|;
    forall i | 0 <= i < |l| ensures l[i] == r[i] {
      if i < |ts| {
        assert (ts + [t])[i] == ts[i];
      }
    }
  }

  // ---------------------------------------------------------------------
  // Suggestions

  /** `{'tipo': ..., 'descricao': ..., 'impacto': ..., 'solucao': ...}`. */
  datatype Suggestion = Suggestion(kind: string, description: string, impact: string, solution: string)

  const CircularKind := "dependencia_circular"
  const ComplexityKind := "alta_complexidade"
  const ReferencesKind := "excesso_referencias"

  function CircularSuggestion(cycle: seq<string>): Suggestion
  {
    Suggestion(CircularKind, "Dependências circulares detectadas: " + Join(cycle, " -> "),
               "alto", "Reestruturar cálculos para eliminar referências circulares")
  }

  function ComplexitySuggestion(sheet: string, n: nat): Suggestion
  {
    Suggestion(ComplexityKind, "Sheet '" + sheet + "' tem " + NatToString(n) + " dependências",
               "medio", "Considerar consolidar ou simplificar cálculos")
  }

  function ReferencesSuggestion(sheet: string, n: nat): Suggestion
  {
    Suggestion(ReferencesKind, "Sheet '" + sheet + "' tem " + NatToString(n) + " referências externas",
               "medio", "Considerar usar tabelas auxiliares locais")
  }

  /** One suggestion, made by `make` from the key and the length, for each entry whose list is longer than `limit`. */
  function Flagged<V>(d: Dict<string, seq<V>>, limit: nat, make: (string, nat) -> Suggestion): seq<Suggestion>
  {
    if d == [] then []
    else
      var last := d[|d| - 1];
      Flagged(d[..|d| - 1], limit, make) + (if |last.1| > limit then [make(last.0, |last.1|)] else [])
  }

  /**
   * `suggest_optimizations(workbook_data)`: the circular dependency first when
   * the search returns one, then the sheets with more than 5 dependencies,
   * then those with more than 20 outgoing references. The search's failure
   * (`path.index`'s ValueError, carried as the node) is the call's failure.
   */
  function Suggestions(wb: WorkbookData, propagate: bool): Result<seq<Suggestion>, string>
  {
    match DetectCircular(wb.dependencies, propagate)
    case Err(missing) => Err(missing)
    case Ok(circular) =>
      Ok((if circular != [] then [CircularSuggestion(circular)] else [])
         + Flagged(wb.dependencies, 5, ComplexitySuggestion)
         + Flagged(wb.crossReferences, 20, ReferencesSuggestion))
  }

  lemma {:induction false} FlaggedMembers<V>(d: Dict<string, seq<V>>, limit: nat, make: (string, nat) -> Suggestion,
                                             s: Suggestion)
    ensures s in Flagged(d, limit, make) <==> exists e :: e in d && |e.1| > limit && s == make(e.0, |e.1|)
  {
    if d != [] {
      var n := |d| - 1;
      var init, last := d[..n], d[n];
      assert forall e :: e in d <==> e in init || e == last by {
        assert d == init + [last];
      }
      FlaggedMembers(init, limit, make, s);
    }
  }

  /**
   * What the list holds: the circular-dependency suggestion exactly when the
   * search returns a non-empty list, and that list is a cycle; a complexity
   * suggestion exactly for each sheet with more than 5 dependencies; a
   * references suggestion exactly for each sheet with more than 20 references.
   */
  lemma SuggestionsMembers(wb: WorkbookData, propagate: bool, s: Suggestion)
    requires Suggestions(wb, propagate).Ok?
    ensures DetectCircular(wb.dependencies, propagate).Ok?
    ensures var circular := DetectCircular(wb.dependencies, propagate).value;
      s.kind == CircularKind ==>
        (s in Suggestions(wb, propagate).value <==> circular != [] && s == CircularSuggestion(circular))
    ensures var circular := DetectCircular(wb.dependencies, propagate).value;
      circular != [] ==> IsCycle(wb.dependencies, circular)
    ensures s.kind == ComplexityKind ==>
      (s in Suggestions(wb, propagate).value
       <==> exists e :: e in wb.dependencies && |e.1| > 5 && s == ComplexitySuggestion(e.0, |e.1|))
    ensures s.kind == ReferencesKind ==>
      (s in Suggestions(wb, propagate).value
       <==> exists e :: e in wb.crossReferences && |e.1| > 20 && s == ReferencesSuggestion(e.0, |e.1|))
  {
    var circular := DetectCircular(wb.dependencies, propagate).value;
    var head := if circular != [] then [CircularSuggestion(circular)] else [];
    var complex := Flagged(wb.dependencies, 5, ComplexitySuggestion);
    var refs := Flagged(wb.crossReferences, 20, ReferencesSuggestion);
    assert Suggestions(wb, propagate).value == head + complex + refs;
    DetectCircularSound(wb.dependencies, propagate);
    FlaggedMembers(wb.dependencies, 5, ComplexitySuggestion, s);
    FlaggedMembers(wb.crossReferences, 20, ReferencesSuggestion, s);
    assert s in complex ==> s.kind == ComplexityKind;
    assert s in refs ==> s.kind == ReferencesKind;
  }

  /** Handing the cycle up, the suggestions never fail. */
  lemma CorrectedSuggestionsSucceed(wb: WorkbookData)
    ensures Suggestions(wb, true).Ok?
  {
    PropagatingNeverRaises(wb.dependencies);
  }

  /**
   * As written, the dependency map of an analysed workbook never yields a
   * circular-dependency suggestion, whatever references its formulas make:
   * no sheet depends on itself, and a longer cycle is dropped by the search.
   */
  lemma AnalysedWorkbookNoCycleSuggestion(sheets: Dict<string, SheetData>)
    ensures var r := Suggestions(Analyze(Extract, sheets), false);
      r.Ok? ==> forall s :: s in r.value ==> s.kind != CircularKind
  {
    var wb := Analyze(Extract, sheets);
    forall n: string
      ensures n !in Neighbors(wb.dependencies, n)
    {
      AnalyzeDependencies(sheets, n, n);
    }
    NoSelfLinkNoCycle(wb.dependencies);
    if Suggestions(wb, false).Ok? {
      forall s | s in Suggestions(wb, false).value
        ensures s.kind != CircularKind
      {
        SuggestionsMembers(wb, false, s);
      }
    }
  }

  /** `suggest_optimizations`: the search, then one loop per kind of suggestion. */
  method SuggestOptimizations(wb: WorkbookData, propagate: bool) returns (r: Result<seq<Suggestion>, string>)
    ensures r == Suggestions(wb, propagate)
  {
    var circular := DetectCircularDependencies(wb.dependencies, propagate);
    if circular.Err? {
      return Err(circular.error);
    }
    var suggestions: seq<Suggestion> := [];
    if circular.value != [] {
      suggestions := [CircularSuggestion(circular.value)];
    }
    suggestions := FlagLong(suggestions, wb.dependencies, 5, ComplexitySuggestion);
    suggestions := FlagLong(suggestions, wb.crossReferences, 20, ReferencesSuggestion);
    r := Ok(suggestions);
  }

  /** One of the loops of `suggest_optimizations`: a suggestion for each entry whose list is longer than `limit`. */
  method FlagLong<V>(suggestions0: seq<Suggestion>, d: Dict<string, seq<V>>, limit: nat, make: (string, nat) -> Suggestion)
    returns (suggestions: seq<Suggestion>)
    ensures suggestions == suggestions0 + Flagged(d, limit, make)
  {
    suggestions := suggestions0;
    for i := 0 to |d|
      invariant suggestions == suggestions0 + Flagged(d[..i], limit, make)
    {
      assert d[..i + 1][..i] == d[..i];
      var (sheet, items) := d[i];
      if |items| > limit {
        AppendAssoc(suggestions0, Flagged(d[..i], limit, make), [make(sheet, |items|)]);
        suggestions := suggestions + [make(sheet, |items|)];
      } else {
        AppendEmpty(Flagged(d[..i], limit, make));
      }
    }
    assert d[..|d|] == d;
  }
}
