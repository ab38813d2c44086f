/**
 * The cross-sheet analyser's search for circular dependencies: a depth-first
 * search over the dependency map that marks nodes as visited and as on the
 * recursion stack and keeps the current path. One flag selects between the
 * search as written, where a cycle found below the root of a search comes back
 * only as `True` and is dropped, and the search that hands the cycle up.
 */
module CrossSheetCycles {
  import opened Wrappers
  import opened Text
  import opened Assoc

  /** A dependency map: node to the nodes it leads to. */
  type Graph = Dict<string, seq<string>>

  /** `dependencies.get(node, [])`. */
  function Neighbors(deps: Graph, node: string): seq<string>
  {
    GetOr(deps, node, [])
  }

  /** Every key of the map and every member of a value. */
  function Nodes(deps: Graph): set<string>
  {
    if deps == [] then {}
    else
      var first := deps[0];
      {first.0} + (set x | x in first.1) + Nodes(deps[1..])
  }

  lemma {:induction false} NeighborsInNodes(deps: Graph, node: string, x: string)
    requires x in Neighbors(deps, node)
    ensures x in Nodes(deps)
  {
    if deps[0].0 != node {
      assert Neighbors(deps, node) == Neighbors(deps[1..], node);
      NeighborsInNodes(deps[1..], node, x);
    }
  }

  lemma {:induction false} KeyInNodes(deps: Graph, i: nat)
    requires i < |deps|
    ensures deps[i].0 in Nodes(deps)
  {
    if i > 0 {
      KeyInNodes(deps[1..], i - 1);
    }
  }

  /** Consecutive nodes of `path` are linked. */
  predicate Chain(deps: Graph, path: seq<string>) {
    forall i :: 0 <= i < |path| - 1 ==> path[i + 1] in Neighbors(deps, path[i])
  }

  /** `p` is a cycle: consecutive nodes are linked and the last links back to the first. */
  predicate IsCycle(deps: Graph, p: seq<string>) {
    p != [] && Chain(deps, p) && p[0] in Neighbors(deps, p[|p| - 1])
  }

  /** The search state: `visited`, the nodes marked on the recursion stack, `path`, and the nodes entered so far. */
  datatype Search = Search(visited: set<string>, recStack: set<string>, path: seq<string>, trace: seq<string>)

  /** What `has_cycle` gives back: False, True, a cycle list, or the ValueError of `path.index` for a node. */
  datatype Outcome = Done | Detected | Cycle(nodes: seq<string>) | Raised(missing: string)

  /** `path.pop()`. */
  function Pop(path: seq<string>): seq<string>
  {
    if path == [] then [] else path[..|path| - 1]
  }

  /** `path.index(x)`: the first position of `x`. */
  function IndexOf(path: seq<string>, x: string): (k: nat)
    requires x in path
    ensures k < |path| && path[k] == x && forall m :: 0 <= m < k ==> path[m] != x
  {
    if path[0] == x then 0 else 1 + IndexOf(path[1..], x)
  }

  /** `has_cycle(node, ...)`: enter `node`, then scan its neighbours. */
  function Enter(deps: Graph, propagate: bool, st: Search, node: string): (r: (Outcome, Search))
    requires node in Nodes(deps) && node !in st.visited
    ensures st.visited + {node} <= r.1.visited
    decreases Nodes(deps) - (st.visited + {node}), 1
  {
    var inner := Search(st.visited + {node}, st.recStack + {node}, st.path + [node], st.trace + [node]);
    ScanNeighbors(deps, propagate, node, Neighbors(deps, node), 0, inner)
  }

  /** The loop of `has_cycle` over the neighbours `ns` of `node`, from the `i`-th on. */
  function ScanNeighbors(deps: Graph, propagate: bool, node: string, ns: seq<string>, i: nat, st: Search): (r: (Outcome, Search))
    requires i <= |ns| && ns == Neighbors(deps, node)
    ensures st.visited <= r.1.visited
    decreases Nodes(deps) - st.visited, 0, |ns| - i
  {
    if i == |ns| then (Done, Search(st.visited, st.recStack - {node}, Pop(st.path), st.trace))
    else
      var next := ns[i];
      if next !in st.visited then
        NeighborsInNodes(deps, node, next);
        var (r, after) := Enter(deps, propagate, st, next);
        match r
        case Done => ScanNeighbors(deps, propagate, node, ns, i + 1, after)
        case Cycle(p) => if propagate then (r, after) else (Detected, after)
        case Detected => (Detected, after)
        case Raised(_) => (r, after)
      else if next in st.recStack then
        if next in st.path then (Cycle(st.path[IndexOf(st.path, next)..]), st) else (Raised(next), st)
      else ScanNeighbors(deps, propagate, node, ns, i + 1, st)
  }

  /** The outer loop over the keys of the map, from the `i`-th on: a fresh path for each key not yet visited. */
  function DetectFrom(deps: Graph, propagate: bool, i: nat, st: Search): Result<seq<string>, string>
    requires i <= |deps|
    decreases |deps| - i
  {
    if i == |deps| then Ok([])
    else
      var node := deps[i].0;
      if node in st.visited then DetectFrom(deps, propagate, i + 1, st)
      else
        KeyInNodes(deps, i);
        var (r, after) := Enter(deps, propagate, st.(path := []), node);
        match r
        case Cycle(p) => Ok(p)
        case Raised(missing) => Err(missing)
        case _ => DetectFrom(deps, propagate, i + 1, after)
  }

  /** `_detect_circular_dependencies(deps)`: the cycle found, [] when none, or the node `path.index` fails on. */
  function DetectCircular(deps: Graph, propagate: bool): Result<seq<string>, string>
  {
    DetectFrom(deps, propagate, 0, Search({}, {}, [], []))
  }

  // ---------------------------------------------------------------------
  // What the search keeps true

  /**
   * The nodes entered so far have no repeats and are the visited ones; the
   * stack marks and the path lie among the visited nodes; the path has no
   * repeats and follows the links.
   */
  ghost predicate Valid(deps: Graph, st: Search) {
    NoDup(st.trace) && (forall x :: x in st.trace <==> x in st.visited)
    && st.recStack <= st.visited
    && NoDup(st.path) && (forall x :: x in st.path ==> x in st.visited)
    && Chain(deps, st.path)
  }

  /** `node` may be entered from the end of `path`. */
  predicate Linked(deps: Graph, path: seq<string>, node: string) {
    path == [] || node in Neighbors(deps, path[|path| - 1])
  }

  /** A node is on the stack exactly when it is on the path. */
  ghost predicate InSync(st: Search) {
    forall x :: x in st.recStack <==> x in st.path
  }

  lemma EnterValid(deps: Graph, st: Search, node: string)
    requires node !in st.visited && Valid(deps, st) && Linked(deps, st.path, node)
    ensures Valid(deps, Search(st.visited + {node}, st.recStack + {node}, st.path + [node], st.trace + [node]))
  {
    var path := st.path + [node];
    assert Chain(deps, path) by {
      forall i | 0 <= i < |path| - 1 ensures path[i + 1] in Neighbors(deps, path[i]) {
        if i < |path| - 2 {
          assert path[i] == st.path[i] && path[i + 1] == st.path[i + 1];
        }
      }
    }
  }

  /** A cycle closed by the link from the end of `path` back to one of its nodes. */
  lemma ClosedCycle(deps: Graph, path: seq<string>, next: string)
    requires path != [] && Chain(deps, path) && next in path && next in Neighbors(deps, path[|path| - 1])
    ensures IsCycle(deps, path[IndexOf(path, next)..])
  {
    var p := path[IndexOf(path, next)..];
    assert Chain(deps, p) by {
      forall i | 0 <= i < |p| - 1 ensures p[i + 1] in Neighbors(deps, p[i]) {
        assert p[i] == path[IndexOf(path, next) + i];
      }
    }
  }

  lemma PopValid(deps: Graph, st: Search, node: string)
    requires Valid(deps, st) && st.path != [] && st.path[|st.path| - 1] == node
    ensures Valid(deps, Search(st.visited, st.recStack - {node}, Pop(st.path), st.trace))
    ensures InSync(st) ==> InSync(Search(st.visited, st.recStack - {node}, Pop(st.path), st.trace))
  {
    var popped := Pop(st.path);
    assert forall k :: 0 <= k < |popped| ==> popped[k] == st.path[k];
    if InSync(st) {
      forall x ensures x in st.recStack - {node} <==> x in popped {
        if x in popped {
          var k :| 0 <= k < |popped| && popped[k] == x;
          assert st.path[k] == x && k != |st.path| - 1;
        }
        if x in st.path && x != node {
          var k :| 0 <= k < |st.path| && st.path[k] == x;
          assert k < |popped|;
        }
      }
    }
  }

  /**
   * What one `has_cycle(node)` call keeps and returns: the state stays
   * valid, a False answer restores the stack marks and the path, a cycle
   * list is a cycle, and, as written, a list only comes from the frame that
   * closes it, so it is a tail of the path there. When cycles are handed up
   * and the marks match the path, no ValueError and no bare True occur.
   */
  lemma {:induction false} EnterFacts(deps: Graph, propagate: bool, st: Search, node: string)
    requires node in Nodes(deps) && node !in st.visited
    requires Valid(deps, st) && Linked(deps, st.path, node)
    ensures var (r, after) := Enter(deps, propagate, st, node);
      Valid(deps, after)
      && (r == Done ==> after.path == st.path && after.recStack == st.recStack)
      && (r.Cycle? ==> IsCycle(deps, r.nodes))
      && (r.Cycle? && !propagate ==> exists k :: 0 <= k <= |st.path| && r.nodes == (st.path + [node])[k..])
      && (propagate && InSync(st) ==> !r.Raised? && !r.Detected?)
    decreases Nodes(deps) - (st.visited + {node}), 1
  {
    var inner := Search(st.visited + {node}, st.recStack + {node}, st.path + [node], st.trace + [node]);
    EnterValid(deps, st, node);
    ScanFacts(deps, propagate, node, Neighbors(deps, node), 0, inner);
    assert Pop(inner.path) == st.path;
  }

  lemma {:induction false} ScanFacts(deps: Graph, propagate: bool, node: string, ns: seq<string>, i: nat, st: Search)
    requires i <= |ns| && ns == Neighbors(deps, node)
    requires Valid(deps, st) && st.path != [] && st.path[|st.path| - 1] == node && node in st.recStack
    ensures var (r, after) := ScanNeighbors(deps, propagate, node, ns, i, st);
      Valid(deps, after)
      && (r == Done ==> after.path == Pop(st.path) && after.recStack == st.recStack - {node})
      && (r.Cycle? ==> IsCycle(deps, r.nodes))
      && (r.Cycle? && !propagate ==> exists k :: 0 <= k < |st.path| && r.nodes == st.path[k..])
      && (propagate && InSync(st) ==> !r.Raised? && !r.Detected?)
    decreases Nodes(deps) - st.visited, 0, |ns| - i
  {
    if i == |ns| {
      PopValid(deps, st, node);
    } else {
      var next := ns[i];
      if next !in st.visited {
        NeighborsInNodes(deps, node, next);
        EnterFacts(deps, propagate, st, next);
        var (r, after) := Enter(deps, propagate, st, next);
        if r == Done {
          ScanFacts(deps, propagate, node, ns, i + 1, after);
        }
      } else if next in st.recStack {
        if next in st.path {
          ClosedCycle(deps, st.path, next);
        }
      } else {
        ScanFacts(deps, propagate, node, ns, i + 1, st);
      }
    }
  }

  lemma {:induction false} DetectFromFacts(deps: Graph, propagate: bool, i: nat, st: Search)
    requires i <= |deps| && Valid(deps, st.(path := []))
    requires propagate ==> st.recStack == {}
    ensures var r := DetectFrom(deps, propagate, i, st);
      (r.Ok? && r.value != [] ==> IsCycle(deps, r.value))
      && (!propagate && r.Ok? && r.value != [] ==> |r.value| == 1)
      && (propagate ==> r.Ok?)
    decreases |deps| - i
  {
    if i < |deps| {
      var node := deps[i].0;
      if node in st.visited {
        DetectFromFacts(deps, propagate, i + 1, st);
      } else {
        var start := st.(path := []);
        KeyInNodes(deps, i);
        EnterFacts(deps, propagate, start, node);
        var (r, after) := Enter(deps, propagate, start, node);
        if !r.Cycle? && !r.Raised? {
          DetectFromFacts(deps, propagate, i + 1, after);
        } else if r.Cycle? && !propagate {
          var k :| 0 <= k <= 0 && r.nodes == (start.path + [node])[k..];
          assert r.nodes == [node];
        }
      }
    }
  }

  /** Any non-empty list the search returns is a cycle of the map. */
  lemma DetectCircularSound(deps: Graph, propagate: bool)
    ensures var r := DetectCircular(deps, propagate);
      r.Ok? && r.value != [] ==> IsCycle(deps, r.value)
  {
    DetectFromFacts(deps, propagate, 0, Search({}, {}, [], []));
  }

  /**
   * As written, the only cycle ever returned is a single node that lists
   * itself: a longer cycle is found below the root of its search and dropped.
   */
  lemma DetectCircularLossy(deps: Graph)
    ensures var r := DetectCircular(deps, false);
      r.Ok? && r.value != [] ==> |r.value| == 1 && r.value[0] in Neighbors(deps, r.value[0])
  {
    DetectFromFacts(deps, false, 0, Search({}, {}, [], []));
  }

  /** As written, a map in which no node lists itself never gets a cycle reported. */
  lemma NoSelfLinkNoCycle(deps: Graph)
    requires forall n :: n !in Neighbors(deps, n)
    ensures DetectCircular(deps, false) == Ok([]) || DetectCircular(deps, false).Err?
  {
    DetectCircularLossy(deps);
  }

  /** Handing the cycle up, no stack mark outlives its search, so `path.index` never fails. */
  lemma PropagatingNeverRaises(deps: Graph)
    ensures DetectCircular(deps, true).Ok?
  {
    DetectFromFacts(deps, true, 0, Search({}, {}, [], []));
  }

  // ---------------------------------------------------------------------
  // The search as the analyser runs it: `visited`, `rec_stack` and `path`
  // are shared by every call and updated in place.

  class CycleSearch {
    const deps: Graph
    const propagate: bool
    var visited: set<string>
    var recStack: set<string>
    var path: seq<string>
    ghost var trace: seq<string>

    ghost function State(): Search
      reads this
    {
      Search(visited, recStack, path, trace)
    }

    constructor(deps: Graph, propagate: bool)
      ensures this.deps == deps && this.propagate == propagate
      ensures State() == Search({}, {}, [], [])
    {
      this.deps := deps;
      this.propagate := propagate;
      visited := {};
      recStack := {};
      path := [];
      trace := [];
    }

    /** `has_cycle(node, visited, rec_stack, path)`. */
    method HasCycle(node: string) returns (r: Outcome)
      requires node in Nodes(deps) && node !in visited
      modifies this
      ensures (r, State()) == Enter(deps, propagate, old(State()), node)
      decreases Nodes(deps) - (visited + {node})
    {
      visited := visited + {node};
      recStack := recStack + {node};
      path := path + [node];
      trace := trace + [node];
      var ns := Neighbors(deps, node);
      ghost var inner := State();
      var i := 0;
      while i < |ns|
        invariant i <= |ns|
        invariant old(visited) + {node} <= visited
        invariant ScanNeighbors(deps, propagate, node, ns, 0, inner) == ScanNeighbors(deps, propagate, node, ns, i, State())
      {
        var next := ns[i];
        ghost var before := State();
        if next !in visited {
          NeighborsInNodes(deps, node, next);
          var res := HasCycle(next);
          assert (res, State()) == Enter(deps, propagate, before, next);
          match res
          case Done =>
            assert ScanNeighbors(deps, propagate, node, ns, i, before) == ScanNeighbors(deps, propagate, node, ns, i + 1, State());
          case Cycle(_) =>
            r := if propagate then res else Detected;
            assert ScanNeighbors(deps, propagate, node, ns, i, before) == (r, State());
            return;
          case Detected =>
            assert ScanNeighbors(deps, propagate, node, ns, i, before) == (Detected, State());
            return Detected;
          case Raised(_) =>
            assert ScanNeighbors(deps, propagate, node, ns, i, before) == (res, State());
            return res;
        } else if next in recStack {
          if next in path {
            r := Cycle(path[IndexOf(path, next)..]);
            assert ScanNeighbors(deps, propagate, node, ns, i, before) == (r, State());
            return;
          }
          assert ScanNeighbors(deps, propagate, node, ns, i, before) == (Raised(next), State());
          return Raised(next);
        }
        i := i + 1;
      }
      path := Pop(path);
      recStack := recStack - {node};
      r := Done;
    }
  }

  /** `_detect_circular_dependencies(dependencies)`: a fresh path for each key not yet visited. */
  method DetectCircularDependencies(deps: Graph, propagate: bool) returns (r: Result<seq<string>, string>)
    ensures r == DetectCircular(deps, propagate)
  {
    var search := new CycleSearch(deps, propagate);
    var i := 0;
    while i < |deps|
      invariant i <= |deps|
      invariant DetectCircular(deps, propagate) == DetectFrom(deps, propagate, i, search.State())
    {
      var node := deps[i].0;
      if node !in search.visited {
        KeyInNodes(deps, i);
        search.path := [];
        var res := search.HasCycle(node);
        match res
        case Cycle(p) =>
          return Ok(p);
        case Raised(missing) =>
          return Err(missing);
        case _ =>
      }
      i := i + 1;
    }
    r := Ok([]);
  }

  // ---------------------------------------------------------------------
  // Two maps the analyser can build

  lemma RingNeighbors(deps: Graph)
    requires deps == [("A", ["B"]), ("B", ["A"])]
    ensures Neighbors(deps, "A") == ["B"] && Neighbors(deps, "B") == ["A"]
  {
    assert deps[1..] == [("B", ["A"])];
    assert Get(deps, "A") == Some(["B"]);
    assert Get(deps[1..], "B") == Some(["A"]);
    assert Get(deps, "B") == Some(["A"]);
  }

  /** Entering A of the ring A -> B -> A closes the cycle [A, B] two frames down. */
  lemma RingSearch(deps: Graph, propagate: bool)
    requires deps == [("A", ["B"]), ("B", ["A"])]
    ensures var root := Search({"A", "B"}, {"A", "B"}, ["A", "B"], ["A", "B"]);
      Enter(deps, propagate, Search({}, {}, [], []), "A")
      == (if propagate then Cycle(["A", "B"]) else Detected, root)
  {
    RingNeighbors(deps);
    var inner1 := Search({"A"}, {"A"}, ["A"], ["A"]);
    var inner2 := Search({"A", "B"}, {"A", "B"}, ["A", "B"], ["A", "B"]);
    assert IndexOf(["A", "B"], "A") == 0;
    assert ScanNeighbors(deps, propagate, "B", ["A"], 0, inner2) == (Cycle(["A", "B"]), inner2);
    assert Search({} + {"A"}, {} + {"A"}, [] + ["A"], [] + ["A"]) == inner1;
    assert Search(inner1.visited + {"B"}, inner1.recStack + {"B"}, inner1.path + ["B"], inner1.trace + ["B"]) == inner2;
    assert Enter(deps, propagate, inner1, "B") == (Cycle(["A", "B"]), inner2);
    assert ScanNeighbors(deps, propagate, "A", ["B"], 0, inner1) == (if propagate then Cycle(["A", "B"]) else Detected, inner2);
  }

  /** As written, the two-sheet cycle A -> B -> A is not reported. */
  lemma RingMissed(deps: Graph)
    requires deps == [("A", ["B"]), ("B", ["A"])]
    ensures DetectCircular(deps, false) == Ok([])
  {
    RingSearch(deps, false);
    var after := Search({"A", "B"}, {"A", "B"}, ["A", "B"], ["A", "B"]);
    assert DetectFrom(deps, false, 1, after) == Ok([]);
  }

  /** Handing the cycle up reports it. */
  lemma RingReported(deps: Graph)
    requires deps == [("A", ["B"]), ("B", ["A"])]
    ensures DetectCircular(deps, true) == Ok(["A", "B"])
  {
    RingSearch(deps, true);
  }

  lemma StaleNeighbors(deps: Graph)
    requires deps == [("B", ["A"]), ("C", ["A"]), ("A", ["B"])]
    ensures Neighbors(deps, "A") == ["B"] && Neighbors(deps, "B") == ["A"] && Neighbors(deps, "C") == ["A"]
  {
    assert deps[1..] == [("C", ["A"]), ("A", ["B"])] && deps[1..][1..] == [("A", ["B"])];
    assert Get(deps, "B") == Some(["A"]);
    assert Get(deps, "C") == Some(["A"]);
    assert deps[1..][1..][0] == ("A", ["B"]);
    assert Get(deps[1..][1..], "A") == Some(["B"]);
    assert Get(deps, "A") == Some(["B"]);
  }

  /** Entering A below B finds B on the path: the cycle [B, A]. */
  lemma StaleInnerFrame(deps: Graph, propagate: bool)
    requires deps == [("B", ["A"]), ("C", ["A"]), ("A", ["B"])]
    ensures var inner1 := Search({"B"}, {"B"}, ["B"], ["B"]);
      var inner2 := Search({"B", "A"}, {"B", "A"}, ["B", "A"], ["B", "A"]);
      Enter(deps, propagate, inner1, "A") == (Cycle(["B", "A"]), inner2)
  {
    StaleNeighbors(deps);
    var inner1 := Search({"B"}, {"B"}, ["B"], ["B"]);
    var inner2 := Search({"B", "A"}, {"B", "A"}, ["B", "A"], ["B", "A"]);
    assert IndexOf(["B", "A"], "B") == 0;
    assert ScanNeighbors(deps, propagate, "A", ["B"], 0, inner2) == (Cycle(["B", "A"]), inner2);
    assert Search(inner1.visited + {"A"}, inner1.recStack + {"A"}, inner1.path + ["A"], inner1.trace + ["A"]) == inner2;
  }

  /** The search from B finds the cycle [B, A] two frames down and leaves A and B marked. */
  lemma StaleFirstRoot(deps: Graph, propagate: bool)
    requires deps == [("B", ["A"]), ("C", ["A"]), ("A", ["B"])]
    ensures var marked := Search({"B", "A"}, {"B", "A"}, ["B", "A"], ["B", "A"]);
      Enter(deps, propagate, Search({}, {}, [], []), "B")
      == (if propagate then Cycle(["B", "A"]) else Detected, marked)
  {
    StaleNeighbors(deps);
    StaleInnerFrame(deps, propagate);
    var inner1 := Search({"B"}, {"B"}, ["B"], ["B"]);
    var inner2 := Search({"B", "A"}, {"B", "A"}, ["B", "A"], ["B", "A"]);
    assert Search({} + {"B"}, {} + {"B"}, [] + ["B"], [] + ["B"]) == inner1;
    assert ScanNeighbors(deps, propagate, "B", ["A"], 0, inner1) == (if propagate then Cycle(["B", "A"]) else Detected, inner2);
  }

  /** The search from C meets A, still marked on the stack but not on the fresh path. */
  lemma StaleSecondRoot(deps: Graph)
    requires deps == [("B", ["A"]), ("C", ["A"]), ("A", ["B"])]
    ensures var marked := Search({"B", "A"}, {"B", "A"}, [], ["B", "A"]);
      Enter(deps, false, marked, "C").0 == Raised("A")
  {
    StaleNeighbors(deps);
    var inner3 := Search({"B", "A", "C"}, {"B", "A", "C"}, ["C"], ["B", "A", "C"]);
    assert "A" !in ["C"];
    assert ScanNeighbors(deps, false, "C", ["A"], 0, inner3) == (Raised("A"), inner3);
  }

  /**
   * The map the analyser builds when sheet A references B and C and sheet B
   * references A: the search from B drops the cycle [B, A] and leaves A and
   * B marked, so the search from C fails on `path.index("A")`.
   */
  lemma StaleMarkRaises(deps: Graph)
    requires deps == [("B", ["A"]), ("C", ["A"]), ("A", ["B"])]
    ensures DetectCircular(deps, false) == Err("A")
  {
    StaleFirstRoot(deps, false);
    StaleSecondRoot(deps);
    var marked := Search({"B", "A"}, {"B", "A"}, ["B", "A"], ["B", "A"]);
    assert DetectFrom(deps, false, 1, marked) == Err("A");
  }

  /** Handing the cycle up reports [B, A] from the first root. */
  lemma StaleMarkReported(deps: Graph)
    requires deps == [("B", ["A"]), ("C", ["A"]), ("A", ["B"])]
    ensures DetectCircular(deps, true) == Ok(["B", "A"])
  {
    StaleFirstRoot(deps, true);
  }
}
