/**
 * The processing order of the cross-sheet analyzer: sheets are placed level
 * by level, each pass taking every remaining sheet whose dependencies are
 * all placed already; a pass that places nothing puts all the remaining
 * sheets into one last level and ends the loop.
 */
module CrossSheetOrder {
  import opened Wrappers
  import opened Text
  import opened Assoc

  /**
   * Sheet name to a set of sheet names, in dict order; each set is listed in
   * the order Python iterates it.
   */
  type SheetDeps = Dict<string, seq<string>>

  /** `dependencies.get(sheet, set())` as a set. */
  function DepSet(deps: SheetDeps, sheet: string): set<string>
  {
    set x | x in GetOr(deps, sheet, [])
  }

  /** `set(dependencies.keys())`. */
  function KeySet(deps: SheetDeps): (r: set<string>)
    ensures forall k :: k in r <==> HasKey(deps, k)
  {
    set k | k in Keys(deps)
  }

  /** Every sheet named in `deps`, as a key or inside a value. */
  function AllSheets(deps: SheetDeps): set<string>
  {
    if deps == [] then {}
    else
      var last := deps[|deps| - 1];
      AllSheets(deps[..|deps| - 1]) + {last.0} + (set x | x in last.1)
  }

  /** The sheets named in `deps` are its keys and the members of its values. */
  lemma {:induction false} AllSheetsMembers(deps: SheetDeps, x: string)
    ensures x in AllSheets(deps) <==> exists i :: 0 <= i < |deps| && (x == deps[i].0 || x in deps[i].1)
  {
    if deps != [] {
      var n := |deps| - 1;
      AllSheetsMembers(deps[..n], x);
      assert forall i :: 0 <= i < n ==> deps[..n][i] == deps[i];
      if x in AllSheets(deps[..n]) {
        var i :| 0 <= i < n && (x == deps[..n][i].0 || x in deps[..n][i].1);
        assert deps[i] == deps[..n][i];
      }
    }
  }

  /** The sheets of `remaining` whose dependencies all lie in `processed`. */
  function Ready(dep: string -> set<string>, remaining: set<string>, processed: set<string>): set<string>
  {
    set s | s in remaining && dep(s) <= processed
  }

  /**
   * The levels the `while` loop of `_calculate_processing_order` appends
   * once `processed` holds the sheets placed so far.
   */
  function LevelsAfter(dep: string -> set<string>, all: set<string>, processed: set<string>): seq<set<string>>
    requires processed <= all
    decreases |all - processed|
  {
    if |processed| < |all| then
      var ready := Ready(dep, all - processed, processed);
      if ready != {} then
        Shrinks(all, processed, ready);
        [ready] + LevelsAfter(dep, all, processed + ready)
      else [all - processed]
    else []
  }

  /** Placing a non-empty set of unplaced sheets leaves fewer to place. */
  lemma Shrinks(all: set<string>, processed: set<string>, ready: set<string>)
    requires ready <= all - processed && ready != {}
    ensures all - (processed + ready) < all - processed
  {
    var s :| s in ready;
    assert s in all - processed && s !in all - (processed + ready);
  }

  /** The dependencies of each sheet (none for a sheet that is not a key). */
  function DepsOf(deps: SheetDeps): string -> set<string>
  {
    s => DepSet(deps, s)
  }

  /** `_calculate_processing_order`: level k of the result is `levels[k]`. */
  function ProcessingOrder(deps: SheetDeps): seq<set<string>>
  {
    var all := AllSheets(deps);
    var level0 := all - KeySet(deps);
    if level0 != {} then [level0] + LevelsAfter(DepsOf(deps), all, level0)
    else LevelsAfter(DepsOf(deps), all, {})
  }

  /** The sheets of the levels, all together. */
  function Union(levels: seq<set<string>>): set<string>
  {
    if levels == [] then {} else levels[0] + Union(levels[1..])
  }

  /** `levels` splits `sheets` into non-empty levels, none sharing a sheet. */
  predicate Partition(levels: seq<set<string>>, sheets: set<string>)
  {
    if levels == [] then sheets == {}
    else levels[0] != {} && levels[0] <= sheets && Partition(levels[1..], sheets - levels[0])
  }

  /** Every sheet of `level` has its dependencies in `before`. */
  predicate PlacedAfter(dep: string -> set<string>, before: set<string>, level: set<string>)
  {
    forall s :: s in level ==> dep(s) <= before
  }

  /** No sheet of `level` has its dependencies in `before`. */
  predicate StalledAfter(dep: string -> set<string>, before: set<string>, level: set<string>)
  {
    forall s :: s in level ==> !(dep(s) <= before)
  }

  /**
   * Each level has the dependencies of its sheets in `before` and the
   * levels ahead of it, except that the last may instead be a level none
   * of whose sheets has.
   */
  predicate Layered(dep: string -> set<string>, before: set<string>, levels: seq<set<string>>)
    decreases |levels|
  {
    if levels == [] then true
    else if |levels| == 1 then PlacedAfter(dep, before, levels[0]) || StalledAfter(dep, before, levels[0])
    else PlacedAfter(dep, before, levels[0]) && Layered(dep, before + levels[0], levels[1..])
  }

  /** Between a set and a superset, the sizes tell whether they are equal. */
  lemma {:induction false} SubsetSize(a: set<string>, b: set<string>)
    requires a <= b
    ensures |a| <= |b|
    ensures |a| < |b| <==> a != b
    decreases |b|
  {
    if a != b {
      var x :| x in b && x !in a;
      SubsetSize(a, b - {x});
    }
  }

  /** The levels still to come partition the unplaced sheets. */
  lemma {:induction false} LevelsAfterPartition(dep: string -> set<string>, all: set<string>, processed: set<string>)
    requires processed <= all
    ensures Partition(LevelsAfter(dep, all, processed), all - processed)
    decreases |all - processed|
  {
    SubsetSize(processed, all);
    if |processed| < |all| {
      var ready := Ready(dep, all - processed, processed);
      if ready != {} {
        Shrinks(all, processed, ready);
        LevelsAfterPartition(dep, all, processed + ready);
        assert (all - processed) - ready == all - (processed + ready);
      } else {
        var r := [all - processed];
        assert r[1..] == [];
      }
    }
  }

  /** The levels still to come are layered on top of the sheets already placed. */
  lemma {:induction false} LevelsAfterLayered(dep: string -> set<string>, all: set<string>, processed: set<string>)
    requires processed <= all
    ensures Layered(dep, processed, LevelsAfter(dep, all, processed))
    decreases |all - processed|
  {
    if |processed| < |all| {
      var ready := Ready(dep, all - processed, processed);
      if ready != {} {
        Shrinks(all, processed, ready);
        LevelsAfterLayered(dep, all, processed + ready);
        TailOfCons(ready, LevelsAfter(dep, all, processed + ready));
      }
    }
  }

  /** A partition puts each sheet in exactly one level. */
  lemma {:induction false} PartitionExactlyOne(levels: seq<set<string>>, sheets: set<string>)
    requires Partition(levels, sheets)
    ensures forall s :: s in sheets <==> exists k :: 0 <= k < |levels| && s in levels[k]
    ensures forall k, l, s :: 0 <= k < l < |levels| && s in levels[k] ==> s !in levels[l]
  {
    if levels != [] {
      var rest := levels[1..];
      PartitionExactlyOne(rest, sheets - levels[0]);
      forall s | s in sheets ensures exists k :: 0 <= k < |levels| && s in levels[k] {
        if s !in levels[0] {
          assert s in sheets - levels[0];
          var k :| 0 <= k < |rest| && s in rest[k];
          assert levels[k + 1] == rest[k];
        }
      }
      forall s, k | 0 <= k < |levels| && s in levels[k] ensures s in sheets {
        if k > 0 {
          assert levels[k] == rest[k - 1];
          assert 0 <= k - 1 < |rest| && s in rest[k - 1];
          assert s in sheets - levels[0];
        }
      }
      forall k, l, s | 0 <= k < l < |levels| && s in levels[k] ensures s !in levels[l] {
        assert levels[l] == rest[l - 1];
        if k > 0 {
          assert levels[k] == rest[k - 1];
        }
      }
    }
  }

  /** In layered levels, every sheet of a level but the last has its dependencies in earlier levels. */
  lemma {:induction false} LayeredEarlier(dep: string -> set<string>, before: set<string>, levels: seq<set<string>>,
                                          k: nat, s: string)
    requires Layered(dep, before, levels) && k < |levels| - 1 && s in levels[k]
    ensures dep(s) <= before + Union(levels[..k])
    decreases k
  {
    if k > 0 {
      LayeredEarlier(dep, before + levels[0], levels[1..], k - 1, s);
      assert levels[..k] == [levels[0]] + levels[1..][..k - 1];
      assert levels[..k][1..] == levels[1..][..k - 1];
    }
  }

  /** Every sheet named in `deps` is in exactly one level, and no level is empty. */
  lemma ProcessingOrderPartition(deps: SheetDeps)
    ensures Partition(ProcessingOrder(deps), AllSheets(deps))
  {
    var all := AllSheets(deps);
    var level0 := all - KeySet(deps);
    if level0 != {} {
      LevelsAfterPartition(DepsOf(deps), all, level0);
      TailOfCons(level0, LevelsAfter(DepsOf(deps), all, level0));
    } else {
      LevelsAfterPartition(DepsOf(deps), all, {});
    }
  }

  /**
   * Level 0 is the set of sheets that are not keys, when there is one; every
   * level but the last has all the dependencies of its sheets in earlier
   * levels, and so has the last unless none of its sheets has.
   */
  lemma ProcessingOrderLevels(deps: SheetDeps)
    ensures var r := ProcessingOrder(deps);
            (AllSheets(deps) - KeySet(deps) != {} ==> |r| > 0 && r[0] == AllSheets(deps) - KeySet(deps))
            && Layered(DepsOf(deps), {}, r)
  {
    var dep := DepsOf(deps);
    var all := AllSheets(deps);
    var level0 := all - KeySet(deps);
    if level0 != {} {
      var rest := LevelsAfter(dep, all, level0);
      assert ProcessingOrder(deps) == [level0] + rest;
      assert PlacedAfter(dep, {}, level0) by {
        forall s | s in level0 ensures dep(s) == {} {
          assert Get(deps, s).None?;
          assert GetOr(deps, s, []) == [];
        }
      }
      LevelsAfterLayered(dep, all, level0);
      assert {} + level0 == level0;
      TailOfCons(level0, rest);
    } else {
      LevelsAfterLayered(dep, all, {});
    }
  }

  /** Three sheets that depend on each other in a ring: none is ever ready, so all land in one final level. */
  lemma CycleOfThreeIsOneLevel(deps: SheetDeps)
    requires deps == [("A", ["B"]), ("B", ["C"]), ("C", ["A"])]
    ensures ProcessingOrder(deps) == [{"A", "B", "C"}]
  {
    var all := AllSheets(deps);
    var dep := DepsOf(deps);
    RingSheets(deps);
    RingDeps(deps);
    assert all - KeySet(deps) == {};
    assert ProcessingOrder(deps) == LevelsAfter(dep, all, {});
    RingNoneReady(dep);
    assert Ready(dep, all - {}, {}) == {};
    assert 0 < |all| by {
      assert "A" in all;
    }
    assert LevelsAfter(dep, all, {}) == [all - {}];
    assert all - {} == {"A", "B", "C"};
  }

  lemma RingNoneReady(dep: string -> set<string>)
    requires dep("A") == {"B"} && dep("B") == {"C"} && dep("C") == {"A"}
    ensures Ready(dep, {"A", "B", "C"} - {}, {}) == {}
  {
    var r := Ready(dep, {"A", "B", "C"} - {}, {});
    forall s | s in r ensures false {
    }
  }

  lemma RingSheets(deps: SheetDeps)
    requires deps == [("A", ["B"]), ("B", ["C"]), ("C", ["A"])]
    ensures AllSheets(deps) == {"A", "B", "C"} && KeySet(deps) == {"A", "B", "C"}
  {
    var d1, d2 := deps[..1], deps[..2];
    assert d2[..1] == d1 && deps[..2] == d2;
    assert d1[..0] == [];
    assert AllSheets(d1) == {"A", "B"};
    assert AllSheets(d2) == {"A", "B", "C"};
    assert Keys(deps) == ["A", "B", "C"];
  }

  lemma RingDeps(deps: SheetDeps)
    requires deps == [("A", ["B"]), ("B", ["C"]), ("C", ["A"])]
    ensures DepSet(deps, "A") == {"B"} && DepSet(deps, "B") == {"C"} && DepSet(deps, "C") == {"A"}
  {
    assert deps[1..] == [("B", ["C"]), ("C", ["A"])] && deps[1..][1..] == [("C", ["A"])];
    assert Get(deps, "A") == Some(["B"]);
    assert Get(deps, "B") == Some(["C"]);
    assert deps[1..][1..][0] == ("C", ["A"]);
    assert Get(deps[1..][1..], "C") == Some(["A"]);
    assert Get(deps, "C") == Some(["A"]);
  }

  /** `_calculate_processing_order`'s ready pass: the remaining sheets whose dependencies are all processed. */
  method ReadySheets(deps: SheetDeps, remaining: set<string>, processed: set<string>)
    returns (ready: set<string>)
    ensures ready == Ready(DepsOf(deps), remaining, processed)
  {
    ready := {};
    var todo := remaining;
    while todo != {}
      invariant todo <= remaining
      invariant ready == Ready(DepsOf(deps), remaining - todo, processed)
      decreases |todo|
    {
      var sheet :| sheet in todo;
      if DepSet(deps, sheet) <= processed {
        ready := ready + {sheet};
      }
      todo := todo - {sheet};
    }
  }

  /** The first loop of `_calculate_processing_order`: every key and every member of a value. */
  method CollectSheets(deps: SheetDeps) returns (allSheets: set<string>)
    ensures allSheets == AllSheets(deps)
  {
    allSheets := {};
    for i := 0 to |deps|
      invariant allSheets == AllSheets(deps[..i])
    {
      assert deps[..i + 1][..i] == deps[..i];
      allSheets := allSheets + {deps[i].0} + (set x | x in deps[i].1);
    }
    assert deps[..|deps|] == deps;
  }

  /** `_calculate_processing_order`. */
  method CalculateProcessingOrder(deps: SheetDeps) returns (levels: seq<set<string>>)
    ensures levels == ProcessingOrder(deps)
  {
    var allSheets := CollectSheets(deps);
    var level0 := allSheets - KeySet(deps);
    var processed: set<string> := {};
    levels := [];
    if level0 != {} {
      levels := [level0];
      processed := level0;
    }
    levels := PlaceLevels(deps, allSheets, processed, levels);
  }

  /** The `while` loop of `_calculate_processing_order`, from the sheets placed before it. */
  method PlaceLevels(deps: SheetDeps, allSheets: set<string>, processed0: set<string>, levels0: seq<set<string>>)
    returns (levels: seq<set<string>>)
    requires processed0 <= allSheets
    ensures levels == levels0 + LevelsAfter(DepsOf(deps), allSheets, processed0)
  {
    ghost var dep := DepsOf(deps);
    var processed := processed0;
    levels := levels0;
    while |processed| < |allSheets|
      invariant processed <= allSheets
      invariant levels + LevelsAfter(dep, allSheets, processed) == levels0 + LevelsAfter(dep, allSheets, processed0)
      decreases |allSheets - processed|
    {
      var ready := ReadySheets(deps, allSheets - processed, processed);
      ghost var rest := LevelsAfter(dep, allSheets, processed);
      if ready != {} {
        Shrinks(allSheets, processed, ready);
        ghost var later := LevelsAfter(dep, allSheets, processed + ready);
        assert rest == [ready] + later;
        AppendAssoc(levels, [ready], later);
        levels := levels + [ready];
        processed := processed + ready;
      } else {
        assert rest == [allSheets - processed];
        levels := levels + [allSheets - processed];
        return;
      }
    }
    assert LevelsAfter(dep, allSheets, processed) == [];
    assert levels + [] == levels;
  }
}
