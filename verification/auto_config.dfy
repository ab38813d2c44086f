/**
 * The configuration generator: from the analysis of each input file it
 * classifies columns, finds the column names shared between files and
 * sheets, suggests key columns, columns to validate, tolerance rules and
 * relationships, and assembles a configuration from the suggestions.
 * Reading CSV and spreadsheet files is not modelled: each file's analysis
 * is an input, and Python's float parsing is a predicate parameter.
 */
module AutoConfig {
  import opened Wrappers
  import opened Text
  import opened Assoc
  import opened Sorting

  // ---------------------------------------------------------------------
  // Column classification

  /** The `type` of a column. */
  datatype ColumnType = Empty | Numeric | Date | Identifier | Textual

  /** The analysis of one column. */
  datatype ColumnAnalysis = ColumnAnalysis(
    kind: ColumnType,                 // 'type'
    nullable: bool,                   // 'nullable'
    uniqueCount: nat,                 // 'unique_count'
    nullCount: nat,                   // 'null_count'
    uniquenessRatio: Option<real>,    // 'uniqueness_ratio', absent for an empty column
    patterns: set<string>,            // 'patterns'
    decimals: Option<nat>,            // 'statistics'['decimals'], numeric columns only
    hasFormulas: bool)                // 'has_formulas'

  /** A value that counts as missing: empty, or white space only. */
  predicate IsBlank(v: string)
  {
    v == "" || Strip(v) == ""
  }

  /** `[v for v in values if v and str(v).strip()]`. */
  function NonEmpty(values: seq<string>): (r: seq<string>)
    ensures |r| <= |values|
    ensures forall v :: v in r <==> v in values && !IsBlank(v)
  {
    if values == [] then []
    else (if IsBlank(values[0]) then [] else [values[0]]) + NonEmpty(values[1..])
  }

  /** A column of blank values keeps nothing. */
  lemma {:induction false} AllBlankDropped(values: seq<string>)
    requires forall v :: v in values ==> IsBlank(v)
    ensures NonEmpty(values) == []
  {
    if values != [] {
      assert values[0] in values;
      assert forall v :: v in values[1..] ==> v in values;
      AllBlankDropped(values[1..]);
    }
  }

  /** `set(xs)`. */
  function Elements(xs: seq<string>): set<string>
  {
    set v | v in xs
  }

  /** A sequence has no more distinct values than elements, at least one when it is not empty, and exactly as many when none repeats. */
  lemma {:induction false} ElementsBounds(xs: seq<string>)
    ensures |Elements(xs)| <= |xs|
    ensures xs != [] ==> |Elements(xs)| >= 1
    ensures NoDup(xs) ==> |Elements(xs)| == |xs|
  {
    if xs != [] {
      var t := xs[1..];
      ElementsBounds(t);
      assert Elements(xs) == {xs[0]} + Elements(t);
      assert xs[0] in Elements(xs);
      if NoDup(xs) {
        assert NoDup(t) by {
          forall i, j | 0 <= i < j < |t| ensures t[i] != t[j] {
            assert xs[i + 1] != xs[j + 1];
          }
        }
        assert xs[0] !in Elements(t) by {
          forall i | 0 <= i < |t| ensures t[i] != xs[0] {
            assert xs[i + 1] != xs[0];
          }
        }
      }
    }
  }

  /** `value.replace(',', '.')`. */
  function CommaToPoint(v: string): (r: string)
    ensures |r| == |v|
    ensures forall i :: 0 <= i < |v| ==> r[i] == if v[i] == ',' then '.' else v[i]
  {
    if v == [] then [] else [if v[0] == ',' then '.' else v[0]] + CommaToPoint(v[1..])
  }

  lemma {:induction false} CommaToPointNoComma(v: string)
    requires !HasChar(v, ',')
    ensures CommaToPoint(v) == v
  {
  }

  /**
   * `_is_numeric`: Python's `float` accepts the value once its commas are
   * points. `parsesFloat` stands for what `float` accepts.
   */
  predicate IsNumeric(parsesFloat: string -> bool, v: string)
  {
    parsesFloat(CommaToPoint(v))
  }

  /** The value fits a layout in which '9' stands for one digit and every other character for itself. */
  predicate FitsLayout(v: string, layout: string)
  {
    |v| == |layout| && forall i :: 0 <= i < |v| ==> if layout[i] == '9' then IsDigit(v[i]) else v[i] == layout[i]
  }

  /** One of the three date layouts: YYYY-MM-DD, DD/MM/YYYY, DD-MM-YYYY. */
  predicate DateLayout(v: string)
  {
    FitsLayout(v, "9999-99-99") || FitsLayout(v, "99/99/9999") || FitsLayout(v, "99-99-9999")
  }

  /** `_is_date`: a date layout, where the anchor `$` also accepts one final newline. */
  predicate IsDate(v: string)
  {
    DateLayout(v) || (|v| > 0 && v[|v| - 1] == '\n' && DateLayout(v[..|v| - 1]))
  }

  /** The three layouts are dates. */
  lemma IsDateLayouts()
    ensures IsDate("2024-01-31") && IsDate("31/01/2024") && IsDate("31-01-2024")
  {
  }

  /** A date followed by one newline still passes. */
  lemma IsDateNewline()
    ensures IsDate("2024-01-31\n")
  {
    var v := "2024-01-31\n";
    assert v[..|v| - 1] == "2024-01-31";
  }

  /** Other separators, orders or widths do not. */
  lemma NotDates()
    ensures !IsDate("2024/01/31") && !IsDate("31.01.2024") && !IsDate("2024-1-31")
  {
    assert !DateLayout("2024/01/31") by {
      assert "2024/01/31"[4] != "9999-99-99"[4] && "2024/01/31"[2] != "99/99/9999"[2];
    }
    assert !DateLayout("31.01.2024") by {
      assert "31.01.2024"[2] != "99/99/9999"[2] && "31.01.2024"[2] != "99-99-9999"[2];
    }
  }

  /** A date has ten characters, or eleven with a final newline. */
  lemma IsDateLength(v: string)
    requires IsDate(v)
    ensures |v| == 10 || (|v| == 11 && v[10] == '\n')
  {
  }

  /** Every non-blank value is numeric. */
  predicate AllNumeric(parsesFloat: string -> bool, vs: seq<string>)
  {
    forall v :: v in vs ==> IsNumeric(parsesFloat, v)
  }

  /** `float(v)` succeeds on every value as it stands. */
  predicate AllParse(parsesFloat: string -> bool, vs: seq<string>)
  {
    forall v :: v in vs ==> parsesFloat(v)
  }

  function AllCommaToPoint(vs: seq<string>): (r: seq<string>)
    ensures |r| == |vs|
    ensures forall i :: 0 <= i < |vs| ==> r[i] == CommaToPoint(vs[i])
  {
    if vs == [] then [] else [CommaToPoint(vs[0])] + AllCommaToPoint(vs[1..])
  }

  /** `unique_count / len(non_empty)`, exactly. */
  function Ratio(u: nat, n: nat): (r: real)
    requires 1 <= u <= n
    ensures 0.0 < r <= 1.0
    ensures r * (n as real) == u as real
  {
    var r := (u as real) / (n as real);
    assert r * (n as real) == u as real;
    r
  }

  /** The error `_analyze_column_data` raises when `float(v)` rejects a value `_is_numeric` accepted. */
  const FloatError := "ValueError: could not convert string to float"

  /** The error `max()` raises when no converted number is written with a '.'. */
  const MaxError := "ValueError: max() arg is an empty sequence"

  /** No converted number is written with a '.' (each is "nan", "inf" or in exponent form). */
  predicate NoPoint(fractionOf: string -> Option<nat>, texts: seq<string>)
  {
    forall i :: 0 <= i < |texts| ==> fractionOf(texts[i]).None?
  }

  /**
   * `max(len(str(n).split('.')[-1]) for n in numbers if '.' in str(n))`;
   * None where `max` gets an empty sequence.
   */
  function MaxFraction(fractionOf: string -> Option<nat>, texts: seq<string>): (r: Option<nat>)
    ensures r.None? <==> NoPoint(fractionOf, texts)
    ensures r.Some? ==> exists i :: 0 <= i < |texts| && fractionOf(texts[i]) == r
    ensures r.Some? ==> forall i :: 0 <= i < |texts| && fractionOf(texts[i]).Some? ==> fractionOf(texts[i]).value <= r.value
  {
    if texts == [] then None
    else
      var rest := MaxFraction(fractionOf, texts[1..]);
      assert forall i :: 1 <= i < |texts| ==> texts[i] == texts[1..][i - 1];
      match fractionOf(texts[0])
      case None => rest
      case Some(d) =>
        if rest.Some? && rest.value > d then rest else Some(d)
  }

  /**
   * The part of the numeric statistics that can raise: `float(v)` of every
   * value (as written, without the comma replacement), then the `max` of
   * the fraction lengths.
   */
  function NumericDecimals(ne: seq<string>, parsesFloat: string -> bool, fractionOf: string -> Option<nat>, intended: bool)
    : (r: Result<nat, string>)
    ensures r.Err? <==> (!intended && !AllParse(parsesFloat, ne)) || NoPoint(fractionOf, Converted(ne, intended))
    ensures r.Err? ==> (r.error == FloatError <==> !intended && !AllParse(parsesFloat, ne))
    ensures r.Err? ==> (r.error == FloatError || r.error == MaxError)
    ensures r.Ok? ==> MaxFraction(fractionOf, Converted(ne, intended)) == Some(r.value)
  {
    if !intended && !AllParse(parsesFloat, ne) then Err(FloatError)
    else
      match MaxFraction(fractionOf, Converted(ne, intended))
      case None => Err(MaxError)
      case Some(d) => Ok(d)
  }

  /** The texts the numeric statistics convert: the values as they stand, or as intended with ',' replaced. */
  function Converted(ne: seq<string>, intended: bool): seq<string>
  {
    if intended then AllCommaToPoint(ne) else ne
  }

  /**
   * `_analyze_column_data`. As written (`intended` false) the numeric
   * statistics convert the values with `float(v)`, without the comma
   * replacement `_is_numeric` applied; as intended they convert the
   * replaced values. `fractionOf(t)` stands for the number of characters
   * after the last '.' of Python's `str(float(t))`, None when that text has
   * no '.'.
   */
  function AnalyzeColumn(values: seq<string>, parsesFloat: string -> bool, fractionOf: string -> Option<nat>, intended: bool)
    : (r: Result<ColumnAnalysis, string>)
    ensures r.Err? <==> NonEmpty(values) != [] && AllNumeric(parsesFloat, NonEmpty(values))
                        && ((!intended && !AllParse(parsesFloat, NonEmpty(values)))
                            || NoPoint(fractionOf, Converted(NonEmpty(values), intended)))
    ensures r.Err? ==> (r.error == FloatError <==> !intended && !AllParse(parsesFloat, NonEmpty(values)))
    ensures r.Err? ==> (r.error == FloatError || r.error == MaxError)
    ensures r.Ok? ==> r.value.nullCount + |NonEmpty(values)| == |values|
    ensures r.Ok? ==> (r.value.nullable <==> r.value.nullCount > 0)
    ensures r.Ok? ==> (r.value.kind == Empty <==> NonEmpty(values) == [])
    ensures r.Ok? ==> (r.value.uniquenessRatio.None? <==> r.value.kind == Empty)
    ensures r.Ok? && r.value.uniquenessRatio.Some? ==>
      0.0 < r.value.uniquenessRatio.value <= 1.0
      && r.value.uniqueCount == |Elements(NonEmpty(values))| && 1 <= r.value.uniqueCount <= |NonEmpty(values)|
      && r.value.uniquenessRatio == Some(Ratio(r.value.uniqueCount, |NonEmpty(values)|))
    ensures r.Ok? ==> (r.value.kind == Numeric <==> NonEmpty(values) != [] && AllNumeric(parsesFloat, NonEmpty(values)))
    ensures r.Ok? ==> (r.value.decimals.Some? <==> r.value.kind == Numeric)
    ensures r.Ok? && r.value.decimals.Some? ==> r.value.decimals == MaxFraction(fractionOf, Converted(NonEmpty(values), intended))
    ensures r.Ok? ==> (r.value.kind == Date <==>
      NonEmpty(values) != [] && !AllNumeric(parsesFloat, NonEmpty(values)) && forall v :: v in NonEmpty(values) ==> IsDate(v))
    ensures r.Ok? && r.value.kind == Identifier ==> r.value.uniquenessRatio.value > 0.9
    ensures r.Ok? && r.value.kind == Textual ==> r.value.uniquenessRatio.value <= 0.9
    ensures r.Ok? && r.value.patterns != {} ==>
      r.value.kind == Textual && r.value.uniqueCount < 10 && r.value.patterns == Elements(NonEmpty(values))
    ensures r.Ok? && r.value.kind == Textual && r.value.uniqueCount < 10 ==> r.value.patterns == Elements(NonEmpty(values))
    ensures r.Ok? ==> !r.value.hasFormulas
  {
    var ne := NonEmpty(values);
    var nulls := |values| - |ne|;
    if ne == [] then
      Ok(ColumnAnalysis(Empty, nulls > 0, 0, nulls, None, {}, None, false))
    else
      ElementsBounds(ne);
      var u := |Elements(ne)|;
      var ratio := Ratio(u, |ne|);
      var base := ColumnAnalysis(Textual, nulls > 0, u, nulls, Some(ratio), {}, None, false);
      if AllNumeric(parsesFloat, ne) then
        match NumericDecimals(ne, parsesFloat, fractionOf, intended)
        case Err(e) => Err(e)
        case Ok(d) => Ok(base.(kind := Numeric, decimals := Some(d)))
      else if forall v :: v in ne ==> IsDate(v) then Ok(base.(kind := Date))
      else if ratio > 0.9 then Ok(base.(kind := Identifier))
      else Ok(base.(patterns := if u < 10 then Elements(ne) else {}))
  }

  /** The decimals of a numeric column are the largest fraction length among its converted values. */
  lemma AnalyzeColumnDecimals(values: seq<string>, parsesFloat: string -> bool, fractionOf: string -> Option<nat>, intended: bool)
    requires AnalyzeColumn(values, parsesFloat, fractionOf, intended).Ok?
    requires AnalyzeColumn(values, parsesFloat, fractionOf, intended).value.kind == Numeric
    ensures var d := AnalyzeColumn(values, parsesFloat, fractionOf, intended).value.decimals;
            var texts := Converted(NonEmpty(values), intended);
            d.Some?
            && (exists i :: 0 <= i < |texts| && fractionOf(texts[i]) == d)
            && forall i :: 0 <= i < |texts| && fractionOf(texts[i]).Some? ==> fractionOf(texts[i]).value <= d.value
  {
    var d := AnalyzeColumn(values, parsesFloat, fractionOf, intended).value.decimals;
    assert d == MaxFraction(fractionOf, Converted(NonEmpty(values), intended));
  }

  /** A column is nullable exactly when it has a blank value, and empty exactly when all its values are blank. */
  lemma AnalyzeColumnBlanks(values: seq<string>, parsesFloat: string -> bool, fractionOf: string -> Option<nat>, intended: bool)
    requires AnalyzeColumn(values, parsesFloat, fractionOf, intended).Ok?
    ensures AnalyzeColumn(values, parsesFloat, fractionOf, intended).value.nullable <==> exists v :: v in values && IsBlank(v)
    ensures AnalyzeColumn(values, parsesFloat, fractionOf, intended).value.kind == Empty <==> forall v :: v in values ==> IsBlank(v)
  {
    var ne := NonEmpty(values);
    NonEmptyKeepsAll(values);
    assert ne != [] ==> ne[0] in ne;
  }

  /**
   * A decimal comma: "1,5" passes `_is_numeric` (as "1.5") but `float("1,5")`
   * raises, so as written the column's analysis fails; as intended it is a
   * numeric column with the decimals of 1.5.
   */
  lemma CommaDecimalRaises(parsesFloat: string -> bool, fractionOf: string -> Option<nat>)
    requires parsesFloat("1.5") && !parsesFloat("1,5") && fractionOf("1.5") == Some(1)
    ensures AnalyzeColumn(["1,5"], parsesFloat, fractionOf, false) == Err(FloatError)
    ensures AnalyzeColumn(["1,5"], parsesFloat, fractionOf, true).Ok?
    ensures AnalyzeColumn(["1,5"], parsesFloat, fractionOf, true).value.kind == Numeric
    ensures AnalyzeColumn(["1,5"], parsesFloat, fractionOf, true).value.decimals == Some(1)
  {
    var v := "1,5";
    assert Strip(v) == v;
    assert NonEmpty([v]) == [v] by {
      assert [v][1..] == [];
    }
    assert CommaToPoint(v) == "1.5";
    assert Converted([v], true) == ["1.5"];
  }

  /**
   * As intended, a column fails only in `max()`: exactly when it is numeric
   * and none of its converted numbers is written with a '.'.
   */
  lemma AnalyzeColumnIntendedOk(values: seq<string>, parsesFloat: string -> bool, fractionOf: string -> Option<nat>)
    ensures AnalyzeColumn(values, parsesFloat, fractionOf, true).Err? <==>
      NonEmpty(values) != [] && AllNumeric(parsesFloat, NonEmpty(values)) && NoPoint(fractionOf, AllCommaToPoint(NonEmpty(values)))
    ensures AnalyzeColumn(values, parsesFloat, fractionOf, true).Err? ==>
      AnalyzeColumn(values, parsesFloat, fractionOf, true).error == MaxError
  {
  }

  /**
   * A numeric column whose only number is written without a '.' ("inf",
   * "nan", "1e-05") makes `max()` raise, as written and as intended.
   */
  lemma NoPointRaises(v: string, parsesFloat: string -> bool, fractionOf: string -> Option<nat>, intended: bool)
    requires Strip(v) != "" && parsesFloat(v) && !HasChar(v, ',') && fractionOf(v).None?
    ensures AnalyzeColumn([v], parsesFloat, fractionOf, intended) == Err(MaxError)
  {
    assert NonEmpty([v]) == [v] by {
      assert [v][1..] == [];
    }
    CommaToPointNoComma(v);
    assert IsNumeric(parsesFloat, v);
    assert Converted([v], intended) == [v];
  }

  /** Without commas the two readings agree. */
  lemma AnalyzeColumnNoComma(values: seq<string>, parsesFloat: string -> bool, fractionOf: string -> Option<nat>)
    requires forall v :: v in values ==> !HasChar(v, ',')
    ensures AnalyzeColumn(values, parsesFloat, fractionOf, false) == AnalyzeColumn(values, parsesFloat, fractionOf, true)
  {
    var ne := NonEmpty(values);
    forall v | v in ne ensures CommaToPoint(v) == v {
      CommaToPointNoComma(v);
    }
    assert AllCommaToPoint(ne) == ne;
  }

  /** The column keeps all its values exactly when none is blank. */
  lemma {:induction false} NonEmptyKeepsAll(values: seq<string>)
    ensures |NonEmpty(values)| == |values| <==> forall v :: v in values ==> !IsBlank(v)
  {
    if values != [] {
      NonEmptyKeepsAll(values[1..]);
      assert forall v :: v in values <==> v == values[0] || v in values[1..];
    }
  }

  /** The non-blank values of a column without blanks are all its values. */
  lemma {:induction false} NonEmptyAll(values: seq<string>)
    requires forall v :: v in values ==> !IsBlank(v)
    ensures NonEmpty(values) == values
  {
    if values != [] {
      NonEmptyAll(values[1..]);
    }
  }

  // ---------------------------------------------------------------------
  // Files, their columns and the columns they share

  /** The layout of a file: a CSV with its detected encoding, delimiter and header row, or the sheets of a workbook with their column letters. */
  datatype Format =
    | Csv(encoding: string, delimiter: string, headers: seq<string>)
    | Excel(sheets: Dict<string, seq<string>>)

  /** The analysis of one file: its layout and its analysed columns (`Sheet.letter` for a workbook). */
  datatype FileAnalysis = FileAnalysis(format: Format, columns: Dict<string, ColumnAnalysis>)

  /** `file_data['format']`. */
  function FormatName(f: Format): string
  {
    if f.Csv? then "csv" else "excel"
  }

  /** The column lists of the sheets, one after the other. */
  function ExcelColumns(sheets: Dict<string, seq<string>>): seq<string>
  {
    if sheets == [] then [] else ExcelColumns(sheets[..|sheets| - 1]) + sheets[|sheets| - 1].1
  }

  /** The column names a file contributes to the count. */
  function FileColumns(f: FileAnalysis): seq<string>
  {
    match f.format
    case Csv(_, _, headers) => headers
    case Excel(sheets) => ExcelColumns(sheets)
  }

  /** `all_columns`: the contributions of all files, in file order. */
  function AllColumns(files: Dict<string, FileAnalysis>): seq<string>
  {
    if files == [] then [] else AllColumns(files[..|files| - 1]) + FileColumns(files[|files| - 1].1)
  }

  /** `common_columns`: the names counted more than once. */
  function CommonColumns(files: Dict<string, FileAnalysis>): set<string>
  {
    set c | c in AllColumns(files) && Count(AllColumns(files), c) > 1
  }

  /** A value occurs more than once exactly when it sits at two positions. */
  lemma {:induction false} CountTwice(xs: seq<string>, x: string)
    ensures Count(xs, x) > 1 <==> exists i, j :: 0 <= i < j < |xs| && xs[i] == x && xs[j] == x
  {
    if xs != [] {
      var t := xs[1..];
      CountTwice(t, x);
      CountPositive(t, x);
      if exists i, j :: 0 <= i < j < |xs| && xs[i] == x && xs[j] == x {
        var i, j :| 0 <= i < j < |xs| && xs[i] == x && xs[j] == x;
        if i > 0 {
          assert t[i - 1] == x && t[j - 1] == x;
        } else {
          assert t[j - 1] == x;
        }
      }
      if Count(xs, x) > 1 {
        if xs[0] == x {
          var j :| 0 <= j < |t| && t[j] == x;
          assert xs[0] == x && xs[j + 1] == x;
        } else {
          var i, j :| 0 <= i < j < |t| && t[i] == x && t[j] == x;
          assert xs[i + 1] == x && xs[j + 1] == x;
        }
      }
    }
  }

  /** A name is common exactly when it is contributed at two places. */
  lemma CommonColumnsSpec(files: Dict<string, FileAnalysis>, c: string)
    ensures c in CommonColumns(files) <==>
      exists i, j :: 0 <= i < j < |AllColumns(files)| && AllColumns(files)[i] == c && AllColumns(files)[j] == c
  {
    var all := AllColumns(files);
    CountTwice(all, c);
    if exists i, j :: 0 <= i < j < |all| && all[i] == c && all[j] == c {
      var i, j :| 0 <= i < j < |all| && all[i] == c && all[j] == c;
      assert all[i] in all;
    }
  }

  /** The count over all files adds up the counts of any two of them. */
  lemma {:induction false} CountTwoFiles(files: Dict<string, FileAnalysis>, i: nat, j: nat, c: string)
    requires i < j < |files|
    ensures Count(AllColumns(files), c) >= Count(FileColumns(files[i].1), c) + Count(FileColumns(files[j].1), c)
  {
    var n := |files| - 1;
    var init := files[..n];
    var last := FileColumns(files[n].1);
    var ci, cj := Count(FileColumns(files[i].1), c), Count(FileColumns(files[j].1), c);
    assert AllColumns(files) == AllColumns(init) + last;
    CountAppend(AllColumns(init), last, c);
    assert init[i] == files[i];
    if j < n {
      assert init[j] == files[j];
      CountTwoFiles(init, i, j, c);
      assert Count(AllColumns(init), c) >= ci + cj;
    } else {
      CountOneFile(init, i, c);
      assert Count(AllColumns(init), c) >= ci;
      assert Count(last, c) == cj;
    }
  }

  lemma {:induction false} CountOneFile(files: Dict<string, FileAnalysis>, i: nat, c: string)
    requires i < |files|
    ensures Count(AllColumns(files), c) >= Count(FileColumns(files[i].1), c)
  {
    var n := |files| - 1;
    var init := files[..n];
    CountAppend(AllColumns(init), FileColumns(files[n].1), c);
    if i < n {
      assert init[i] == files[i];
      CountOneFile(init, i, c);
    }
  }

  /** A column name two files both contribute is common. */
  lemma SharedColumnIsCommon(files: Dict<string, FileAnalysis>, i: nat, j: nat, c: string)
    requires i < j < |files|
    requires c in FileColumns(files[i].1) && c in FileColumns(files[j].1)
    ensures c in CommonColumns(files)
  {
    CountTwoFiles(files, i, j, c);
    CountPositive(FileColumns(files[i].1), c);
    CountPositive(FileColumns(files[j].1), c);
    CountPositive(AllColumns(files), c);
  }

  // ---------------------------------------------------------------------
  // The analysed columns of all files

  /** One analysed column, with the file it belongs to. */
  datatype ColumnEntry = ColumnEntry(file: string, column: string, analysis: ColumnAnalysis)

  /** The analysed columns of one file, in its order. */
  function FileEntries(path: string, cols: Dict<string, ColumnAnalysis>): (r: seq<ColumnEntry>)
    ensures |r| == |cols|
    ensures forall k :: 0 <= k < |cols| ==> r[k] == ColumnEntry(path, cols[k].0, cols[k].1)
  {
    seq(|cols|, k requires 0 <= k < |cols| => ColumnEntry(path, cols[k].0, cols[k].1))
  }

  /** The nested iteration over the files and their columns, as one sequence. */
  function Entries(files: Dict<string, FileAnalysis>): seq<ColumnEntry>
  {
    if files == [] then []
    else
      var last := files[|files| - 1];
      Entries(files[..|files| - 1]) + FileEntries(last.0, last.1.columns)
  }

  // ---------------------------------------------------------------------
  // Key columns

  /** One entry of `suggested_keys`. */
  datatype KeyCandidate = KeyCandidate(column: string, file: string, score: real)

  /** The candidate test, for a column that has a uniqueness ratio. */
  predicate KeyLike(a: ColumnAnalysis)
    requires a.uniquenessRatio.Some?
  {
    a.kind == Identifier || (a.uniquenessRatio.value > 0.95 && a.nullCount == 0)
  }

  /** The candidate a column makes; a column without a ratio (an empty one) makes none. */
  function CandidateOf(e: ColumnEntry): (c: Option<KeyCandidate>)
  {
    match e.analysis.uniquenessRatio
    case None => None
    case Some(ratio) => if KeyLike(e.analysis) then Some(KeyCandidate(e.column, e.file, ratio)) else None
  }

  /** The candidates, in column order, as intended: a column without a ratio is skipped. */
  function KeyCandidates(entries: seq<ColumnEntry>): seq<KeyCandidate>
  {
    FilterMap(entries, CandidateOf)
  }

  /** A column without a uniqueness ratio. */
  predicate Unrated(e: ColumnEntry)
  {
    e.analysis.uniquenessRatio.None?
  }

  predicate HasUnrated(entries: seq<ColumnEntry>)
  {
    exists k :: 0 <= k < |entries| && Unrated(entries[k])
  }

  /** The error `_suggest_key_columns` raises when it reads the ratio of a column that has none. */
  const MissingRatio := "KeyError: 'uniqueness_ratio'"

  /** The candidates as written: reading the ratio of a column without one raises. */
  function KeyCandidatesAsWritten(entries: seq<ColumnEntry>): Result<seq<KeyCandidate>, string>
  {
    if entries == [] then Ok([])
    else
      match KeyCandidatesAsWritten(entries[..|entries| - 1])
      case Err(err) => Err(err)
      case Ok(cs) =>
        var e := entries[|entries| - 1];
        if e.analysis.uniquenessRatio.None? then Err(MissingRatio)
        else if KeyLike(e.analysis) then Ok(cs + [KeyCandidate(e.column, e.file, e.analysis.uniquenessRatio.value)])
        else Ok(cs)
  }

  /** As written, the candidates fail exactly when some column has no ratio, and otherwise are the intended ones. */
  lemma {:induction false} KeyCandidatesAsWrittenSpec(entries: seq<ColumnEntry>)
    ensures KeyCandidatesAsWritten(entries) == if HasUnrated(entries) then Err(MissingRatio) else Ok(KeyCandidates(entries))
  {
    if entries != [] {
      var n := |entries| - 1;
      var init := entries[..n];
      KeyCandidatesAsWrittenSpec(init);
      var e := entries[n];
      assert entries[..n] == init;
      if HasUnrated(init) {
        var k :| 0 <= k < |init| && Unrated(init[k]);
        assert entries[k] == init[k];
      } else if Unrated(e) {
        assert HasUnrated(entries);
      } else {
        assert !HasUnrated(entries) by {
          forall k | 0 <= k < |entries| ensures !Unrated(entries[k]) {
            if k < n {
              assert entries[k] == init[k];
            }
          }
        }
        assert KeyCandidates(entries) == KeyCandidates(init) + match CandidateOf(e) case Some(b) => [b] case None => [];
        if !KeyLike(e.analysis) {
          AppendEmpty(KeyCandidates(init));
        }
      }
    }
  }

  /**
   * A column whose values are all blank (a CSV column left empty) is
   * classified as empty and gets no ratio; as written the key suggestion
   * then raises, as intended the column is simply not a candidate.
   */
  lemma BlankColumnRaises(values: seq<string>, parsesFloat: string -> bool, fractionOf: string -> Option<nat>,
                          file: string, column: string)
    requires forall v :: v in values ==> IsBlank(v)
    ensures AnalyzeColumn(values, parsesFloat, fractionOf, false).Ok?
    ensures KeyCandidatesAsWritten([ColumnEntry(file, column, AnalyzeColumn(values, parsesFloat, fractionOf, false).value)]).Err?
    ensures KeyCandidates([ColumnEntry(file, column, AnalyzeColumn(values, parsesFloat, fractionOf, false).value)]) == []
  {
    AllBlankDropped(values);
    var r := AnalyzeColumn(values, parsesFloat, fractionOf, false);
    assert r.Ok?;
    var es := [ColumnEntry(file, column, r.value)];
    assert Unrated(es[0]) && CandidateOf(es[0]) == None;
    KeyCandidatesAsWrittenSpec(es);
    assert es[..0] == [];
    assert KeyCandidates(es) == KeyCandidates(es[..0]) + [];
  }

  /** A column is a candidate exactly when it has a ratio and is an identifier or nearly unique without blanks; its score is its ratio. */
  lemma KeyCandidatesMembers(entries: seq<ColumnEntry>, c: KeyCandidate)
    ensures c in KeyCandidates(entries) <==>
      exists i :: 0 <= i < |entries| && entries[i].analysis.uniquenessRatio.Some? && KeyLike(entries[i].analysis)
        && c == KeyCandidate(entries[i].column, entries[i].file, entries[i].analysis.uniquenessRatio.value)
  {
    FilterMapMembers(entries, CandidateOf, c);
  }

  /** A non-empty column of distinct non-blank values is a candidate with the top score. */
  lemma DistinctValuesMakeKey(values: seq<string>, parsesFloat: string -> bool, fractionOf: string -> Option<nat>,
                              intended: bool, file: string, column: string)
    requires values != [] && NoDup(values) && forall v :: v in values ==> !IsBlank(v)
    requires AnalyzeColumn(values, parsesFloat, fractionOf, intended).Ok?
    ensures CandidateOf(ColumnEntry(file, column, AnalyzeColumn(values, parsesFloat, fractionOf, intended).value))
            == Some(KeyCandidate(column, file, 1.0))
  {
    var a := AnalyzeColumn(values, parsesFloat, fractionOf, intended).value;
    NonEmptyAll(values);
    ElementsBounds(values);
    assert a.kind != Empty && a.nullCount == 0;
    assert a.uniqueCount == |values|;
    RatioWhole(|values|);
    assert a.uniquenessRatio == Some(1.0);
  }

  /** A column whose values are all distinct has ratio 1. */
  lemma RatioWhole(n: nat)
    requires n >= 1
    ensures Ratio(n, n) == 1.0
  {
    var r := Ratio(n, n);
    assert r * (n as real) == 1.0 * (n as real);
  }

  /** The sort key of `candidates.sort(key=score, reverse=True)`, negated for the ascending stable sort. */
  function NegScore(c: KeyCandidate): real
  {
    -c.score
  }

  /** `suggested_keys`: the five best candidates. */
  function SuggestedKeys(entries: seq<ColumnEntry>): seq<KeyCandidate>
  {
    Take(SortBy(KeyCandidates(entries), NegScore), 5)
  }

  /**
   * At most five candidates are suggested (all of them when there are
   * fewer), best score first, and none left out scores higher than one
   * suggested.
   */
  lemma SuggestedKeysSpec(entries: seq<ColumnEntry>)
    ensures |SuggestedKeys(entries)| == if |KeyCandidates(entries)| < 5 then |KeyCandidates(entries)| else 5
    ensures forall c :: c in SuggestedKeys(entries) ==> c in KeyCandidates(entries)
    ensures forall i, j :: 0 <= i < j < |SuggestedKeys(entries)| ==> SuggestedKeys(entries)[i].score >= SuggestedKeys(entries)[j].score
    ensures forall c, t :: c in KeyCandidates(entries) && t in SuggestedKeys(entries) && c !in SuggestedKeys(entries) ==>
      c.score <= t.score
  {
    var ks := KeyCandidates(entries);
    var top := SuggestedKeys(entries);
    assert top == Take(SortBy(ks, NegScore), 5);
    TakeSortedSmallest(ks, NegScore, 5);
    forall i, j | 0 <= i < j < |top| ensures top[i].score >= top[j].score {
      assert NegScore(top[i]) <= NegScore(top[j]);
    }
    forall c, t | c in ks && t in top && c !in top ensures c.score <= t.score {
      assert NegScore(t) <= NegScore(c);
    }
  }

  // ---------------------------------------------------------------------
  // Columns to validate

  /** One entry of `suggestions`; its list of reasons is not modelled. */
  datatype ValidationSuggestion = ValidationSuggestion(column: string, score: nat)

  /** The importance of a column: 2 if numeric, 3 if it holds formulas, 1 if its name is common. */
  function Score(e: ColumnEntry, common: set<string>): (s: nat)
    ensures s > 0 <==> e.analysis.kind == Numeric || e.analysis.hasFormulas || e.column in common
    ensures s <= 6
    ensures s >= 5 <==> e.analysis.kind == Numeric && e.analysis.hasFormulas
  {
    (if e.analysis.kind == Numeric then 2 else 0) + (if e.analysis.hasFormulas then 3 else 0)
      + (if e.column in common then 1 else 0)
  }

  function SuggestionOf(e: ColumnEntry, common: set<string>): Option<ValidationSuggestion>
  {
    var score := Score(e, common);
    if score > 0 then Some(ValidationSuggestion(e.column, score)) else None
  }

  /** The columns with a positive score, in column order. */
  function ValidationSuggestions(entries: seq<ColumnEntry>, common: set<string>): seq<ValidationSuggestion>
  {
    FilterMap(entries, e => SuggestionOf(e, common))
  }

  function NegSuggestionScore(s: ValidationSuggestion): real
  {
    -(s.score as real)
  }

  /** The twenty best suggestions, best first, earlier columns first among equal scores. */
  function RankedSuggestions(entries: seq<ColumnEntry>, common: set<string>): seq<ValidationSuggestion>
  {
    Take(SortBy(ValidationSuggestions(entries, common), NegSuggestionScore), 20)
  }

  function ColumnsOf(ss: seq<ValidationSuggestion>): (r: seq<string>)
    ensures |r| == |ss|
    ensures forall i :: 0 <= i < |ss| ==> r[i] == ss[i].column
  {
    if ss == [] then [] else [ss[0].column] + ColumnsOf(ss[1..])
  }

  /** `suggested_validations`. */
  function SuggestedValidations(entries: seq<ColumnEntry>, common: set<string>): seq<string>
  {
    ColumnsOf(RankedSuggestions(entries, common))
  }

  /** A column is suggested with its score exactly when it is numeric, holds formulas or has a common name. */
  lemma ValidationSuggestionsMembers(entries: seq<ColumnEntry>, common: set<string>, s: ValidationSuggestion)
    ensures s in ValidationSuggestions(entries, common) <==>
      exists i :: 0 <= i < |entries| && Score(entries[i], common) > 0
        && s == ValidationSuggestion(entries[i].column, Score(entries[i], common))
  {
    FilterMapMembers(entries, e => SuggestionOf(e, common), s);
  }

  /**
   * At most twenty suggestions are kept (all when there are fewer), best
   * first, and none left out scores higher than one kept; so a numeric
   * column with formulas (score 5 or 6) is never left out while a column
   * without formulas (score at most 3) is kept.
   */
  lemma RankedSuggestionsSpec(entries: seq<ColumnEntry>, common: set<string>)
    ensures |RankedSuggestions(entries, common)| == if |ValidationSuggestions(entries, common)| < 20 then |ValidationSuggestions(entries, common)| else 20
    ensures forall s :: s in RankedSuggestions(entries, common) ==> s in ValidationSuggestions(entries, common)
    ensures forall i, j :: 0 <= i < j < |RankedSuggestions(entries, common)| ==>
      RankedSuggestions(entries, common)[i].score >= RankedSuggestions(entries, common)[j].score
    ensures forall s, t ::
      s in ValidationSuggestions(entries, common) && t in RankedSuggestions(entries, common) && s !in RankedSuggestions(entries, common)
      ==> s.score <= t.score
  {
    var ss := ValidationSuggestions(entries, common);
    var top := RankedSuggestions(entries, common);
    TakeSortedSmallest(ss, NegSuggestionScore, 20);
    forall i, j | 0 <= i < j < |top| ensures top[i].score >= top[j].score {
      assert NegSuggestionScore(top[i]) <= NegSuggestionScore(top[j]);
    }
    forall s, t | s in ss && t in top && s !in top ensures s.score <= t.score {
      assert NegSuggestionScore(t) <= NegSuggestionScore(s);
    }
  }

  /** Every suggested column is an analysed column that is numeric, holds formulas or has a common name. */
  lemma SuggestedValidationsSpec(entries: seq<ColumnEntry>, common: set<string>)
    ensures |SuggestedValidations(entries, common)| <= 20
    ensures forall c :: c in SuggestedValidations(entries, common) ==>
      exists i :: 0 <= i < |entries| && entries[i].column == c
        && (entries[i].analysis.kind == Numeric || entries[i].analysis.hasFormulas || c in common)
  {
    RankedSuggestionsSpec(entries, common);
    var ranked := RankedSuggestions(entries, common);
    forall c | c in SuggestedValidations(entries, common)
      ensures exists i ::
        0 <= i < |entries| && entries[i].column == c
        && (entries[i].analysis.kind == Numeric || entries[i].analysis.hasFormulas || c in common)
    {
      var k :| 0 <= k < |ranked| && ranked[k].column == c;
      assert ranked[k] in ranked;
      ValidationSuggestionsMembers(entries, common, ranked[k]);
    }
  }

  // ---------------------------------------------------------------------
  // Tolerance rules

  /** A rule of `regras_de_tolerancia`. */
  datatype Tolerance = Exact | Decimal(places: nat) | DateTolerance

  /** The rule suggested for a column. */
  function ToleranceOf(a: ColumnAnalysis): (t: Tolerance)
    ensures t.Decimal? <==> a.kind == Numeric && a.decimals.Some? && a.decimals.value > 0
    ensures t.Decimal? ==> t.places == if a.decimals.value < 10 then a.decimals.value else 10
    ensures t == DateTolerance <==> a.kind == Date
  {
    match a.kind
    case Numeric =>
      var d := if a.decimals.Some? then a.decimals.value else 0;
      if d > 0 then Decimal(if d < 10 then d else 10) else Exact
    case Date => DateTolerance
    case _ => Exact
  }

  function Always(e: ColumnEntry): bool { true }

  function EntryColumn(e: ColumnEntry): string { e.column }

  function EntryTolerance(e: ColumnEntry): Tolerance { ToleranceOf(e.analysis) }

  /** `suggested_tolerances`: one rule per column name, then the default rule. */
  function ToleranceRules(entries: seq<ColumnEntry>): Dict<string, Tolerance>
  {
    Put(Collect(entries, Always, EntryColumn, EntryTolerance), "default", Exact)
  }

  /**
   * The default rule is exact, even when a column is named "default"; any
   * other name has a rule exactly when some column has it, and the rule is
   * that of the last column with the name.
   */
  lemma ToleranceRulesSpec(entries: seq<ColumnEntry>, c: string)
    ensures Get(ToleranceRules(entries), "default") == Some(Exact)
    ensures c != "default" ==>
      (Get(ToleranceRules(entries), c).Some? <==> exists i :: 0 <= i < |entries| && entries[i].column == c)
  {
    var d := Collect(entries, Always, EntryColumn, EntryTolerance);
    GetPutAny(d, "default", Exact, "default");
    GetPutAny(d, "default", Exact, c);
    CollectHasKey(entries, Always, EntryColumn, EntryTolerance, c);
  }

  lemma ToleranceRulesLast(entries: seq<ColumnEntry>, i: nat)
    requires i < |entries| && entries[i].column != "default"
    requires forall j :: i < j < |entries| ==> entries[j].column != entries[i].column
    ensures Get(ToleranceRules(entries), entries[i].column) == Some(ToleranceOf(entries[i].analysis))
  {
    var d := Collect(entries, Always, EntryColumn, EntryTolerance);
    GetPutAny(d, "default", Exact, entries[i].column);
    CollectLast(entries, Always, EntryColumn, EntryTolerance, i);
  }

  // ---------------------------------------------------------------------
  // Relationships

  /** One column of a group of similar names. */
  datatype Occurrence = Occurrence(file: string, column: string)

  /** One entry of `relationships`. */
  datatype Relationship = Relationship(kind: string, columns: seq<Occurrence>, confidence: string)

  /** Characters the normalisation drops: underscores, white space and hyphens. */
  predicate Dropped(c: char)
  {
    c == '_' || c == '-' || IsSpace(c)
  }

  function DropSeparators(s: string): (r: string)
    ensures |r| <= |s|
    ensures forall i :: 0 <= i < |r| ==> !Dropped(r[i])
    ensures forall c :: c in r ==> c in s
  {
    if s == [] then [] else (if Dropped(s[0]) then [] else [s[0]]) + DropSeparators(s[1..])
  }

  /** `re.sub(r'[_\s-]', '', col.upper())`. */
  function Normalize(col: string): string
  {
    DropSeparators(UpperStr(col))
  }

  lemma {:induction false} DropConcat(a: string, b: string)
    ensures DropSeparators(a + b) == DropSeparators(a) + DropSeparators(b)
  {
    if a != [] {
      assert (a + b)[0] == a[0];
      assert (a + b)[1..] == a[1..] + b;
      DropConcat(a[1..], b);
      AppendAssoc(if Dropped(a[0]) then [] else [a[0]], DropSeparators(a[1..]), DropSeparators(b));
    } else {
      assert a + b == b;
    }
  }

  /** The separator between the two words is dropped. */
  lemma DropBetween(sep: string)
    requires sep == "_" || sep == " " || sep == "-"
    ensures DropSeparators("COD" + sep + "ID") == "CODID"
  {
    var w, id := "COD", "ID";
    DropNothing(w);
    DropNothing(id);
    assert DropSeparators(sep) == [];
    DropConcat(w, sep);
    DropConcat(w + sep, id);
  }

  /** Case and the separator between the words do not matter: these three names normalise alike. */
  lemma NormalizeUnderscore()
    ensures Normalize("cod_id") == "CODID"
  {
    DropBetween("_");
    assert UpperStr("cod_id") == "COD" + "_" + "ID";
  }

  lemma NormalizeSpace()
    ensures Normalize("Cod Id") == "CODID"
  {
    DropBetween(" ");
    assert UpperStr("Cod Id") == "COD" + " " + "ID";
  }

  lemma NormalizeHyphen()
    ensures Normalize("COD-ID") == "CODID"
  {
    DropBetween("-");
    assert UpperStr("COD-ID") == "COD" + "-" + "ID";
  }

  /** The shared name contains "ID", so the relationship is of high confidence. */
  lemma CodIdHigh()
    ensures Confidence("CODID") == "high"
  {
    ContainsAt("CODID", 3, 5);
    assert "CODID"[3..5] == "ID";
  }

  /** Normalising twice changes nothing more. */
  lemma {:induction false} NormalizeIdempotent(col: string)
    ensures Normalize(Normalize(col)) == Normalize(col)
  {
    var n := Normalize(col);
    forall i | 0 <= i < |n| ensures !IsLower(n[i]) {
      assert n[i] in UpperStr(col);
      var k :| 0 <= k < |col| && UpperStr(col)[k] == n[i];
    }
    UpperKeepsNormal(n);
    DropNothing(n);
  }

  lemma {:induction false} UpperKeepsNormal(s: string)
    requires forall i :: 0 <= i < |s| ==> !Dropped(s[i]) && !IsLower(s[i])
    ensures UpperStr(s) == s
  {
  }

  lemma {:induction false} DropNothing(s: string)
    requires forall i :: 0 <= i < |s| ==> !Dropped(s[i])
    ensures DropSeparators(s) == s
    decreases |s|
  {
    if s != [] {
      DropNothing(s[1..]);
    }
  }

  /** `confidence`: high when the normalised name contains "ID". */
  function Confidence(normalized: string): string
  {
    if Contains(normalized, "ID") then "high" else "medium"
  }

  /** `column_groups[normalized].append(...)`. */
  function AddOccurrence(groups: Dict<string, seq<Occurrence>>, e: ColumnEntry): Dict<string, seq<Occurrence>>
  {
    var n := Normalize(e.column);
    Put(groups, n, GetOr(groups, n, []) + [Occurrence(e.file, e.column)])
  }

  /** `column_groups`, filled in column order. */
  function ColumnGroups(entries: seq<ColumnEntry>): Dict<string, seq<Occurrence>>
  {
    if entries == [] then [] else AddOccurrence(ColumnGroups(entries[..|entries| - 1]), entries[|entries| - 1])
  }

  /** The columns whose name normalises to `n`, in column order. */
  function OccurrencesOf(entries: seq<ColumnEntry>, n: string): seq<Occurrence>
  {
    if entries == [] then []
    else
      var e := entries[|entries| - 1];
      OccurrencesOf(entries[..|entries| - 1], n) + (if Normalize(e.column) == n then [Occurrence(e.file, e.column)] else [])
  }

  /** The group of a normalised name lists every column with that name, in order. */
  lemma {:induction false} ColumnGroupsGet(entries: seq<ColumnEntry>, n: string)
    ensures GetOr(ColumnGroups(entries), n, []) == OccurrencesOf(entries, n)
  {
    if entries != [] {
      var k := |entries| - 1;
      var init := entries[..k];
      var e := entries[k];
      var g := ColumnGroups(init);
      ColumnGroupsGet(init, n);
      var m := Normalize(e.column);
      GetOrPut(g, m, GetOr(g, m, []) + [Occurrence(e.file, e.column)], n, []);
      if m != n {
        AppendEmpty(OccurrencesOf(init, n));
      }
    }
  }

  lemma {:induction false} ColumnGroupsDistinct(entries: seq<ColumnEntry>)
    ensures DistinctKeys(ColumnGroups(entries))
  {
    if entries != [] {
      var k := |entries| - 1;
      var g := ColumnGroups(entries[..k]);
      var m := Normalize(entries[k].column);
      ColumnGroupsDistinct(entries[..k]);
      PutDistinct(g, m, GetOr(g, m, []) + [Occurrence(entries[k].file, entries[k].column)]);
    }
  }

  /** The relationship of a group, when it has more than one column. */
  function RelationshipOf(g: (string, seq<Occurrence>)): Option<Relationship>
  {
    if |g.1| > 1 then Some(Relationship("possible_join", g.1, Confidence(g.0))) else None
  }

  /** `relationships`, in group order. */
  function Relationships(entries: seq<ColumnEntry>): seq<Relationship>
  {
    FilterMap(ColumnGroups(entries), RelationshipOf)
  }

  /**
   * A relationship is reported exactly for each normalised name shared by
   * more than one column; it lists those columns, and its confidence is high
   * when the name contains "ID".
   */
  lemma RelationshipsSpec(entries: seq<ColumnEntry>, rel: Relationship)
    ensures rel in Relationships(entries) <==>
      exists n :: |OccurrencesOf(entries, n)| > 1
        && rel == Relationship("possible_join", OccurrencesOf(entries, n), Confidence(n))
  {
    var groups := ColumnGroups(entries);
    FilterMapMembers(groups, RelationshipOf, rel);
    ColumnGroupsDistinct(entries);
    if rel in Relationships(entries) {
      var i :| 0 <= i < |groups| && RelationshipOf(groups[i]) == Some(rel);
      GetAt(groups, i);
      ColumnGroupsGet(entries, groups[i].0);
    }
    if exists n :: |OccurrencesOf(entries, n)| > 1
        && rel == Relationship("possible_join", OccurrencesOf(entries, n), Confidence(n)) {
      var n :| |OccurrencesOf(entries, n)| > 1
        && rel == Relationship("possible_join", OccurrencesOf(entries, n), Confidence(n));
      ColumnGroupsGet(entries, n);
      assert HasKey(groups, n);
      var i :| 0 <= i < |Keys(groups)| && Keys(groups)[i] == n;
      GetAt(groups, i);
      assert RelationshipOf(groups[i]) == Some(rel);
    }
  }

  /** Two columns whose names normalise alike are related. */
  lemma SimilarNamesRelated(entries: seq<ColumnEntry>, i: nat, j: nat)
    requires i < j < |entries| && Normalize(entries[i].column) == Normalize(entries[j].column)
    ensures exists rel ::
      rel in Relationships(entries)
      && Occurrence(entries[i].file, entries[i].column) in rel.columns
      && Occurrence(entries[j].file, entries[j].column) in rel.columns
  {
    var n := Normalize(entries[i].column);
    OccurrencesOfHas(entries, n, i);
    OccurrencesOfHas(entries, n, j);
    OccurrencesOfTwo(entries, n, i, j);
    var rel := Relationship("possible_join", OccurrencesOf(entries, n), Confidence(n));
    RelationshipsSpec(entries, rel);
  }

  lemma {:induction false} OccurrencesOfHas(entries: seq<ColumnEntry>, n: string, i: nat)
    requires i < |entries| && Normalize(entries[i].column) == n
    ensures Occurrence(entries[i].file, entries[i].column) in OccurrencesOf(entries, n)
  {
    var k := |entries| - 1;
    if i < k {
      assert entries[..k][i] == entries[i];
      OccurrencesOfHas(entries[..k], n, i);
    }
  }

  lemma {:induction false} OccurrencesOfTwo(entries: seq<ColumnEntry>, n: string, i: nat, j: nat)
    requires i < j < |entries| && Normalize(entries[i].column) == n && Normalize(entries[j].column) == n
    ensures |OccurrencesOf(entries, n)| > 1
  {
    var k := |entries| - 1;
    if j < k {
      assert entries[..k][i] == entries[i] && entries[..k][j] == entries[j];
      OccurrencesOfTwo(entries[..k], n, i, j);
    } else {
      assert entries[..k][i] == entries[i];
      OccurrencesOfHas(entries[..k], n, i);
    }
  }

  // ---------------------------------------------------------------------
  // The generated configuration

  /** The format details of a source: a CSV's encoding and delimiter, or a workbook's sheet names. */
  datatype SourceDetails = CsvDetails(encoding: string, delimiter: string) | SheetNames(sheets: seq<string>)

  /** `arquivo_fonte_1` or `arquivo_fonte_2`. */
  datatype SourceConfig = SourceConfig(path: string, format: string, details: SourceDetails, keyColumn: Option<string>)

  /** The generated configuration; its constant empty sections are not modelled. */
  datatype GeneratedConfig = GeneratedConfig(
    version: string,                              // 'versao'
    source1: Option<SourceConfig>,                // 'arquivo_fonte_1'
    source2: Option<SourceConfig>,                // 'arquivo_fonte_2'
    columnsToValidate: seq<string>,               // 'colunas_para_validar'
    tolerances: Dict<string, Tolerance>,          // 'regras_de_tolerancia'
    relationships: Option<seq<Relationship>>)     // 'relacionamentos_detectados'

  /** A source entry with its format details and no key yet. */
  function SourceOf(path: string, f: FileAnalysis): (s: SourceConfig)
    ensures s.path == path && s.format == FormatName(f.format) && s.keyColumn == None
  {
    match f.format
    case Csv(encoding, delimiter, _) => SourceConfig(path, "csv", CsvDetails(encoding, delimiter), None)
    case Excel(sheets) => SourceConfig(path, "excel", SheetNames(Keys(sheets)), None)
  }

  /** The error `generate_config` raises when it sets a key on a source it did not create. */
  const MissingSource := "KeyError: 'arquivo_fonte_1'"

  /** `generate_config`, without writing the file. */
  function GenerateConfig(files: Dict<string, FileAnalysis>, keys: seq<KeyCandidate>, validations: seq<string>,
                          tolerances: Dict<string, Tolerance>, relationships: seq<Relationship>)
    : (r: Result<GeneratedConfig, string>)
    ensures r.Err? <==> keys != [] && |files| < 2
    ensures r.Err? ==> r.error == MissingSource
    ensures r.Ok? ==> (r.value.source1.Some? <==> |files| >= 2) && (r.value.source2.Some? <==> |files| >= 2)
    ensures r.Ok? && |files| >= 2 ==>
      r.value.source1.value.path == files[0].0 && r.value.source2.value.path == files[1].0
      && r.value.source1.value.format == FormatName(files[0].1.format)
      && r.value.source2.value.format == FormatName(files[1].1.format)
    ensures r.Ok? && |files| >= 2 ==>
      r.value.source1.value.keyColumn == r.value.source2.value.keyColumn
      && (r.value.source1.value.keyColumn.Some? <==> keys != [])
    ensures r.Ok? && |files| >= 2 && keys != [] ==>
      !HasChar(r.value.source1.value.keyColumn.value, '.')
      && EndsWith(keys[0].column, r.value.source1.value.keyColumn.value)
    ensures r.Ok? ==> |r.value.columnsToValidate| <= 10 && |r.value.columnsToValidate| <= |validations|
    ensures r.Ok? ==> r.value.columnsToValidate == validations[..|r.value.columnsToValidate|]
    ensures r.Ok? && |validations| <= 10 ==> r.value.columnsToValidate == validations
    ensures r.Ok? ==> r.value.tolerances == tolerances
    ensures r.Ok? ==> (r.value.relationships.None? <==> relationships == [])
    ensures r.Ok? && r.value.relationships.Some? ==> r.value.relationships.value == relationships
  {
    if keys != [] && |files| < 2 then Err(MissingSource)
    else
      var key := if keys == [] then None else Some(AfterLast(keys[0].column, '.'));
      var s1 := if |files| >= 2 then Some(SourceOf(files[0].0, files[0].1).(keyColumn := key)) else None;
      var s2 := if |files| >= 2 then Some(SourceOf(files[1].0, files[1].1).(keyColumn := key)) else None;
      Ok(GeneratedConfig("2.0", s1, s2, Take(validations, 10), tolerances,
                         if relationships == [] then None else Some(relationships)))
  }

  /** The name a workbook column is analysed under: `f"{sheet_name}.{col}"`. */
  function SheetColumnName(sheet: string, col: string): (r: string)
    ensures |r| == |sheet| + 1 + |col| && r[|sheet|] == '.'
    ensures r[..|sheet|] == sheet && r[|sheet| + 1..] == col
  {
    sheet + "." + col
  }

  /**
   * One column of a sheet in `_analyze_excel_sheet`: a column without values
   * is skipped; otherwise its values are analysed, and it is marked as
   * holding formulas when any of its cells has one.
   */
  function SheetColumn(values: seq<string>, formulas: seq<string>, parsesFloat: string -> bool,
                       fractionOf: string -> Option<nat>, intended: bool)
    : (r: Option<Result<ColumnAnalysis, string>>)
    ensures r.None? <==> values == []
    ensures r.Some? ==> (r.value.Err? <==> AnalyzeColumn(values, parsesFloat, fractionOf, intended).Err?)
    ensures r.Some? && r.value.Ok? ==>
      (r.value.value.hasFormulas <==> formulas != [])
      && r.value.value.(hasFormulas := false) == AnalyzeColumn(values, parsesFloat, fractionOf, intended).value
  {
    if values == [] then None
    else
      match AnalyzeColumn(values, parsesFloat, fractionOf, intended)
      case Err(e) => Some(Err(e))
      case Ok(a) => Some(Ok(if formulas != [] then a.(hasFormulas := true) else a))
  }

  /** A workbook column's suggested key is its own name, whatever the sheet's name: the sheet prefix is cut at the last '.'. */
  lemma SheetKeyColumn(files: Dict<string, FileAnalysis>, sheet: string, col: string, file: string, ratio: real,
                       validations: seq<string>, tolerances: Dict<string, Tolerance>, relationships: seq<Relationship>)
    requires |files| >= 2 && !HasChar(col, '.')
    ensures GenerateConfig(files, [KeyCandidate(SheetColumnName(sheet, col), file, ratio)], validations, tolerances, relationships)
            .value.source1.value.keyColumn == Some(col)
  {
    AfterLastSuffix(sheet + ".", col, '.');
  }

  /** A CSV column name without a '.' is suggested as the key unchanged. */
  lemma PlainKeyColumn(files: Dict<string, FileAnalysis>, col: string, file: string, ratio: real,
                       validations: seq<string>, tolerances: Dict<string, Tolerance>, relationships: seq<Relationship>)
    requires |files| >= 2 && !HasChar(col, '.')
    ensures GenerateConfig(files, [KeyCandidate(col, file, ratio)], validations, tolerances, relationships)
            .value.source2.value.keyColumn == Some(col)
  {
    AfterLastSuffix("", col, '.');
    assert "" + col == col;
  }

  // ---------------------------------------------------------------------
  // The loops of the analysis steps

  /** The inner loop over the sheets of a workbook: their column lists appended in order. */
  method ExtendWithSheets(all0: seq<string>, sheets: Dict<string, seq<string>>) returns (all: seq<string>)
    ensures all == all0 + ExcelColumns(sheets)
  {
    all := all0;
    for k := 0 to |sheets|
      invariant all == all0 + ExcelColumns(sheets[..k])
    {
      assert sheets[..k + 1][..k] == sheets[..k];
      AppendAssoc(all0, ExcelColumns(sheets[..k]), sheets[k].1);
      all := all + sheets[k].1;
    }
    assert sheets[..|sheets|] == sheets;
  }

  /** The loop of `_find_common_elements`: every column of every file and sheet, in order. */
  method GatherColumns(files: Dict<string, FileAnalysis>) returns (all: seq<string>)
    ensures all == AllColumns(files)
  {
    all := [];
    for i := 0 to |files|
      invariant all == AllColumns(files[..i])
    {
      assert files[..i + 1][..i] == files[..i];
      match files[i].1.format
      case Csv(_, _, headers) =>
        all := all + headers;
      case Excel(sheets) =>
        all := ExtendWithSheets(all, sheets);
    }
    assert files[..|files|] == files;
  }

  /**
   * The loop of `_suggest_key_columns`: as written (`intended` false) it
   * stops with the error at the first column without a ratio.
   */
  method ScanKeyCandidates(entries: seq<ColumnEntry>, intended: bool) returns (r: Result<seq<KeyCandidate>, string>)
    ensures r.Err? <==> !intended && HasUnrated(entries)
    ensures r.Err? ==> r.error == MissingRatio
    ensures r.Ok? ==> r.value == KeyCandidates(entries)
    ensures !intended ==> r == KeyCandidatesAsWritten(entries)
  {
    KeyCandidatesAsWrittenSpec(entries);
    var candidates: seq<KeyCandidate> := [];
    for i := 0 to |entries|
      invariant candidates == KeyCandidates(entries[..i])
      invariant !intended ==> forall k :: 0 <= k < i ==> !Unrated(entries[k])
    {
      FilterMapSnoc(entries, CandidateOf, i);
      var a := entries[i].analysis;
      if a.uniquenessRatio.None? {
        if !intended {
          assert Unrated(entries[i]);
          return Err(MissingRatio);
        }
      } else if a.kind == Identifier || (a.uniquenessRatio.value > 0.95 && a.nullCount == 0) {
        candidates := candidates + [KeyCandidate(entries[i].column, entries[i].file, a.uniquenessRatio.value)];
      }
    }
    assert entries[..|entries|] == entries;
    r := Ok(candidates);
  }

  /** The loop of `_suggest_validation_columns`: the scored columns, in order. */
  method ScanSuggestions(entries: seq<ColumnEntry>, common: set<string>) returns (suggestions: seq<ValidationSuggestion>)
    ensures suggestions == ValidationSuggestions(entries, common)
  {
    suggestions := [];
    for i := 0 to |entries|
      invariant suggestions == ValidationSuggestions(entries[..i], common)
    {
      FilterMapSnoc(entries, e => SuggestionOf(e, common), i);
      var score := 0;
      if entries[i].analysis.kind == Numeric {
        score := score + 2;
      }
      if entries[i].analysis.hasFormulas {
        score := score + 3;
      }
      if entries[i].column in common {
        score := score + 1;
      }
      if score > 0 {
        suggestions := suggestions + [ValidationSuggestion(entries[i].column, score)];
      }
    }
    assert entries[..|entries|] == entries;
  }

  /** The loop of `_suggest_tolerance_rules`, followed by the default rule. */
  method ScanTolerances(entries: seq<ColumnEntry>) returns (rules: Dict<string, Tolerance>)
    ensures rules == ToleranceRules(entries)
  {
    rules := [];
    for i := 0 to |entries|
      invariant rules == Collect(entries[..i], Always, EntryColumn, EntryTolerance)
    {
      CollectSnoc(entries, Always, EntryColumn, EntryTolerance, i);
      var a := entries[i].analysis;
      var rule := Exact;
      if a.kind == Numeric {
        var decimals := if a.decimals.Some? then a.decimals.value else 0;
        if decimals > 0 {
          rule := Decimal(if decimals < 10 then decimals else 10);
        }
      } else if a.kind == Date {
        rule := DateTolerance;
      }
      rules := Put(rules, entries[i].column, rule);
    }
    CollectAll(entries, Always, EntryColumn, EntryTolerance);
    rules := Put(rules, "default", Exact);
  }

  /** Creating an empty group and appending to it is appending to the missing group. */
  lemma CreateThenAppendGroup(groups: Dict<string, seq<Occurrence>>, n: string, o: Occurrence)
    requires Get(groups, n).None?
    ensures Put(Put(groups, n, []), n, GetOr(Put(groups, n, []), n, []) + [o]) == Put(groups, n, GetOr(groups, n, []) + [o])
  {
    var empty: seq<Occurrence> := [];
    GetPutAny(groups, n, empty, n);
    PutPut(groups, n, empty, empty + [o]);
  }

  /** The first loop of `_detect_relationships`: the columns grouped by normalised name. */
  method GroupColumns(entries: seq<ColumnEntry>) returns (groups: Dict<string, seq<Occurrence>>)
    ensures groups == ColumnGroups(entries)
  {
    groups := [];
    for i := 0 to |entries|
      invariant groups == ColumnGroups(entries[..i])
    {
      assert entries[..i + 1][..i] == entries[..i];
      var normalized := Normalize(entries[i].column);
      var o := Occurrence(entries[i].file, entries[i].column);
      if Get(groups, normalized).None? {
        CreateThenAppendGroup(groups, normalized, o);
        groups := Put(groups, normalized, []);
      }
      groups := Put(groups, normalized, GetOr(groups, normalized, []) + [o]);
    }
    assert entries[..|entries|] == entries;
  }

  /** The second loop of `_detect_relationships`: one relationship per group of two or more. */
  method ScanRelationships(entries: seq<ColumnEntry>) returns (found: seq<Relationship>)
    ensures found == Relationships(entries)
  {
    var groups := GroupColumns(entries);
    found := [];
    for k := 0 to |groups|
      invariant found == FilterMap(groups[..k], RelationshipOf)
    {
      FilterMapSnoc(groups, RelationshipOf, k);
      var (normalized, occurrences) := groups[k];
      if |occurrences| > 1 {
        found := found + [Relationship("possible_join", occurrences, if Contains(normalized, "ID") then "high" else "medium")];
      }
    }
    assert groups[..|groups|] == groups;
  }

  // ---------------------------------------------------------------------
  // The analysis, filled in step by step

  /** The shared `analysis` dict that the generator's steps fill in. */
  class Analysis {
    var files: Dict<string, FileAnalysis>
    var commonColumns: set<string>
    var suggestedKeys: seq<KeyCandidate>
    var suggestedValidations: seq<string>
    var suggestedTolerances: Dict<string, Tolerance>
    var relationships: seq<Relationship>

    constructor (files: Dict<string, FileAnalysis>)
      ensures this.files == files && commonColumns == {} && suggestedKeys == [] && suggestedValidations == []
      ensures suggestedTolerances == [] && relationships == []
    {
      this.files := files;
      commonColumns := {};
      suggestedKeys := [];
      suggestedValidations := [];
      suggestedTolerances := [];
      relationships := [];
    }

    /** `_find_common_elements`. */
    method FindCommonElements()
      modifies this
      ensures commonColumns == CommonColumns(files)
      ensures files == old(files) && suggestedKeys == old(suggestedKeys) && suggestedValidations == old(suggestedValidations)
      ensures suggestedTolerances == old(suggestedTolerances) && relationships == old(relationships)
    {
      var all := GatherColumns(files);
      commonColumns := set c | c in all && Count(all, c) > 1;
    }

    /** `_suggest_key_columns`: when it raises, nothing is stored. */
    method SuggestKeyColumns(intended: bool) returns (outcome: Result<(), string>)
      modifies this
      ensures outcome.Err? <==> !intended && HasUnrated(Entries(files))
      ensures outcome.Err? ==> outcome.error == MissingRatio && suggestedKeys == old(suggestedKeys)
      ensures outcome.Ok? ==> suggestedKeys == SuggestedKeys(Entries(files))
      ensures files == old(files) && commonColumns == old(commonColumns) && suggestedValidations == old(suggestedValidations)
      ensures suggestedTolerances == old(suggestedTolerances) && relationships == old(relationships)
    {
      var scanned := ScanKeyCandidates(Entries(files), intended);
      if scanned.Err? {
        return Err(scanned.error);
      }
      suggestedKeys := Take(SortBy(scanned.value, NegScore), 5);
      outcome := Ok(());
    }

    /** `_suggest_validation_columns`. */
    method SuggestValidationColumns()
      modifies this
      ensures suggestedValidations == SuggestedValidations(Entries(files), commonColumns)
      ensures files == old(files) && commonColumns == old(commonColumns) && suggestedKeys == old(suggestedKeys)
      ensures suggestedTolerances == old(suggestedTolerances) && relationships == old(relationships)
    {
      var suggestions := ScanSuggestions(Entries(files), commonColumns);
      suggestedValidations := ColumnsOf(Take(SortBy(suggestions, NegSuggestionScore), 20));
    }

    /** `_suggest_tolerance_rules`. */
    method SuggestToleranceRules()
      modifies this
      ensures suggestedTolerances == ToleranceRules(Entries(files))
      ensures files == old(files) && commonColumns == old(commonColumns) && suggestedKeys == old(suggestedKeys)
      ensures suggestedValidations == old(suggestedValidations) && relationships == old(relationships)
    {
      suggestedTolerances := ScanTolerances(Entries(files));
    }

    /** `_detect_relationships`. */
    method DetectRelationships()
      modifies this
      ensures relationships == Relationships(Entries(files))
      ensures files == old(files) && commonColumns == old(commonColumns) && suggestedKeys == old(suggestedKeys)
      ensures suggestedValidations == old(suggestedValidations) && suggestedTolerances == old(suggestedTolerances)
    {
      relationships := ScanRelationships(Entries(files));
    }
  }

  function KeepFile(p: (string, FileAnalysis)): bool { true }

  function PathOf(p: (string, FileAnalysis)): string { p.0 }

  function FileAnalysisOf(p: (string, FileAnalysis)): FileAnalysis { p.1 }

  /** `analysis['files']`: each path to its analysis; a path given twice keeps its first place and its last analysis. */
  function FilesOf(analysed: seq<(string, FileAnalysis)>): Dict<string, FileAnalysis>
  {
    Collect(analysed, KeepFile, PathOf, FileAnalysisOf)
  }

  /** The paths of `analysis['files']` are the given paths, each with the analysis given last for it. */
  lemma FilesOfSpec(analysed: seq<(string, FileAnalysis)>, i: nat)
    requires i < |analysed|
    requires forall j :: i < j < |analysed| ==> analysed[j].0 != analysed[i].0
    ensures Get(FilesOf(analysed), analysed[i].0) == Some(analysed[i].1)
  {
    CollectLast(analysed, KeepFile, PathOf, FileAnalysisOf, i);
  }

  /** The loop of `analyze_files` that stores each file's analysis. */
  method StoreFiles(analysed: seq<(string, FileAnalysis)>) returns (files: Dict<string, FileAnalysis>)
    ensures files == FilesOf(analysed)
  {
    files := [];
    for i := 0 to |analysed|
      invariant files == Collect(analysed[..i], KeepFile, PathOf, FileAnalysisOf)
    {
      CollectSnoc(analysed, KeepFile, PathOf, FileAnalysisOf, i);
      files := Put(files, analysed[i].0, analysed[i].1);
    }
    CollectAll(analysed, KeepFile, PathOf, FileAnalysisOf);
  }

  /**
   * `analyze_files`, given the analysis of each file: the steps run in
   * order on one shared analysis, and a failing key suggestion stops the
   * remaining steps.
   */
  method AnalyzeFiles(analysed: seq<(string, FileAnalysis)>, intended: bool) returns (a: Analysis, outcome: Result<(), string>)
    ensures fresh(a)
    ensures a.files == FilesOf(analysed)
    ensures a.commonColumns == CommonColumns(a.files)
    ensures outcome.Err? <==> !intended && HasUnrated(Entries(a.files))
    ensures outcome.Ok? ==> a.suggestedKeys == SuggestedKeys(Entries(a.files))
    ensures outcome.Ok? ==> a.suggestedValidations == SuggestedValidations(Entries(a.files), a.commonColumns)
    ensures outcome.Ok? ==> a.suggestedTolerances == ToleranceRules(Entries(a.files))
    ensures outcome.Ok? ==> a.relationships == Relationships(Entries(a.files))
  {
    var files := StoreFiles(analysed);
    a := new Analysis(files);
    a.FindCommonElements();
    outcome := a.SuggestKeyColumns(intended);
    if outcome.Ok? {
      a.SuggestValidationColumns();
      a.SuggestToleranceRules();
      a.DetectRelationships();
    }
  }
}
