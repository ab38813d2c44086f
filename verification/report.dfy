/**
 * The decision rules of the validation report: the summary counts, the
 * impact level and correction estimate of a cascade origin, the ordering
 * and counting of alerts, the lookup of a result's formula and the
 * apostrophe that keeps a formula as text. Rendering is not modelled.
 */
module Report {
  import opened Wrappers
  import opened Text
  import opened Assoc
  import opened Sorting
  import opened FormulaExtractor
  import opened Impact

  // ---------------------------------------------------------------------
  // Summary sheet

  /** The counts of the summary sheet. */
  datatype Summary = Summary(comparisons: nat, divergences: nat, concordances: int)

  /** The results with `resultado == False`. */
  function Failed(results: seq<ValidationResult>): nat
  {
    if results == [] then 0 else (if results[0].passed then 0 else 1) + Failed(results[1..])
  }

  /** The results with `resultado == True`. */
  function Passed(results: seq<ValidationResult>): nat
  {
    if results == [] then 0 else (if results[0].passed then 1 else 0) + Passed(results[1..])
  }

  /** `total_comparacoes`, `total_divergencias` and `total_concordancias`. */
  function SummaryOf(results: seq<ValidationResult>): Summary
  {
    Summary(|results|, Failed(results), |results| - Failed(results))
  }

  /** Every comparison either diverges or agrees. */
  lemma {:induction false} FailedPassed(results: seq<ValidationResult>)
    ensures Failed(results) + Passed(results) == |results|
  {
    if results != [] {
      FailedPassed(results[1..]);
    }
  }

  /** The concordances are exactly the passing results, and never negative. */
  lemma SummaryCounts(results: seq<ValidationResult>)
    ensures SummaryOf(results).concordances == Passed(results)
    ensures SummaryOf(results).divergences <= SummaryOf(results).comparisons
  {
    FailedPassed(results);
  }

  // ---------------------------------------------------------------------
  // Cascade sheet

  /** `impactos['affected']` of one origin column. */
  datatype Affected = Affected(columns: set<string>, formulas: set<string>)

  /** `impacto_cascata`: origin column to what it affects. */
  type Cascade = Dict<string, Affected>

  /** `impact_level`: how many columns and formulas the origin affects. */
  function ImpactLevel(a: Affected): nat
  {
    |a.columns| + |a.formulas|
  }

  const Critical := "CRÍTICO"
  const High := "ALTO"
  const Moderate := "MODERADO"

  /** The level shown for an origin. */
  function LevelName(level: nat): (name: string)
    ensures name == Critical <==> level > 5
    ensures name == High <==> 2 < level <= 5
    ensures name == Moderate <==> level <= 2
  {
    if level > 5 then Critical else if level > 2 then High else Moderate
  }

  /** The correction estimate shown for an origin. */
  function Correction(level: nat): (estimate: string)
    ensures estimate in {"Requer revisão completa do processo", "Verificar origem e recalcular dependências",
                         "Correção pontual necessária"}
  {
    if level > 5 then "Requer revisão completa do processo"
    else if level > 2 then "Verificar origem e recalcular dependências"
    else "Correção pontual necessária"
  }

  /** The order of the levels, least severe first. */
  function LevelRank(name: string): nat
  {
    if name == Critical then 2 else if name == High then 1 else 0
  }

  /** The estimate follows the level: the two use the same thresholds. */
  lemma CorrectionFollowsLevel(level: nat)
    ensures LevelName(level) == Critical <==> Correction(level) == "Requer revisão completa do processo"
    ensures LevelName(level) == High <==> Correction(level) == "Verificar origem e recalcular dependências"
    ensures LevelName(level) == Moderate <==> Correction(level) == "Correção pontual necessária"
  {
  }

  /** Affecting more never lowers the level. */
  lemma LevelMonotone(a: nat, b: nat)
    requires a <= b
    ensures LevelRank(LevelName(a)) <= LevelRank(LevelName(b))
  {
  }

  /** "Colunas Críticas": the origins whose level is above 5. */
  function CriticalOrigins(cascade: Cascade): nat
  {
    if cascade == [] then 0
    else (if ImpactLevel(cascade[0].1) > 5 then 1 else 0) + CriticalOrigins(cascade[1..])
  }

  /** `total_affected`: the levels summed over the origins. */
  function TotalAffected(cascade: Cascade): nat
  {
    if cascade == [] then 0 else ImpactLevel(cascade[0].1) + TotalAffected(cascade[1..])
  }

  /** Each critical origin contributes at least six to the total, and there are no more of them than origins. */
  lemma {:induction false} CriticalBound(cascade: Cascade)
    ensures CriticalOrigins(cascade) <= |cascade|
    ensures 6 * CriticalOrigins(cascade) <= TotalAffected(cascade)
  {
    if cascade != [] {
      CriticalBound(cascade[1..]);
    }
  }

  // ---------------------------------------------------------------------
  // Alerts sheet

  /** What an alert reports as its impact: a number of records, or the columns it affects. */
  datatype AlertImpact = Records(count: nat) | Affects(columns: set<string>)

  /** One alert; its free-text description is not modelled. */
  datatype Alert = Alert(
    severity: Option<string>,  // 'severidade'
    kind: string,              // 'tipo'
    location: string,          // 'localizacao'
    recommendation: string,    // 'recomendacao'
    impact: AlertImpact)       // 'impacto'

  /** `severity_order.get(x.get('severidade', 'baixa'), 4)`. */
  function SeverityRank(a: Alert): (rank: real)
    ensures rank == 1.0 <==> a.severity == Some("alta")
    ensures rank == 2.0 <==> a.severity == Some("media")
    ensures rank == 3.0 <==> a.severity == Some("baixa") || a.severity == None
    ensures rank == 4.0 <==> a.severity.Some? && a.severity.value !in {"alta", "media", "baixa"}
  {
    var s := match a.severity
      case Some(s) => s
      case None => "baixa";
    if s == "alta" then 1.0 else if s == "media" then 2.0 else if s == "baixa" then 3.0 else 4.0
  }

  /** `sorted(alerts, key=...)`. */
  function SortAlerts(alerts: seq<Alert>): seq<Alert>
  {
    SortBy(alerts, SeverityRank)
  }

  /**
   * The sorted alerts are the same alerts, alta before media before baixa
   * before any other severity, and alerts of one rank keep their order.
   */
  lemma SortAlertsSpec(alerts: seq<Alert>, rank: real)
    ensures multiset(SortAlerts(alerts)) == multiset(alerts)
    ensures forall i, j :: 0 <= i < j < |alerts| ==>
      SeverityRank(SortAlerts(alerts)[i]) <= SeverityRank(SortAlerts(alerts)[j])
    ensures WithKey(SortAlerts(alerts), SeverityRank, rank) == WithKey(alerts, SeverityRank, rank)
  {
    SortBySorted(alerts, SeverityRank);
    SortByStable(alerts, SeverityRank, rank);
  }

  /** `len([a for a in alerts if a.get('severidade') == s])`. */
  function CountSeverity(alerts: seq<Alert>, s: string): nat
  {
    if alerts == [] then 0
    else (if alerts[0].severity == Some(s) then 1 else 0) + CountSeverity(alerts[1..], s)
  }

  /** The alerts counted in none of the three severity rows. */
  function Unranked(alerts: seq<Alert>): nat
  {
    if alerts == [] then 0
    else (if alerts[0].severity.Some? && alerts[0].severity.value in {"alta", "media", "baixa"} then 0 else 1)
         + Unranked(alerts[1..])
  }

  /**
   * The three severity rows and the alerts without one of those severities
   * (including those with none, which sort as baixa) make up the total row.
   */
  lemma {:induction false} SeverityCountsTotal(alerts: seq<Alert>)
    ensures CountSeverity(alerts, "alta") + CountSeverity(alerts, "media") + CountSeverity(alerts, "baixa")
            + Unranked(alerts) == |alerts|
  {
    if alerts != [] {
      SeverityCountsTotal(alerts[1..]);
    }
  }

  /** An alert without a severity sorts with baixa but is not counted as baixa. */
  lemma MissingSeverityUncounted(a: Alert)
    requires a.severity == None
    ensures SeverityRank(a) == 3.0
    ensures CountSeverity([a], "baixa") == 0 && Unranked([a]) == 1
  {
  }

  // ---------------------------------------------------------------------
  // Detailed sheet: the formula of a result's column

  /** The key matches column `col`: it ends with `.col` or is `col`. */
  predicate KeyMatches(key: string, col: string)
  {
    EndsWith(key, "." + col) || key == col
  }

  /** The index of the first formula whose key matches `col`, or `|formulas|`. */
  function FirstMatch(formulas: Formulas, col: string): (i: nat)
    ensures i <= |formulas|
    ensures i < |formulas| ==> KeyMatches(formulas[i].0, col)
    ensures forall j :: 0 <= j < i ==> !KeyMatches(formulas[j].0, col)
  {
    if formulas == [] then 0
    else if KeyMatches(formulas[0].0, col) then 0
    else 1 + FirstMatch(formulas[1..], col)
  }

  /** The formula shown for column `col`: its own key first, else the first key ending with `.col`. */
  function LookupFormula(formulas: Formulas, col: string): Option<FormulaInfo>
  {
    match Get(formulas, col)
    case Some(info) => Some(info)
    case None =>
      var i := FirstMatch(formulas, col);
      if i < |formulas| then Some(formulas[i].1) else None
  }

  /**
   * A formula is found exactly when some key matches the column; it belongs
   * to the column's own key if there is one, and otherwise to the first
   * matching key.
   */
  lemma LookupFormulaSpec(formulas: Formulas, col: string)
    ensures LookupFormula(formulas, col).Some? <==> exists i :: 0 <= i < |formulas| && KeyMatches(formulas[i].0, col)
    ensures Get(formulas, col).Some? ==> LookupFormula(formulas, col) == Get(formulas, col)
    ensures Get(formulas, col).None? && LookupFormula(formulas, col).Some? ==>
      exists i :: 0 <= i < |formulas| && KeyMatches(formulas[i].0, col) && LookupFormula(formulas, col) == Some(formulas[i].1)
        && forall j :: 0 <= j < i ==> !KeyMatches(formulas[j].0, col)
  {
    if Get(formulas, col).Some? {
      GetKey(formulas, col);
    }
  }

  /** A key that has an entry is among the keys. */
  lemma {:induction false} GetKey(formulas: Formulas, col: string)
    requires Get(formulas, col).Some?
    ensures exists i :: 0 <= i < |formulas| && formulas[i].0 == col
  {
    if formulas[0].0 != col {
      GetKey(formulas[1..], col);
      var i :| 0 <= i < |formulas[1..]| && formulas[1..][i].0 == col;
      assert formulas[i + 1].0 == col;
    }
  }

  /** The lookup of the detailed sheet, a loop over the keys that stops at the first match. */
  method FindFormula(formulas: Formulas, col: string) returns (info: Option<FormulaInfo>)
    ensures info == LookupFormula(formulas, col)
  {
    info := Get(formulas, col);
    if info.None? {
      var i := 0;
      while i < |formulas|
        invariant i <= FirstMatch(formulas, col) && info.None?
      {
        if EndsWith(formulas[i].0, "." + col) || formulas[i].0 == col {
          info := Some(formulas[i].1);
          break;
        }
        i := i + 1;
      }
    }
  }

  /** A formula written as text: an apostrophe is put before a leading `=`. */
  function AsText(formula: string): (r: string)
    ensures !StartsWith(r, "=")
    ensures r != formula <==> StartsWith(formula, "=")
    ensures |r| <= |formula| + 1 && EndsWith(r, formula)
  {
    if StartsWith(formula, "=") then "'" + formula else formula
  }

  /** The original and translated formula texts of a row, or empty texts when there is no formula. */
  function FormulaTexts(info: Option<FormulaInfo>): (texts: (string, string))
    ensures info.None? ==> texts == ("", "")
    ensures info.Some? ==> EndsWith(texts.0, info.value.original)
    ensures info.Some? ==> EndsWith(texts.1, info.value.translated)
  {
    match info
    case None => ("", "")
    case Some(f) => (AsText(f.original), AsText(f.translated))
  }
}
