/**
 * The earlier report generator (`util/util_report/main.py`): the rules in which it differs
 * from the current one. Its file-name date and engine choice are in module FileNames
 * (`ParseFileDateLegacy`, `EngineFor`), its unbounded header scan in module Sheets
 * (`FindHeaderRowAnywhere`), and its status rule is the current one (`Rules.DetermineStatus`).
 * What is here: the positional Grand Total, the case-sensitive carry-forward, the
 * additional days without truncation and without exclusions, and the generator's fields as
 * its steps replace them.
 */
module Legacy {
  import opened Wrappers
  import opened Text
  import opened Pivot
  import opened Rules

  // ---------------------------------------------------------------- positional Grand Total

  /** Python's order on strings: code point by code point, a proper prefix first. */
  predicate LexLess(a: string, b: string) {
    if a == [] then b != []
    else if b == [] then false
    else a[0] < b[0] || (a[0] == b[0] && LexLess(a[1..], b[1..]))
  }

  predicate LexLe(a: string, b: string) { a == b || LexLess(a, b) }

  /** No string is below itself, and of two different ones at most one is below the other. */
  lemma {:induction false} LexLessAsymmetric(a: string, b: string)
    requires LexLess(a, b)
    ensures a != b && !LexLess(b, a)
  {
    if a != [] && b != [] && a[0] == b[0] {
      LexLessAsymmetric(a[1..], b[1..]);
    }
  }

  /** The columns of a pivot as pandas orders them: strictly ascending. */
  predicate SortedLabels(cols: seq<string>) {
    forall i, j :: 0 <= i < j < |cols| ==> LexLess(cols[i], cols[j])
  }

  /**
   * `iloc[:, get_loc('Administrative'):get_loc('Vacation') + 1].sum(axis=1)`: the cells
   * from the `Administrative` column through the `Vacation` column, by position; a
   * `KeyError` when either column is missing.
   */
  function GrandTotalByPosition(cols: seq<string>, values: seq<real>): (r: Result<real>)
    requires |values| == |cols|
    ensures r.Err? <==> Administrative !in cols || Vacation !in cols
  {
    PositionalSum(cols, values, Administrative, Vacation)
  }

  /** The cells from column `lo` through column `hi`, by position; a `KeyError` when either is missing. */
  function PositionalSum(cols: seq<string>, values: seq<real>, lo: string, hi: string): (r: Result<real>)
    requires |values| == |cols|
    ensures r.Err? <==> lo !in cols || hi !in cols
  {
    match (IndexOf(cols, lo), IndexOf(cols, hi))
    case (Some(s), Some(e)) => Ok(if s <= e then Sum(values[s..e + 1]) else 0.0)
    case _ => Err("KeyError")
  }

  /** Whether a label sorts from `lo` through `hi`. */
  predicate Within(c: string, lo: string, hi: string) { LexLe(lo, c) && LexLe(c, hi) }

  /** Whether a work type sorts from `Administrative` through `Vacation`. */
  predicate Between(c: string) { Within(c, Administrative, Vacation) }

  /** The cells of the columns whose labels sort from `lo` through `hi`. */
  function SumWithin(cols: seq<string>, values: seq<real>, lo: string, hi: string): real
    requires |values| == |cols|
  {
    if cols == [] then 0.0
    else (if Within(cols[0], lo, hi) then values[0] else 0.0) + SumWithin(cols[1..], values[1..], lo, hi)
  }

  /** The cells of the work types that sort from `Administrative` through `Vacation`. */
  function SumBetween(cols: seq<string>, values: seq<real>): real
    requires |values| == |cols|
  {
    SumWithin(cols, values, Administrative, Vacation)
  }

  /** When the columns within the bounds are exactly positions `s` up to `t`, their sum is that slice's. */
  lemma {:induction false} SumWithinSlice(cols: seq<string>, values: seq<real>, lo: string, hi: string, s: nat, t: nat)
    requires |values| == |cols| && s <= t <= |cols|
    requires forall j :: 0 <= j < |cols| ==> (Within(cols[j], lo, hi) <==> s <= j < t)
    ensures SumWithin(cols, values, lo, hi) == Sum(values[s..t])
  {
    if cols != [] {
      var ct, vt := cols[1..], values[1..];
      if s > 0 {
        assert !Within(cols[0], lo, hi);
        SumWithinSlice(ct, vt, lo, hi, s - 1, t - 1);
        assert vt[s - 1..t - 1] == values[s..t];
      } else if t > 0 {
        assert Within(cols[0], lo, hi);
        SumWithinSlice(ct, vt, lo, hi, 0, t - 1);
        assert values[0..t][1..] == vt[0..t - 1];
      } else {
        assert !Within(cols[0], lo, hi);
        SumWithinSlice(ct, vt, lo, hi, 0, 0);
      }
    }
  }

  /** On sorted labels, the labels within two present bounds are those from the lower's position through the upper's. */
  lemma {:induction false} SortedWithin(cols: seq<string>, values: seq<real>, lo: string, hi: string, s: nat, e: nat)
    requires |values| == |cols| && SortedLabels(cols) && LexLess(lo, hi)
    requires s < |cols| && e < |cols| && cols[s] == lo && cols[e] == hi
    ensures s <= e && SumWithin(cols, values, lo, hi) == Sum(values[s..e + 1])
  {
    if e < s {
      LexLessAsymmetric(cols[e], cols[s]);
    }
    forall j | 0 <= j < |cols| ensures Within(cols[j], lo, hi) <==> s <= j < e + 1 {
      WithinAt(cols, lo, hi, s, e, j);
    }
    SumWithinSlice(cols, values, lo, hi, s, e + 1);
  }

  lemma WithinAt(cols: seq<string>, lo: string, hi: string, s: nat, e: nat, j: nat)
    requires SortedLabels(cols) && s <= e < |cols| && j < |cols|
    requires cols[s] == lo && cols[e] == hi
    ensures Within(cols[j], lo, hi) <==> s <= j <= e
  {
    if j < s {
      LexLessAsymmetric(cols[j], cols[s]);
    } else if j > e {
      LexLessAsymmetric(cols[e], cols[j]);
    } else {
      assert j == s || LexLess(cols[s], cols[j]);
      assert j == e || LexLess(cols[j], cols[e]);
    }
  }

  lemma AdministrativeBeforeVacation()
    ensures LexLess(Administrative, Vacation)
  {
  }

  /**
   * On pandas' sorted columns, the positional Grand Total is the sum over the work types
   * that sort from `Administrative` through `Vacation`, whatever else the month holds.
   */
  lemma GrandTotalByPositionIsBetween(cols: seq<string>, values: seq<real>)
    requires |values| == |cols| && SortedLabels(cols)
    requires Administrative in cols && Vacation in cols
    ensures GrandTotalByPosition(cols, values) == Ok(SumBetween(cols, values))
  {
    AdministrativeBeforeVacation();
    PositionalSumIsWithin(cols, values, Administrative, Vacation);
  }

  /** On sorted labels, the positional sum between two present bounds is the sum over the labels within them. */
  lemma PositionalSumIsWithin(cols: seq<string>, values: seq<real>, lo: string, hi: string)
    requires |values| == |cols| && SortedLabels(cols) && LexLess(lo, hi)
    requires lo in cols && hi in cols
    ensures PositionalSum(cols, values, lo, hi) == Ok(SumWithin(cols, values, lo, hi))
  {
    var s, e := IndexOf(cols, lo).value, IndexOf(cols, hi).value;
    SortedWithin(cols, values, lo, hi, s, e);
  }

  /** When every work type sorts between the two, the earlier Grand Total is the current one: all cells. */
  lemma GrandTotalByPositionIsAll(cols: seq<string>, values: seq<real>)
    requires |values| == |cols| && SortedLabels(cols)
    requires Administrative in cols && Vacation in cols
    requires forall j :: 0 <= j < |cols| ==> Between(cols[j])
    ensures GrandTotalByPosition(cols, values) == Ok(Sum(values))
  {
    GrandTotalByPositionIsBetween(cols, values);
    SumWithinAll(cols, values, Administrative, Vacation);
  }

  lemma {:induction false} SumWithinAll(cols: seq<string>, values: seq<real>, lo: string, hi: string)
    requires |values| == |cols|
    requires forall j :: 0 <= j < |cols| ==> Within(cols[j], lo, hi)
    ensures SumWithin(cols, values, lo, hi) == Sum(values)
  {
    if cols != [] {
      SumWithinAll(cols[1..], values[1..], lo, hi);
    }
  }

  /** A work type sorting after `Vacation` is left out of the earlier Grand Total. */
  lemma GrandTotalByPositionSkipsLaterTypes()
    ensures var cols := [Administrative, Vacation, "Zoning"];
      GrandTotalByPosition(cols, [1.0, 1.0, 1.0]) == Ok(2.0) && Sum([1.0, 1.0, 1.0]) == 3.0
  {
    var cols := [Administrative, Vacation, "Zoning"];
    assert IndexOf(cols, Administrative) == Some(0);
    assert IndexOf(cols, Vacation) == Some(1);
    assert [1.0, 1.0, 1.0][0..2] == [1.0, 1.0];
    assert Sum([1.0]) == 1.0 by {
      assert [1.0][1..] == [];
    }
    assert Sum([1.0, 1.0]) == 2.0 by {
      assert [1.0, 1.0][1..] == [1.0];
    }
    assert Sum([1.0, 1.0, 1.0]) == 3.0 by {
      assert [1.0, 1.0, 1.0][1..] == [1.0, 1.0];
    }
  }

  // ---------------------------------------------------------------- last week

  /** `{e['resource_email_address']: e['addtnl_days'] for e in prev_data}`: the email as stored, later entries win. */
  function ExactLastWeekMap(prev: seq<PrevEntry>): (m: map<string, real>)
    ensures forall i :: 0 <= i < |prev| ==> prev[i].email in m
  {
    if prev == [] then map[]
    else ExactLastWeekMap(prev[..|prev| - 1])[prev[|prev| - 1].email := prev[|prev| - 1].addtnlDays]
  }

  /** The earlier `Last Week` column: `map(last_week_map).fillna(0)`, nothing in week 1. */
  function ExactLastWeek(weekNumber: int, prev: seq<PrevEntry>, email: string): real {
    var m := if weekNumber > 1 then ExactLastWeekMap(prev) else map[];
    if email in m then m[email] else 0.0
  }

  /** Week 1 carries nothing forward, and a resource no record names exactly gets 0. */
  lemma {:induction false} ExactLastWeekAbsent(w: int, prev: seq<PrevEntry>, email: string)
    requires w <= 1 || forall j :: 0 <= j < |prev| ==> prev[j].email != email
    ensures ExactLastWeek(w, prev, email) == 0.0
  {
    if w > 1 && prev != [] {
      var init := prev[..|prev| - 1];
      ExactLastWeekAbsent(w, init, email);
    }
  }

  /** From week 2 on, a resource gets the `addtnl_days` of the last record with exactly its email. */
  lemma {:induction false} ExactLastWeekIsLastMatch(w: int, prev: seq<PrevEntry>, email: string, i: nat)
    requires w > 1 && i < |prev| && prev[i].email == email
    requires forall j :: i < j < |prev| ==> prev[j].email != email
    ensures ExactLastWeek(w, prev, email) == prev[i].addtnlDays
  {
    if i < |prev| - 1 {
      var init := prev[..|prev| - 1];
      ExactLastWeekIsLastMatch(w, init, email, i);
    }
  }

  /** Unlike the current generator, the earlier one does not match emails across letter case. */
  lemma ExactLastWeekIsCaseSensitive()
    ensures ExactLastWeek(2, [PrevEntry("A", 3.0)], "a") == 0.0
    ensures LastWeek(2, [PrevEntry("A", 3.0)], "a") == 3.0
  {
    assert Lower("A") == "a";
    assert Lower("a") == "a";
  }

  // ---------------------------------------------------------------- additional days

  /** `clip(lower=0)`. */
  function Clip(x: real): (r: real)
    ensures r >= 0.0 && r >= x
  {
    if x > 0.0 then x else 0.0
  }

  /**
   * `compute_additional_days_vec`: on the cleaned billing type, `Billing` owes the missing
   * days against the required ones and `Partial` against half of them, neither cut to whole
   * days; every other type owes nothing, and no resource is exempt.
   */
  function LegacyAdditionalDays(billing: string, totalLogged: real, totalDays: int): (r: real)
    ensures r >= 0.0
    ensures r > 0.0 ==> SanitizeBilling(billing) == Billing || SanitizeBilling(billing) == Partial
  {
    var b := SanitizeBilling(billing);
    if b == Billing then Clip(totalDays as real - totalLogged)
    else if b == Partial then Clip(totalDays as real / 2.0 - totalLogged)
    else 0.0
  }

  /** A `Billing` row owes exactly what it misses of the required days; a `Partial` row, of half of them. */
  lemma LegacyAdditionalDaysExact(billing: string, totalLogged: real, totalDays: int)
    ensures var r := LegacyAdditionalDays(billing, totalLogged, totalDays);
      SanitizeBilling(billing) == Billing ==>
        (r == 0.0 <==> totalLogged >= totalDays as real) && (r > 0.0 ==> r + totalLogged == totalDays as real)
    ensures var r := LegacyAdditionalDays(billing, totalLogged, totalDays);
      SanitizeBilling(billing) == Partial ==>
        (r == 0.0 <==> 2.0 * totalLogged >= totalDays as real) && (r > 0.0 ==> 2.0 * (r + totalLogged) == totalDays as real)
  {
  }

  /** Logging more never raises the additional days. */
  lemma LegacyAdditionalDaysNonIncreasing(billing: string, lo: real, hi: real, totalDays: int)
    requires lo <= hi
    ensures LegacyAdditionalDays(billing, hi, totalDays) <= LegacyAdditionalDays(billing, lo, totalDays)
  {
    var b := SanitizeBilling(billing);
    var need := if b == Billing then totalDays as real else totalDays as real / 2.0;
    if b == Billing || b == Partial {
      assert Clip(need - hi) <= Clip(need - lo);
    }
  }

  /**
   * The current generator owes the whole days of the earlier one's amount for a resource
   * that is not excluded, and nothing for one that is.
   */
  lemma CurrentTruncatesLegacy(billing: string, excluded: bool, totalLogged: real, totalDays: int)
    ensures var current := AdditionalDays(SanitizeBilling(billing), excluded, totalLogged, totalDays);
      var earlier := LegacyAdditionalDays(billing, totalLogged, totalDays);
      (!excluded ==> current == earlier.Floor) && (excluded ==> current == 0) &&
      current as real <= earlier
  {
  }

  // ---------------------------------------------------------------- the generator's fields

  /** A row of the earlier generator's report once its columns are computed. */
  datatype LegacyRow = LegacyRow(
    email: string,
    billing: string,
    billable: real,        // the `Billable Hours` cell, 0 without one
    vacation: real,        // the `Vacation` cell
    lastWeek: real,        // Last Week
    totalLogged: real,     // Total Logged
    additionalDays: real,  // Additional Days
    status: Option<Status>)

  /** `add_additional_days_column` on one row; the billing type is written back cleaned. */
  function WithLegacyDays(r: LegacyRow, weekNumber: int, totalDays: int, prev: seq<PrevEntry>): (u: LegacyRow)
    ensures u.email == r.email && u.billable == r.billable && u.vacation == r.vacation && u.status == r.status
    ensures u.totalLogged == r.billable + r.vacation + u.lastWeek
    ensures u.additionalDays >= 0.0
  {
    var lw := ExactLastWeek(weekNumber, prev, r.email);
    var tl := r.billable + r.vacation + lw;
    r.(lastWeek := lw, totalLogged := tl, billing := SanitizeBilling(r.billing),
       additionalDays := LegacyAdditionalDays(r.billing, tl, totalDays))
  }

  /** `filter_exclusions` on one row: an open row of an excluded resource becomes closed. */
  function CloseIfExcludedLegacy(r: LegacyRow, excl: set<string>): LegacyRow {
    if r.status == Some(Open) && r.email in excl then r.(status := Some(Close)) else r
  }

  /** Only the status changes, exactly for the open rows of excluded resources; a second pass changes nothing. */
  lemma CloseIfExcludedLegacyLaws(r: LegacyRow, excl: set<string>)
    ensures var u := CloseIfExcludedLegacy(r, excl);
      u == r.(status := u.status) &&
      (u != r <==> r.status == Some(Open) && r.email in excl) &&
      (u != r ==> u.status == Some(Close)) &&
      CloseIfExcludedLegacy(u, excl) == u
    ensures CloseIfExcludedLegacy(r, {}) == r
  {
  }

  class LegacyGenerator {
    var weekNumber: int
    var totalDays: int
    var report: seq<LegacyRow>
    var exclusionSet: set<string>

    /** The generator after `parse_date_from_filename` and the pivot: the week and the rows. */
    constructor(weekNumber: int, report: seq<LegacyRow>)
      ensures this.weekNumber == weekNumber && this.totalDays == 5 * weekNumber
      ensures this.report == report && exclusionSet == {}
    {
      this.weekNumber := weekNumber;
      this.totalDays := 5 * weekNumber;
      this.report := report;
      exclusionSet := {};
    }

    /** `add_additional_days_column`: every row gets its carry-forward, logged days and additional days. */
    method AddAdditionalDaysColumn(prev: seq<PrevEntry>)
      modifies this`report
      ensures |report| == |old(report)|
      ensures forall i :: 0 <= i < |report| ==> report[i] == WithLegacyDays(old(report)[i], weekNumber, totalDays, prev)
    {
      var rows, w, days := report, weekNumber, totalDays;
      report := seq(|rows|, i requires 0 <= i < |rows| => WithLegacyDays(rows[i], w, days, prev));
    }

    /** `apply_status`: the current generator's status rule, row by row. */
    method ApplyStatus()
      modifies this`report
      ensures |report| == |old(report)|
      ensures forall i :: 0 <= i < |report| ==>
        report[i] == old(report)[i].(status := Some(DetermineStatus(old(report)[i].billing, old(report)[i].billable,
                                                                     old(report)[i].vacation, totalDays)))
    {
      var rows, days := report, totalDays;
      report := seq(|rows|, i requires 0 <= i < |rows| =>
        rows[i].(status := Some(DetermineStatus(rows[i].billing, rows[i].billable, rows[i].vacation, days))));
    }

    /** `get_exclusion_list`. */
    method GetExclusionList(entries: seq<string>)
      modifies this`exclusionSet
      ensures exclusionSet == ExclusionSet(entries)
    {
      exclusionSet := ExclusionSet(entries);
    }

    /** `filter_exclusions`: the open rows of excluded resources close, and nothing else changes. */
    method FilterExclusions()
      modifies this`report
      ensures |report| == |old(report)|
      ensures forall i :: 0 <= i < |report| ==> report[i] == CloseIfExcludedLegacy(old(report)[i], exclusionSet)
    {
      var rows, excl := report, exclusionSet;
      report := seq(|rows|, i requires 0 <= i < |rows| => CloseIfExcludedLegacy(rows[i], excl));
    }
  }
}
