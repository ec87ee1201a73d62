/**
 * The current report generator (`UtilizationReportGenerator`): it parses the report
 * date from the upload's name, keeps the cost centre's WTD and MTD rows, pivots the
 * month's days per resource, joins the WTD actuals and the resource reference table,
 * computes each resource's carried-forward days, logged days, additional days and
 * status, closes excluded resources, and turns the result into report records.
 *
 * The generator keeps its intermediate tables in fields that each step replaces, so it
 * is a class; what each step computes is a function below, and the properties of a
 * whole run are lemmas about `FinalReport`.
 */
module Generator {
  import opened Wrappers
  import opened Text
  import opened Calendar
  import opened FileNames
  import opened Sheets
  import opened Extract
  import opened Pivot
  import opened Joins
  import opened Rules
  import opened ReportModel

  /** The pivot column whose cells the status and the stored record read as billable hours. */
  const BillableHours: string := "Billable Hours"

  /** A report row once `add_additional_days_column` and `apply_status` have run. */
  datatype ReportRow = ReportRow(
    base: MergedRow,       // pivot cells, Grand Total, WTD Actuals, RDM, Track, unsanitised billing
    lastWeek: real,        // Last Week
    totalLogged: real,     // Total Logged
    billing: string,       // Billing after sanitising
    additionalDays: int,   // Additional Days
    status: Option<Status>) // Status, once apply_status has run

  function Email(r: ReportRow): string { r.base.pivot.email }

  /** `row.get(c, 0)` on one of the pivot's work-type columns. */
  function CellOr0(cols: seq<string>, m: MergedRow, c: string): real {
    CellOf(cols, m.pivot, c).GetOr(0.0)
  }

  /**
   * The billable part of `Total Logged`: the `Billable Hours` column when the table has
   * one, otherwise `WTD Actuals`, with a missing value counting 0.
   */
  function LoggedBillable(cols: seq<string>, m: MergedRow): (r: real)
    ensures BillableHours !in cols ==> r == m.wtdActuals.GetOr(0.0)
  {
    match CellOf(cols, m.pivot, BillableHours)
    case Some(v) => v
    case None => m.wtdActuals.GetOr(0.0)
  }

  /** One row of `add_additional_days_column`. */
  function WithDays(cols: seq<string>, m: MergedRow, weekNumber: int, totalDays: int,
                    prev: seq<PrevEntry>, excl: set<string>): (r: ReportRow)
    ensures r.base == m && r.status.None? && r.additionalDays >= 0
    ensures r.billing != "" && r.billing != "None"
    ensures r.additionalDays > 0 ==> m.pivot.email !in excl && (r.billing == Billing || r.billing == Partial)
  {
    var lw := LastWeek(weekNumber, prev, m.pivot.email);
    var tl := LoggedBillable(cols, m) + CellOr0(cols, m, Vacation) + lw;
    var b := SanitizeBilling(m.billing);
    ReportRow(m, lw, tl, b, AdditionalDays(b, m.pivot.email in excl, tl, totalDays), None)
  }

  /** `add_additional_days_column` over a non-empty merged report: the merged rows, in order, with the new columns. */
  function AddAdditionalDays(cols: seq<string>, rows: seq<MergedRow>, weekNumber: int, totalDays: int,
                             prev: seq<PrevEntry>, excl: set<string>): seq<ReportRow>
  {
    if rows == [] then []
    else [WithDays(cols, rows[0], weekNumber, totalDays, prev, excl)] + AddAdditionalDays(cols, rows[1..], weekNumber, totalDays, prev, excl)
  }

  /**
   * `determine_status` on a report row: billable hours from the `Billable Hours` column
   * only (0 without it), plus vacation. The row's billing type is already sanitised, so
   * the rule reads it as it is (`StatusOfIsDetermineStatus`).
   */
  function StatusOf(cols: seq<string>, r: ReportRow, totalDays: int): Status {
    StatusRule(r.billing, CellOr0(cols, r.base, BillableHours) + CellOr0(cols, r.base, Vacation), totalDays)
  }

  /** On a row with a sanitised billing type, the status is `determine_status`'s, strip included. */
  lemma StatusOfIsDetermineStatus(cols: seq<string>, r: ReportRow, totalDays: int)
    requires r.billing != [] && !IsSpace(r.billing[0]) && !IsSpace(r.billing[|r.billing| - 1])
    ensures StatusOf(cols, r, totalDays) ==
      DetermineStatus(r.billing, CellOr0(cols, r.base, BillableHours), CellOr0(cols, r.base, Vacation), totalDays)
  {
    DetermineStatusOfStripped(r.billing, CellOr0(cols, r.base, BillableHours), CellOr0(cols, r.base, Vacation), totalDays);
  }

  /** `apply_status` on one row. */
  function WithStatus(cols: seq<string>, r: ReportRow, totalDays: int): ReportRow {
    r.(status := Some(StatusOf(cols, r, totalDays)))
  }

  /** `apply_status`. */
  function ApplyStatus(cols: seq<string>, rows: seq<ReportRow>, totalDays: int): seq<ReportRow> {
    if rows == [] then [] else [WithStatus(cols, rows[0], totalDays)] + ApplyStatus(cols, rows[1..], totalDays)
  }

  /** `filter_exclusions` on one row: an open row of an excluded resource becomes closed. */
  function CloseIfExcluded(r: ReportRow, excl: set<string>): ReportRow {
    if r.status == Some(Open) && Email(r) in excl then r.(status := Some(Close)) else r
  }

  /** `filter_exclusions` with a non-empty set. */
  function CloseExcluded(rows: seq<ReportRow>, excl: set<string>): seq<ReportRow> {
    if rows == [] then [] else [CloseIfExcluded(rows[0], excl)] + CloseExcluded(rows[1..], excl)
  }

  /** Only the status can change, and it changes exactly for the open rows of excluded resources, which close. */
  lemma {:induction false} CloseExcludedRows(rows: seq<ReportRow>, excl: set<string>)
    ensures var r := CloseExcluded(rows, excl);
      |r| == |rows| &&
      (forall i :: 0 <= i < |r| ==> r[i] == rows[i].(status := r[i].status)) &&
      (forall i :: 0 <= i < |r| ==> (r[i] != rows[i] <==> rows[i].status == Some(Open) && Email(rows[i]) in excl)) &&
      (forall i :: 0 <= i < |r| && r[i] != rows[i] ==> r[i].status == Some(Close))
  {
    if rows != [] {
      CloseExcludedRows(rows[1..], excl);
    }
  }

  /** Closing the excluded twice is closing them once. */
  lemma {:induction false} CloseExcludedIdempotent(rows: seq<ReportRow>, excl: set<string>)
    ensures CloseExcluded(CloseExcluded(rows, excl), excl) == CloseExcluded(rows, excl)
  {
    if rows != [] {
      CloseExcludedIdempotent(rows[1..], excl);
      var once := CloseExcluded(rows, excl);
      assert once[1..] == CloseExcluded(rows[1..], excl);
    }
  }

  /** With no excluded resource nothing changes. */
  lemma {:induction false} CloseExcludedNothing(rows: seq<ReportRow>)
    ensures CloseExcluded(rows, {}) == rows
  {
    if rows != [] {
      CloseExcludedNothing(rows[1..]);
    }
  }

  /** A row as the whole run leaves it: days, then status, then exclusions. */
  function FinalRow(cols: seq<string>, m: MergedRow, weekNumber: int, totalDays: int,
                    prev: seq<PrevEntry>, excl: set<string>): ReportRow
  {
    CloseIfExcluded(WithStatus(cols, WithDays(cols, m, weekNumber, totalDays, prev, excl), totalDays), excl)
  }

  function FinalRows(cols: seq<string>, rows: seq<MergedRow>, weekNumber: int, totalDays: int,
                     prev: seq<PrevEntry>, excl: set<string>): seq<ReportRow>
  {
    if rows == [] then []
    else [FinalRow(cols, rows[0], weekNumber, totalDays, prev, excl)] + FinalRows(cols, rows[1..], weekNumber, totalDays, prev, excl)
  }

  lemma {:induction false} FinalRowsAt(cols: seq<string>, rows: seq<MergedRow>, weekNumber: int, totalDays: int,
                                       prev: seq<PrevEntry>, excl: set<string>)
    ensures var r := FinalRows(cols, rows, weekNumber, totalDays, prev, excl);
      |r| == |rows| && forall i :: 0 <= i < |r| ==> r[i] == FinalRow(cols, rows[i], weekNumber, totalDays, prev, excl)
  {
    if rows != [] {
      FinalRowsAt(cols, rows[1..], weekNumber, totalDays, prev, excl);
    }
  }

  /** The three steps, table by table, are the row-by-row run. */
  lemma {:induction false} StepsAreRowByRow(cols: seq<string>, rows: seq<MergedRow>, weekNumber: int, totalDays: int,
                                            prev: seq<PrevEntry>, excl: set<string>)
    ensures CloseExcluded(ApplyStatus(cols, AddAdditionalDays(cols, rows, weekNumber, totalDays, prev, excl), totalDays), excl)
      == FinalRows(cols, rows, weekNumber, totalDays, prev, excl)
  {
    if rows != [] {
      StepsAreRowByRow(cols, rows[1..], weekNumber, totalDays, prev, excl);
    }
  }

  /**
   * `generate_final_report` on a fresh generator, as a function of its inputs: the
   * date context, the kept WTD and MTD tables, the reference table, last week's records
   * and the exclusion table.
   */
  function FinalReport(ctx: DateContext, wtd: seq<WtdActual>, mtd: seq<DayRow>, refs: seq<Reference>,
                       prev: seq<PrevEntry>, exclusions: seq<string>): seq<ReportRow>
  {
    var t := PivotOf(mtd);
    FinalRows(t.columns, MergeReference(MergeWtd(t, wtd), refs), ctx.weekNumber, ctx.totalDays, prev,
              ExclusionSet(exclusions))
  }

  /** The tables a run builds step by step give `FinalReport`. */
  lemma FinalReportOfSteps(ctx: DateContext, wtd: seq<WtdActual>, mtd: seq<DayRow>, refs: seq<Reference>,
                           prev: seq<PrevEntry>, exclusions: seq<string>,
                           cols: seq<string>, init: seq<InitialRow>, merged: seq<MergedRow>)
    requires cols == PivotOf(mtd).columns && init == MergeWtd(PivotOf(mtd), wtd)
    requires merged == MergeReference(init, refs)
    ensures FinalRows(cols, merged, ctx.weekNumber, ctx.totalDays, prev, ExclusionSet(exclusions))
      == FinalReport(ctx, wtd, mtd, refs, prev, exclusions)
  {
  }

  // ---------------------------------------------------------------- one row of the run

  /** An excluded resource ends closed and owing nothing. */
  lemma {:induction false} FinalRowExcluded(cols: seq<string>, m: MergedRow, weekNumber: int, totalDays: int,
                         prev: seq<PrevEntry>, excl: set<string>)
    requires m.pivot.email in excl
    ensures var r := FinalRow(cols, m, weekNumber, totalDays, prev, excl);
      r.status == Some(Close) && r.additionalDays == 0
  {
    var w := WithDays(cols, m, weekNumber, totalDays, prev, excl);
    assert WithStatus(cols, w, totalDays).status.Some?;
  }

  /** Only a non-excluded `Billing` or `Partial` resource can owe days, and nobody owes a negative number. */
  lemma {:induction false} FinalRowOwing(cols: seq<string>, m: MergedRow, weekNumber: int, totalDays: int,
                      prev: seq<PrevEntry>, excl: set<string>)
    ensures var r := FinalRow(cols, m, weekNumber, totalDays, prev, excl);
      r.base == m && r.status.Some? && r.additionalDays >= 0 &&
      r.billing == SanitizeBilling(m.billing) &&
      (r.additionalDays > 0 ==> m.pivot.email !in excl && (r.billing == Billing || r.billing == Partial))
  {
    var w := WithDays(cols, m, weekNumber, totalDays, prev, excl);
    assert WithStatus(cols, w, totalDays).status.Some?;
  }

  /**
   * With the `Billable Hours` column present and last week's carried days not negative,
   * a closed `Billing` or `Partial` row owes nothing: status and additional days then
   * read the same hours.
   */
  lemma FinalRowClosedOwesNothing(cols: seq<string>, m: MergedRow, weekNumber: int, totalDays: int,
                                  prev: seq<PrevEntry>, excl: set<string>)
    requires BillableHours in cols && |m.pivot.values| == |cols|
    requires forall p :: p in prev ==> p.addtnlDays >= 0.0
    requires var r := FinalRow(cols, m, weekNumber, totalDays, prev, excl);
      r.status == Some(Close) && (r.billing == Billing || r.billing == Partial)
    ensures FinalRow(cols, m, weekNumber, totalDays, prev, excl).additionalDays == 0
  {
    var w := WithDays(cols, m, weekNumber, totalDays, prev, excl);
    if m.pivot.email !in excl {
      var lw := LastWeek(weekNumber, prev, m.pivot.email);
      LastWeekNonNegative(weekNumber, prev, m.pivot.email);
      var billable := CellOr0(cols, m, BillableHours);
      var vacation := CellOr0(cols, m, Vacation);
      assert LoggedBillable(cols, m) == billable;
      assert StatusOf(cols, w, totalDays) == Close;
      ClosedRuleOwesNothing(w.billing, billable + vacation, lw, totalDays, false);
    }
  }

  // ---------------------------------------------------------------- the whole run

  /** A run's report is one row per merged row, in order. */
  lemma FinalReportRows(ctx: DateContext, wtd: seq<WtdActual>, mtd: seq<DayRow>, refs: seq<Reference>,
                        prev: seq<PrevEntry>, exclusions: seq<string>)
    ensures var t := PivotOf(mtd);
      var merged := MergeReference(MergeWtd(t, wtd), refs);
      var out := FinalReport(ctx, wtd, mtd, refs, prev, exclusions);
      |out| == |merged| &&
      forall i :: 0 <= i < |out| ==>
        out[i] == FinalRow(t.columns, merged[i], ctx.weekNumber, ctx.totalDays, prev, ExclusionSet(exclusions))
  {
    var t := PivotOf(mtd);
    FinalRowsAt(t.columns, MergeReference(MergeWtd(t, wtd), refs), ctx.weekNumber, ctx.totalDays, prev,
                ExclusionSet(exclusions));
  }

  /** Every row of the report carries a pivot row of the month, with one cell per column. */
  lemma FinalReportPivotRows(ctx: DateContext, wtd: seq<WtdActual>, mtd: seq<DayRow>, refs: seq<Reference>,
                             prev: seq<PrevEntry>, exclusions: seq<string>, i: nat)
    requires i < |FinalReport(ctx, wtd, mtd, refs, prev, exclusions)|
    ensures var t := PivotOf(mtd);
      var r := FinalReport(ctx, wtd, mtd, refs, prev, exclusions)[i];
      r.base.pivot in t.rows && |r.base.pivot.values| == |t.columns|
  {
    var t := PivotOf(mtd);
    var init := MergeWtd(t, wtd);
    var merged := MergeReference(init, refs);
    var excl := ExclusionSet(exclusions);
    FinalRowsAt(t.columns, merged, ctx.weekNumber, ctx.totalDays, prev, excl);
    assert FinalReport(ctx, wtd, mtd, refs, prev, exclusions)[i].base == merged[i];
    MergeWtdRows(t, wtd);
    MergeReferenceRows(init, refs);
    assert merged[i] in merged;
    var x :| x in init && merged[i].pivot == x.pivot;
    var k :| 0 <= k < |t.rows| && t.rows[k] == x.pivot;
    PivotRowShape(mtd, k);
  }

  /** Every resource with days under a named work type in the month has a row in the report. */
  lemma FinalReportCoversResources(ctx: DateContext, wtd: seq<WtdActual>, mtd: seq<DayRow>, refs: seq<Reference>,
                                   prev: seq<PrevEntry>, exclusions: seq<string>, d: DayRow)
    requires d in mtd && Keyed(d)
    ensures exists r :: r in FinalReport(ctx, wtd, mtd, refs, prev, exclusions) && Email(r) == d.email
  {
    var t := PivotOf(mtd);
    PivotCoversResources(mtd, d);
    var i :| 0 <= i < |t.rows| && t.rows[i].email == d.email;
    var k := MergedKeepsPivotRow(t, wtd, refs, i);
    var merged := MergeReference(MergeWtd(t, wtd), refs);
    FinalReportRows(ctx, wtd, mtd, refs, prev, exclusions);
    FinalRowOwing(t.columns, merged[k], ctx.weekNumber, ctx.totalDays, prev, ExclusionSet(exclusions));
    var out := FinalReport(ctx, wtd, mtd, refs, prev, exclusions);
    assert out[k] in out && Email(out[k]) == d.email;
  }

  /** The position in the merged report of a pivot row. */
  lemma MergedKeepsPivotRow(t: PivotTable, wtd: seq<WtdActual>, refs: seq<Reference>, i: nat)
    returns (k: nat)
    requires i < |t.rows|
    ensures var merged := MergeReference(MergeWtd(t, wtd), refs);
      k < |merged| && merged[k].pivot == t.rows[i]
  {
    var init := MergeWtd(t, wtd);
    var merged := MergeReference(init, refs);
    MergeWtdKeepsResources(t, wtd);
    assert t.rows[i] in t.rows;
    var x :| x in init && x.pivot == t.rows[i];
    MergeReferenceKeepsResources(init, refs, x);
    var m :| m in merged && m.pivot == x.pivot && m.wtdActuals == x.wtdActuals;
    k :| 0 <= k < |merged| && merged[k] == m;
  }

  /**
   * A report row belongs to a named resource, and its Grand Total is all the days the
   * resource logged in the month under a named work type.
   */
  lemma FinalReportGrandTotal(ctx: DateContext, wtd: seq<WtdActual>, mtd: seq<DayRow>, refs: seq<Reference>,
                              prev: seq<PrevEntry>, exclusions: seq<string>, i: nat)
    requires i < |FinalReport(ctx, wtd, mtd, refs, prev, exclusions)|
    ensures var r := FinalReport(ctx, wtd, mtd, refs, prev, exclusions)[i];
      Email(r) != "" && r.base.pivot.grandTotal == EmailSum(mtd, Email(r)) - CellSum(mtd, Email(r), "")
  {
    FinalReportPivotRows(ctx, wtd, mtd, refs, prev, exclusions, i);
    var t := PivotOf(mtd);
    var p := FinalReport(ctx, wtd, mtd, refs, prev, exclusions)[i].base.pivot;
    var k :| 0 <= k < |t.rows| && t.rows[k] == p;
    PivotHasNoBlankKeys(mtd);
    PivotGrandTotal(mtd);
  }

  /** An excluded resource ends closed and owing nothing. */
  lemma FinalReportExcludedClosed(ctx: DateContext, wtd: seq<WtdActual>, mtd: seq<DayRow>, refs: seq<Reference>,
                                  prev: seq<PrevEntry>, exclusions: seq<string>, i: nat)
    requires i < |FinalReport(ctx, wtd, mtd, refs, prev, exclusions)|
    requires Email(FinalReport(ctx, wtd, mtd, refs, prev, exclusions)[i]) in ExclusionSet(exclusions)
    ensures var r := FinalReport(ctx, wtd, mtd, refs, prev, exclusions)[i];
      r.status == Some(Close) && r.additionalDays == 0
  {
    var t := PivotOf(mtd);
    var merged := MergeReference(MergeWtd(t, wtd), refs);
    FinalReportRows(ctx, wtd, mtd, refs, prev, exclusions);
    FinalRowOwing(t.columns, merged[i], ctx.weekNumber, ctx.totalDays, prev, ExclusionSet(exclusions));
    FinalRowExcluded(t.columns, merged[i], ctx.weekNumber, ctx.totalDays, prev, ExclusionSet(exclusions));
  }

  /** Only a non-excluded `Billing` or `Partial` resource can owe days. */
  lemma FinalReportOwingTypes(ctx: DateContext, wtd: seq<WtdActual>, mtd: seq<DayRow>, refs: seq<Reference>,
                              prev: seq<PrevEntry>, exclusions: seq<string>, i: nat)
    requires i < |FinalReport(ctx, wtd, mtd, refs, prev, exclusions)|
    requires FinalReport(ctx, wtd, mtd, refs, prev, exclusions)[i].additionalDays > 0
    ensures var r := FinalReport(ctx, wtd, mtd, refs, prev, exclusions)[i];
      Email(r) !in ExclusionSet(exclusions) && (r.billing == Billing || r.billing == Partial)
  {
    var t := PivotOf(mtd);
    var merged := MergeReference(MergeWtd(t, wtd), refs);
    FinalReportRows(ctx, wtd, mtd, refs, prev, exclusions);
    FinalRowOwing(t.columns, merged[i], ctx.weekNumber, ctx.totalDays, prev, ExclusionSet(exclusions));
  }

  /**
   * Where the month has a `Billable Hours` column and last week's carried days are not
   * negative, a closed `Billing` or `Partial` resource owes nothing.
   */
  lemma FinalReportClosedOwesNothing(ctx: DateContext, wtd: seq<WtdActual>, mtd: seq<DayRow>, refs: seq<Reference>,
                                     prev: seq<PrevEntry>, exclusions: seq<string>, i: nat)
    requires i < |FinalReport(ctx, wtd, mtd, refs, prev, exclusions)|
    requires BillableHours in PivotOf(mtd).columns
    requires forall p :: p in prev ==> p.addtnlDays >= 0.0
    requires var r := FinalReport(ctx, wtd, mtd, refs, prev, exclusions)[i];
      r.status == Some(Close) && (r.billing == Billing || r.billing == Partial)
    ensures FinalReport(ctx, wtd, mtd, refs, prev, exclusions)[i].additionalDays == 0
  {
    var t := PivotOf(mtd);
    var merged := MergeReference(MergeWtd(t, wtd), refs);
    FinalReportRows(ctx, wtd, mtd, refs, prev, exclusions);
    FinalReportPivotRows(ctx, wtd, mtd, refs, prev, exclusions, i);
    FinalRowOwing(t.columns, merged[i], ctx.weekNumber, ctx.totalDays, prev, ExclusionSet(exclusions));
    FinalRowClosedOwesNothing(t.columns, merged[i], ctx.weekNumber, ctx.totalDays, prev, ExclusionSet(exclusions));
  }

  /** Carried days are never negative when last week's records are not. */
  lemma LastWeekNonNegative(w: int, prev: seq<PrevEntry>, email: string)
    requires forall p :: p in prev ==> p.addtnlDays >= 0.0
    ensures LastWeek(w, prev, email) >= 0.0
  {
    if w > 1 && Lower(email) in LastWeekMap(prev) {
      LastWeekMapNonNegative(prev);
    }
  }

  lemma {:induction false} LastWeekMapNonNegative(prev: seq<PrevEntry>)
    requires forall p :: p in prev ==> p.addtnlDays >= 0.0
    ensures forall k :: k in LastWeekMap(prev) ==> LastWeekMap(prev)[k] >= 0.0
  {
    if prev != [] {
      var init := prev[..|prev| - 1];
      assert forall p :: p in init ==> p in prev;
      LastWeekMapNonNegative(init);
      assert prev[|prev| - 1] in prev;
    }
  }

  // ---------------------------------------------------------------- utilization figures

  function TotalCapacity(wtd: seq<WtdActual>): real {
    if wtd == [] then 0.0 else wtd[0].capacity + TotalCapacity(wtd[1..])
  }

  function TotalBillable(wtd: seq<WtdActual>): real {
    if wtd == [] then 0.0 else wtd[0].billableHours + TotalBillable(wtd[1..])
  }

  function TotalAdditionalDays(rows: seq<ReportRow>): int {
    if rows == [] then 0 else rows[0].additionalDays + TotalAdditionalDays(rows[1..])
  }

  /** `calculate_dams_utilization`: billable hours as a percentage of capacity (0 for no capacity). */
  function DamsUtilization(wtd: seq<WtdActual>): (r: real)
    ensures TotalCapacity(wtd) == 0.0 ==> r == 0.0
    ensures TotalCapacity(wtd) != 0.0 ==> r * TotalCapacity(wtd) == TotalBillable(wtd) * 100.0
  {
    var cap := TotalCapacity(wtd);
    if cap == 0.0 then 0.0 else TotalBillable(wtd) / cap * 100.0
  }

  /** `Individual Utilization`: a resource's billable hours as a percentage of its capacity (0 for no capacity). */
  function IndividualUtilization(w: WtdActual): (r: real)
    ensures w.capacity != 0.0 ==> r * w.capacity == w.billableHours * 100.0
  {
    if w.capacity == 0.0 then 0.0 else w.billableHours / w.capacity * 100.0
  }

  /** `dict(zip(Consultant Name, Individual Utilization))`: a later row of the same consultant wins. */
  function IndividualMap(wtd: seq<WtdActual>): (m: map<string, real>)
    ensures forall w :: w in wtd ==> w.consultant in m
    ensures forall k :: k in m ==> exists w :: w in wtd && w.consultant == k && m[k] == IndividualUtilization(w)
  {
    if wtd == [] then map[]
    else
      var m := IndividualMap(wtd[..|wtd| - 1]);
      var w := wtd[|wtd| - 1];
      assert forall x :: x in wtd <==> x in wtd[..|wtd| - 1] || x == w by {
        assert wtd == wtd[..|wtd| - 1] + [w];
      }
      m[w.consultant := IndividualUtilization(w)]
  }

  // ---------------------------------------------------------------- records

  /** The fields of a report record that do not depend on the row. */
  datatype Figures = Figures(date: Date, dams: real, capable: real, totalCapacity: real, individual: map<string, real>)

  /** The figures `save_to_model` computes once before it builds the records. */
  function FiguresOf(ctx: DateContext, wtd: seq<WtdActual>, report: seq<ReportRow>): (f: Figures)
    ensures f.date == ctx.parsed && f.totalCapacity == TotalCapacity(wtd)
    ensures TotalCapacity(wtd) > 0.0 && TotalAdditionalDays(report) == 0 ==> f.capable == f.dams
    ensures TotalCapacity(wtd) <= 0.0 ==> f.capable == 0.0
  {
    Figures(ctx.parsed, DamsUtilization(wtd),
            CapableUtilization(TotalBillable(wtd), TotalAdditionalDays(report) as real, TotalCapacity(wtd)),
            TotalCapacity(wtd), IndividualMap(wtd))
  }

  /** `x or default` on a text cell. */
  function OrDefault(s: string, default: string): (r: string)
    ensures r != "" || default == ""
  {
    if s == "" then default else s
  }

  /** The record `save_to_model` builds for one row with a non-empty email. */
  function RecordOf(cols: seq<string>, r: ReportRow, f: Figures): Record {
    var email := Lower(Email(r));
    var m := r.base;
    var billable := CellOr0(cols, m, BillableHours);
    var vacation := CellOr0(cols, m, Vacation);
    var rdm := OrDefault(m.rdm, "Adam");
    Record(
      email,
      CellOr0(cols, m, Administrative), billable, CellOr0(cols, m, "Department Mgmt"),
      CellOr0(cols, m, "Investment"), CellOr0(cols, m, "Presales"), CellOr0(cols, m, "Training"),
      CellOr0(cols, m, "Unassigned"), vacation, m.pivot.grandTotal, r.lastWeek,
      r.status.GetOr(Open), billable + vacation + r.lastWeek, r.additionalDays as real,
      m.wtdActuals.GetOr(0.0),
      Some(rdm), Some(""), Some(""), Some(rdm), Some(m.track), Some(OrDefault(r.billing, Tbd)),
      f.date, f.dams, f.capable, if email in f.individual then f.individual[email] else 0.0,
      f.totalCapacity)
  }

  /** The records of a report: one per row with an email, in row order. */
  function RecordsOf(cols: seq<string>, rows: seq<ReportRow>, f: Figures): (rs: seq<Record>)
    ensures |rs| <= |rows|
  {
    if rows == [] then []
    else
      var last := rows[|rows| - 1];
      RecordsOf(cols, rows[..|rows| - 1], f) + (if Email(last) == "" then [] else [RecordOf(cols, last, f)])
  }

  /** The records of one more row of a report. */
  lemma RecordsOfPrefix(cols: seq<string>, rows: seq<ReportRow>, i: nat, f: Figures)
    requires i < |rows|
    ensures RecordsOf(cols, rows[..i + 1], f) ==
            RecordsOf(cols, rows[..i], f) + (if Email(rows[i]) == "" then [] else [RecordOf(cols, rows[i], f)])
  {
    assert rows[..i + 1][..i] == rows[..i];
  }

  /**
   * Every saved record belongs to a row of the report: lower-cased non-empty email, the
   * run's date and figures, the row's status and days, an RDM that also stands as SPOC,
   * a billing type, empty comments, and a Total Logged of billable hours, vacation and
   * last week.
   */
  lemma {:induction false} RecordsWellFormed(cols: seq<string>, rows: seq<ReportRow>, f: Figures, k: nat)
    requires k < |RecordsOf(cols, rows, f)|
    ensures var rec := RecordsOf(cols, rows, f)[k];
      exists r :: r in rows && Email(r) != "" && rec.email == Lower(Email(r)) &&
        rec.status == r.status.GetOr(Open) && rec.addtnlDays == r.additionalDays as real &&
        rec.lastWeek == r.lastWeek && rec.grandTotal == r.base.pivot.grandTotal
    ensures var rec := RecordsOf(cols, rows, f)[k];
      rec.email != "" && Lower(rec.email) == rec.email && rec.date == f.date &&
      rec.damsUtilization == f.dams && rec.capableUtilization == f.capable &&
      rec.totalCapacity == f.totalCapacity &&
      rec.rdm.Some? && rec.rdm.value != "" && rec.spoc == rec.rdm &&
      rec.billing.Some? && rec.billing.value != "" &&
      rec.comments == Some("") && rec.spocComments == Some("") &&
      rec.totalLogged == rec.billableHours + rec.vacation + rec.lastWeek
    decreases |rows|
  {
    var init := rows[..|rows| - 1];
    var last := rows[|rows| - 1];
    var rs := RecordsOf(cols, rows, f);
    if k < |RecordsOf(cols, init, f)| {
      RecordsWellFormed(cols, init, f, k);
      assert rs[k] == RecordsOf(cols, init, f)[k];
      var r :| r in init && Email(r) != "" && rs[k].email == Lower(Email(r)) &&
        rs[k].status == r.status.GetOr(Open) && rs[k].addtnlDays == r.additionalDays as real &&
        rs[k].lastWeek == r.lastWeek && rs[k].grandTotal == r.base.pivot.grandTotal;
      assert r in rows;
    } else {
      assert rs[k] == RecordOf(cols, last, f);
      LowerIdempotent(Email(last));
      assert last in rows;
    }
  }

  /** The positions of the rows that have an email. */
  function EmailIndices(rows: seq<ReportRow>): set<int> {
    set i | 0 <= i < |rows| && Email(rows[i]) != ""
  }

  /** Exactly the rows with an email are saved. */
  lemma {:induction false} RecordsCount(cols: seq<string>, rows: seq<ReportRow>, f: Figures)
    ensures |RecordsOf(cols, rows, f)| == |EmailIndices(rows)|
    decreases |rows|
  {
    if rows != [] {
      var n := |rows| - 1;
      RecordsCount(cols, rows[..n], f);
      EmailIndicesSnoc(rows);
    }
  }

  lemma EmailIndicesSnoc(rows: seq<ReportRow>)
    requires rows != []
    ensures var n := |rows| - 1;
      |EmailIndices(rows)| == |EmailIndices(rows[..n])| + if Email(rows[n]) == "" then 0 else 1
  {
    var n := |rows| - 1;
    var before := EmailIndices(rows[..n]);
    assert before == set i | 0 <= i < n && Email(rows[i]) != "";
    if Email(rows[n]) == "" {
      assert EmailIndices(rows) == before;
    } else {
      assert EmailIndices(rows) == before + {n};
    }
  }

  // ---------------------------------------------------------------- the generator object

  class ReportGenerator {
    const filePath: string
    var context: Option<DateContext>
    var engine: Option<Engine>
    var wtd: seq<WtdActual>
    var mtd: seq<DayRow>
    var columns: seq<string>
    var initialReport: seq<InitialRow>
    var merged: seq<MergedRow>
    var report: seq<ReportRow>
    var exclusionSet: Option<set<string>>

    constructor(path: string)
      ensures filePath == path && context.None? && engine.None? && exclusionSet.None?
      ensures wtd == [] && mtd == [] && columns == [] && initialReport == [] && merged == [] && report == []
    {
      filePath := path;
      context := None;
      engine := None;
      wtd := [];
      mtd := [];
      columns := [];
      initialReport := [];
      merged := [];
      report := [];
      exclusionSet := None;
    }

    /** `parse_date_from_filename`. */
    method ParseDateFromFilename() returns (r: Result<DateContext>)
      modifies this`context
      ensures r == ParseFileDate(filePath)
      ensures context == if r.Ok? then Some(r.value) else old(context)
    {
      r := ParseFileDate(filePath);
      if r.Ok? {
        context := Some(r.value);
      }
    }

    /** `read_excel_file`: the engine for the file's extension. */
    method ReadExcelFile() returns (r: Result<Engine>)
      modifies this`engine
      ensures r == EngineFor(filePath)
      ensures engine == if r.Ok? then Some(r.value) else old(engine)
    {
      r := EngineFor(filePath);
      if r.Ok? {
        engine := Some(r.value);
      }
    }

    /**
     * `create_dataframes`: both headers must be found among the first 20 rows of their
     * sheets, and each header row must hold every column of the sheet's column mapping
     * (`read_excel(usecols=…)` raises `ValueError` otherwise; the MTD list names the
     * month column, so the date must have been read first). Then the cost centre's rows
     * are kept with their derived columns. `wtdRows` and `mtdRows` are the sheets as read
     * below their header rows.
     */
    method CreateDataframes(wtdSheet: seq<Sheets.Row>, mtdSheet: seq<Sheets.Row>,
                            wtdRows: seq<WtdRow>, mtdRows: seq<MtdRow>) returns (r: Result<()>)
      requires context.Some?
      modifies this`wtd, this`mtd
      ensures r.Ok? <==> ReadableUnder(wtdSheet, "Consultant Name", WtdColumns) &&
                         ReadableUnder(mtdSheet, "Resource Email Address", MtdColumns(context.value.monthName))
      ensures r.Ok? ==> wtd == KeepWtd(wtdRows) && mtd == KeepMtd(mtdRows)
      ensures r.Err? ==> wtd == old(wtd) && mtd == old(mtd)
    {
      var h1 := FindHeaderRow(wtdSheet, "WTD", "Consultant Name");
      if h1.Err? {
        return Err(h1.msg);
      }
      var h2 := FindHeaderRow(mtdSheet, "Consultant Summary", "Resource Email Address");
      if h2.Err? {
        return Err(h2.msg);
      }
      var mtdColumns := MtdColumns(context.value.monthName);
      ReadableAt(wtdSheet, "Consultant Name", WtdColumns, h1.value);
      ReadableAt(mtdSheet, "Resource Email Address", mtdColumns, h2.value);
      var wtdFound := RowHasLabels(wtdSheet[h1.value], WtdColumns);
      if !wtdFound {
        return Err(UsecolsMismatch);
      }
      var mtdFound := RowHasLabels(mtdSheet[h2.value], mtdColumns);
      if !mtdFound {
        return Err(UsecolsMismatch);
      }
      wtd := KeepWtd(wtdRows);
      mtd := KeepMtd(mtdRows);
      return Ok(());
    }

    /** `generate_report`: the pivot of the month's days joined with the WTD actuals. */
    method GenerateReport()
      modifies this`columns, this`initialReport
      ensures columns == PivotOf(mtd).columns
      ensures initialReport == MergeWtd(PivotOf(mtd), wtd)
    {
      var t := PivotOf(mtd);
      columns := t.columns;
      initialReport := MergeWtd(t, wtd);
    }

    /** `merge_from_models`: the reference table joined in. */
    method MergeFromModels(refs: seq<Reference>)
      modifies this`merged
      ensures merged == MergeReference(initialReport, refs)
    {
      merged := MergeReference(initialReport, refs);
    }

    /** `get_exclusion_list`. */
    method GetExclusionList(exclusions: seq<string>)
      modifies this`exclusionSet
      ensures exclusionSet == Some(ExclusionSet(exclusions))
    {
      exclusionSet := Some(ExclusionSet(exclusions));
    }

    /**
     * `add_additional_days_column`: nothing to do on an empty merged report; otherwise
     * the exclusion list is fetched if the generator has none yet, and every row gets
     * its carried, logged and additional days.
     */
    method AddAdditionalDaysColumn(prev: seq<PrevEntry>, exclusions: seq<string>)
      requires context.Some?
      modifies this`report, this`exclusionSet
      ensures merged == [] ==> report == [] && exclusionSet == old(exclusionSet)
      ensures merged != [] ==> exclusionSet == Some(old(exclusionSet).GetOr(ExclusionSet(exclusions)))
      ensures report == AddAdditionalDays(columns, merged, context.value.weekNumber, context.value.totalDays,
                                          prev, old(exclusionSet).GetOr(ExclusionSet(exclusions)))
    {
      if merged == [] {
        // The merged frame itself is what later steps read, and it is empty.
        report := [];
        return;
      }
      if exclusionSet.None? {
        GetExclusionList(exclusions);
      }
      report := AddAdditionalDays(columns, merged, context.value.weekNumber, context.value.totalDays,
                                  prev, exclusionSet.value);
    }

    /** `apply_status`. */
    method ApplyStatusColumn()
      requires context.Some?
      modifies this`report
      ensures report == ApplyStatus(columns, old(report), context.value.totalDays)
    {
      report := ApplyStatus(columns, report, context.value.totalDays);
    }

    /** `filter_exclusions`: no change without an exclusion set or with an empty one. */
    method FilterExclusions()
      modifies this`report
      ensures report == if exclusionSet.None? then old(report) else CloseExcluded(old(report), exclusionSet.value)
    {
      if exclusionSet.None? || exclusionSet.value == {} {
        CloseExcludedNothing(report);
        return;
      }
      report := CloseExcluded(report, exclusionSet.value);
    }

    /** The first two steps of `process_report`: the report date, then the engine. */
    method ReadDateAndEngine() returns (r: Result<()>)
      modifies this`context, this`engine
      ensures r.Ok? <==> ParseFileDate(filePath).Ok? && EngineFor(filePath).Ok?
      ensures r.Ok? ==> context == Some(ParseFileDate(filePath).value) && engine == Some(EngineFor(filePath).value)
    {
      var p := ParseDateFromFilename();
      if p.Err? {
        return Err(p.msg);
      }
      var e := ReadExcelFile();
      if e.Err? {
        return Err(e.msg);
      }
      return Ok(());
    }

    /** `process_report`: the date, the engine and the two kept tables. */
    method ProcessReport(wtdSheet: seq<Sheets.Row>, mtdSheet: seq<Sheets.Row>,
                         wtdRows: seq<WtdRow>, mtdRows: seq<MtdRow>) returns (r: Result<()>)
      modifies this`context, this`engine, this`wtd, this`mtd
      ensures r.Ok? <==> Processable(filePath, wtdSheet, mtdSheet)
      ensures r.Ok? ==> (context == Some(ParseFileDate(filePath).value) &&
                         engine == Some(EngineFor(filePath).value) &&
                         wtd == KeepWtd(wtdRows) && mtd == KeepMtd(mtdRows))
    {
      r := ReadDateAndEngine();
      if r.Ok? {
        r := CreateDataframes(wtdSheet, mtdSheet, wtdRows, mtdRows);
      }
    }

    /**
     * The row steps of `generate_final_report`: additional days, status, exclusion list
     * and exclusions. On a generator that had no exclusion set yet they are the
     * row-by-row run.
     */
    method CompleteRows(prev: seq<PrevEntry>, exclusions: seq<string>)
      requires context.Some?
      modifies this`report, this`exclusionSet
      ensures exclusionSet == Some(ExclusionSet(exclusions))
      ensures old(exclusionSet).None? ==>
        report == FinalRows(columns, merged, context.value.weekNumber, context.value.totalDays, prev, ExclusionSet(exclusions))
    {
      ghost var wasNone := exclusionSet.None?;
      AddAdditionalDaysColumn(prev, exclusions);
      ApplyStatusColumn();
      GetExclusionList(exclusions);
      FilterExclusions();
      if wasNone {
        StepsAreRowByRow(columns, merged, context.value.weekNumber, context.value.totalDays, prev, ExclusionSet(exclusions));
      }
    }

    /** The table steps of `generate_final_report`: the pivot with the WTD actuals, then the reference table. */
    method BuildTables(refs: seq<Reference>)
      modifies this`columns, this`initialReport, this`merged
      ensures columns == PivotOf(mtd).columns
      ensures initialReport == MergeWtd(PivotOf(mtd), wtd)
      ensures merged == MergeReference(initialReport, refs)
    {
      GenerateReport();
      MergeFromModels(refs);
    }

    /**
     * The steps of `generate_final_report` after `process_report`, table by table; on a
     * generator with no exclusion set yet the result is `FinalReport` (`FinalReportOfSteps`).
     */
    method BuildReport(refs: seq<Reference>, prev: seq<PrevEntry>, exclusions: seq<string>)
      requires context.Some?
      modifies this`columns, this`initialReport, this`merged, this`report, this`exclusionSet
      ensures columns == PivotOf(mtd).columns
      ensures initialReport == MergeWtd(PivotOf(mtd), wtd)
      ensures merged == MergeReference(initialReport, refs)
      ensures exclusionSet == Some(ExclusionSet(exclusions))
      ensures old(exclusionSet).None? ==>
        report == FinalRows(columns, merged, context.value.weekNumber, context.value.totalDays, prev, ExclusionSet(exclusions))
    {
      BuildTables(refs);
      CompleteRows(prev, exclusions);
    }

    /**
     * `generate_final_report`: every step in order. The workbook, the reference table,
     * last week's records and the exclusion table are given as inputs. On a fresh
     * generator the report is `FinalReport` of the inputs (`FinalReportOfSteps`).
     */
    method GenerateFinalReport(wtdSheet: seq<Sheets.Row>, mtdSheet: seq<Sheets.Row>,
                               wtdRows: seq<WtdRow>, mtdRows: seq<MtdRow>, refs: seq<Reference>,
                               prev: seq<PrevEntry>, exclusions: seq<string>) returns (r: Result<()>)
      modifies this`context, this`engine, this`wtd, this`mtd
      modifies this`columns, this`initialReport, this`merged, this`report, this`exclusionSet
      ensures r.Ok? <==> Processable(filePath, wtdSheet, mtdSheet)
      ensures r.Ok? ==> (context == Some(ParseFileDate(filePath).value) &&
                         wtd == KeepWtd(wtdRows) && mtd == KeepMtd(mtdRows) &&
                         exclusionSet == Some(ExclusionSet(exclusions)))
      ensures r.Ok? ==> columns == PivotOf(mtd).columns && initialReport == MergeWtd(PivotOf(mtd), wtd) &&
                        merged == MergeReference(initialReport, refs)
      ensures r.Ok? && old(exclusionSet).None? ==>
        report == FinalRows(columns, merged, context.value.weekNumber, context.value.totalDays, prev, ExclusionSet(exclusions))
    {
      r := ProcessReport(wtdSheet, mtdSheet, wtdRows, mtdRows);
      if r.Ok? {
        BuildReport(refs, prev, exclusions);
      }
    }

    /**
     * `save_to_model`: the records to insert, one per report row with an email, in
     * row order; nothing when the report is empty.
     */
    method SaveToModel() returns (records: seq<Record>)
      requires context.Some?
      ensures records == RecordsOf(columns, report, FiguresOf(context.value, wtd, report))
    {
      var f := FiguresOf(context.value, wtd, report);
      records := [];
      if report == [] {
        return;
      }
      var i := 0;
      while i < |report|
        invariant 0 <= i <= |report|
        invariant records == RecordsOf(columns, report[..i], f)
      {
        var row := report[i];
        RecordsOfPrefix(columns, report, i, f);
        if Email(row) != "" {
          records := records + [RecordOf(columns, row, f)];
        }
        i := i + 1;
      }
      assert report[..i] == report;
    }
  }

  /** `initialize_column_mapping`: the columns read from the WTD sheet. */
  const WtdColumns: seq<string> := ["Consultant Name", "Manager Name", "WTD Capacity", "Billable Hours", "Utl %", "CC"]

  /** `initialize_column_mapping`: the columns read from the MTD sheet, the month's own among them. */
  function MtdColumns(monthName: string): seq<string> {
    ["Resource Email Address", "Project Number", "Project Name", "Work Type Description-OPS", monthName,
     "Cost Center - OPS"]
  }

  /**
   * Whether `process_report` gets through: a date in the file name, a workbook
   * extension, both headers within the first 20 rows of their sheets, and every mapped
   * column (the month's among them) in its sheet's header row.
   */
  predicate Processable(path: string, wtdSheet: seq<Sheets.Row>, mtdSheet: seq<Sheets.Row>) {
    ParseFileDate(path).Ok? && EngineFor(path).Ok? &&
    ReadableUnder(wtdSheet, "Consultant Name", WtdColumns) &&
    ReadableUnder(mtdSheet, "Resource Email Address", MtdColumns(ParseFileDate(path).value.monthName))
  }
}
