/**
 * `create_dataframes`: the week-to-date (WTD) and month-to-date (MTD) tables, cut down
 * to one cost centre and given their derived columns. Hours and days are `real`.
 */
module Extract {
  import opened Wrappers
  import opened Text

  /** The cost centre the report is about. */
  const CostCentre: string := "504686"

  /** A WTD sheet row. `cc` is the text of the cost-centre cell, `str(x)`, before stripping. */
  datatype WtdRow = WtdRow(consultant: string, manager: string, capacity: real,
                           billableHours: real, utlRatio: real, cc: string)

  /** A kept WTD row with its derived columns. */
  datatype WtdActual = WtdActual(consultant: string, capacity: real, billableHours: real,
                                 actuals: real, utlPercent: real)

  /** An MTD ("Consultant Summary") row; `monthHours` is `None` where the month cell is empty. */
  datatype MtdRow = MtdRow(email: string, projectNumber: string, projectName: string,
                           workType: string, monthHours: Option<real>, cc: string)

  /** A kept MTD row reduced to what the pivot reads. */
  datatype DayRow = DayRow(email: string, workType: string, days: real)

  /**
   * The reader's converter `str(x).strip()`, then `df[cc] == '504686'`: a string
   * comparison, so a numeric rendering such as "504686.0" fails it.
   */
  predicate InCostCentre(cc: string) { Strip(cc) == CostCentre }

  /** `WTD Actuals = Billable Hours / 8` and `Utl % = Utl % * 100`. */
  function Actual(w: WtdRow): WtdActual {
    WtdActual(w.consultant, w.capacity, w.billableHours, w.billableHours / 8.0, w.utlRatio * 100.0)
  }

  /** `df[df[cc] == '504686']` on the WTD sheet: the rows of the cost centre, in sheet order. */
  function WtdInCostCentre(rows: seq<WtdRow>): (r: seq<WtdRow>)
    ensures |r| <= |rows|
    ensures forall w :: w in r <==> w in rows && InCostCentre(w.cc)
  {
    if rows == [] then []
    else
      var rest := WtdInCostCentre(rows[1..]);
      if InCostCentre(rows[0].cc) then [rows[0]] + rest else rest
  }

  /** The filter keeps every row of the cost centre as often as it occurs, and no other row. */
  lemma {:induction false} WtdInCostCentreCounts(rows: seq<WtdRow>)
    ensures forall w :: multiset(WtdInCostCentre(rows))[w] == if InCostCentre(w.cc) then multiset(rows)[w] else 0
  {
    if rows != [] {
      WtdInCostCentreCounts(rows[1..]);
      assert rows == [rows[0]] + rows[1..];
    }
  }

  /** The WTD table `create_dataframes` leaves: the cost centre's rows with their derived columns. */
  function KeepWtd(rows: seq<WtdRow>): (r: seq<WtdActual>)
    ensures var kept := WtdInCostCentre(rows);
      |r| == |kept| && forall i :: 0 <= i < |r| ==> r[i] == Actual(kept[i])
  {
    var kept := WtdInCostCentre(rows);
    seq(|kept|, i requires 0 <= i < |kept| => Actual(kept[i]))
  }

  /** `DaysOf` for rows that have a month value. */
  function DaysOf(m: MtdRow): DayRow
    requires m.monthHours.Some?
  {
    DayRow(m.email, m.workType, m.monthHours.value / 8.0)
  }

  /** An MTD row survives when it is in the cost centre and has a month value (`dropna`). */
  predicate KeptMtd(m: MtdRow) { InCostCentre(m.cc) && m.monthHours.Some? }

  /** The MTD rows that survive, in sheet order. */
  function MtdKept(rows: seq<MtdRow>): (r: seq<MtdRow>)
    ensures |r| <= |rows|
    ensures forall m :: m in r <==> m in rows && KeptMtd(m)
  {
    if rows == [] then []
    else
      var rest := MtdKept(rows[1..]);
      if KeptMtd(rows[0]) then [rows[0]] + rest else rest
  }

  /** A surviving MTD row is kept as often as it occurs, so repeated rows are all summed by the pivot. */
  lemma {:induction false} MtdKeptCounts(rows: seq<MtdRow>)
    ensures forall m :: multiset(MtdKept(rows))[m] == if KeptMtd(m) then multiset(rows)[m] else 0
  {
    if rows != [] {
      MtdKeptCounts(rows[1..]);
      assert rows == [rows[0]] + rows[1..];
    }
  }

  /** The MTD table `create_dataframes` leaves, reduced to email, work type and `Days`. */
  function KeepMtd(rows: seq<MtdRow>): (r: seq<DayRow>)
    ensures var kept := MtdKept(rows);
      |r| == |kept| && forall i :: 0 <= i < |r| ==> kept[i].monthHours.Some? && r[i] == DaysOf(kept[i])
  {
    var kept := MtdKept(rows);
    MtdKeptHasHours(rows);
    seq(|kept|, i requires 0 <= i < |kept| => DaysOf(kept[i]))
  }

  /** Every surviving MTD row has a month value. */
  lemma {:induction false} MtdKeptHasHours(rows: seq<MtdRow>)
    ensures forall i :: 0 <= i < |MtdKept(rows)| ==> MtdKept(rows)[i].monthHours.Some?
  {
    if rows != [] {
      MtdKeptHasHours(rows[1..]);
    }
  }

  /** Days and actuals are the hours divided by eight, so eight times them gives the hours back. */
  lemma {:induction false} HoursToDays(rows: seq<WtdRow>, mrows: seq<MtdRow>)
    ensures forall i :: 0 <= i < |KeepWtd(rows)| ==> KeepWtd(rows)[i].actuals * 8.0 == KeepWtd(rows)[i].billableHours
    ensures forall i :: 0 <= i < |KeepMtd(mrows)| ==> MtdKept(mrows)[i].monthHours == Some(KeepMtd(mrows)[i].days * 8.0)
  {
  }

  /** The filter keeps a table that is already in the cost centre and has no empty month cells unchanged. */
  lemma {:induction false} MtdKeptAllKept(rows: seq<MtdRow>)
    requires forall i :: 0 <= i < |rows| ==> KeptMtd(rows[i])
    ensures MtdKept(rows) == rows
  {
    if rows != [] {
      MtdKeptAllKept(rows[1..]);
      assert [rows[0]] + rows[1..] == rows;
    }
  }

  /** Filtering twice is filtering once. */
  lemma MtdKeptIdempotent(rows: seq<MtdRow>)
    ensures MtdKept(MtdKept(rows)) == MtdKept(rows)
  {
    var k := MtdKept(rows);
    assert forall i :: 0 <= i < |k| ==> k[i] in k;
    MtdKeptAllKept(k);
  }
}
