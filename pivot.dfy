/**
 * `generate_report`'s pivot: month-to-date days summed per (resource, work type), one
 * row per resource and one column per work type, zero where a resource logged nothing
 * under a type, and a Grand Total per row.
 *
 * A blank key cell is read as NaN, which `pivot_table` drops (`dropna=True`): a row
 * with a blank email or a blank work type (the empty string here) is left out of the
 * pivot altogether (`PivotHasNoBlankKeys`, `PivotGrandTotal`).
 *
 * pandas sorts the row and column labels of a pivot; here both come in order of first
 * appearance. Nothing in the current generator depends on that order; the earlier
 * generator's positional Grand Total does, and is stated over the sorted order instead
 * (see module Legacy).
 */
module Pivot {
  import opened Wrappers
  import opened Extract

  const Administrative: string := "Administrative"
  const Vacation: string := "Vacation"

  predicate Distinct(s: seq<string>) {
    forall i, j :: 0 <= i < j < |s| ==> s[i] != s[j]
  }

  /** The elements of `s`, each at the place it first appears (once: `DedupDistinct`). */
  function Dedup(s: seq<string>): (r: seq<string>)
    ensures |r| <= |s|
  {
    if s == [] then []
    else
      var r := Dedup(s[..|s| - 1]);
      var x := s[|s| - 1];
      if x in r then r else r + [x]
  }

  /** Deduplication keeps exactly the elements there were. */
  lemma {:induction false} DedupMembers(s: seq<string>)
    ensures forall x :: x in Dedup(s) <==> x in s
  {
    if s != [] {
      DedupMembers(s[..|s| - 1]);
      assert s == s[..|s| - 1] + [s[|s| - 1]];
    }
  }

  lemma {:induction false} DedupDistinct(s: seq<string>)
    ensures Distinct(Dedup(s))
  {
    if s != [] {
      DedupDistinct(s[..|s| - 1]);
    }
  }

  function EmailColumn(days: seq<DayRow>): seq<string> {
    seq(|days|, i requires 0 <= i < |days| => days[i].email)
  }

  function WorkTypeColumn(days: seq<DayRow>): seq<string> {
    seq(|days|, i requires 0 <= i < |days| => days[i].workType)
  }

  /** The pivot's index: each resource once. */
  function Emails(days: seq<DayRow>): seq<string> { Dedup(EmailColumn(days)) }

  /** The pivot's columns, with `Administrative` and `Vacation` added (as zero columns) when absent. */
  function Columns(days: seq<DayRow>): (r: seq<string>)
    ensures Administrative in r && Vacation in r
  {
    var cols := Dedup(WorkTypeColumn(days));
    var withAdmin := if Administrative in cols then cols else cols + [Administrative];
    if Vacation in withAdmin then withAdmin else withAdmin + [Vacation]
  }

  /** The columns are the work types of the month, plus `Administrative` and `Vacation`. */
  lemma ColumnsMembers(days: seq<DayRow>)
    ensures forall c :: c in Columns(days) <==> c in WorkTypeColumn(days) || c == Administrative || c == Vacation
  {
    DedupMembers(WorkTypeColumn(days));
  }

  /** No column appears twice. */
  lemma ColumnsDistinct(days: seq<DayRow>)
    ensures Distinct(Columns(days))
  {
    var cols := Dedup(WorkTypeColumn(days));
    DedupDistinct(WorkTypeColumn(days));
    var withAdmin := if Administrative in cols then cols else cols + [Administrative];
    assert Distinct(withAdmin);
  }

  /** `aggfunc="sum", fill_value=0`: the days a resource logged under one work type. */
  function CellSum(days: seq<DayRow>, e: string, c: string): real {
    if days == [] then 0.0
    else (if days[0].email == e && days[0].workType == c then days[0].days else 0.0) + CellSum(days[1..], e, c)
  }

  /** All the days a resource logged, whatever the work type. */
  function EmailSum(days: seq<DayRow>, e: string): real {
    if days == [] then 0.0
    else (if days[0].email == e then days[0].days else 0.0) + EmailSum(days[1..], e)
  }

  /** One pivot row's cells, column by column. */
  function ColumnSums(cols: seq<string>, days: seq<DayRow>, e: string): (r: seq<real>)
    ensures |r| == |cols|
  {
    if cols == [] then [] else [CellSum(days, e, cols[0])] + ColumnSums(cols[1..], days, e)
  }

  /** Cell `j` of a row is the sum for column `j`. */
  lemma {:induction false} ColumnSumsAt(cols: seq<string>, days: seq<DayRow>, e: string, j: nat)
    requires j < |cols|
    ensures ColumnSums(cols, days, e)[j] == CellSum(days, e, cols[j])
  {
    if j > 0 {
      ColumnSumsAt(cols[1..], days, e, j - 1);
    }
  }

  function Sum(xs: seq<real>): real {
    if xs == [] then 0.0 else xs[0] + Sum(xs[1..])
  }

  datatype PivotRow = PivotRow(email: string, values: seq<real>, grandTotal: real)

  datatype PivotTable = PivotTable(columns: seq<string>, rows: seq<PivotRow>)

  /** A row of the pivot: its cells and `Grand Total`, the sum of all of its numeric columns. */
  function RowFor(cols: seq<string>, days: seq<DayRow>, e: string): PivotRow {
    var v := ColumnSums(cols, days, e);
    PivotRow(e, v, Sum(v))
  }

  /** A row whose index and column keys are both present takes part in the pivot. */
  predicate Keyed(d: DayRow) { d.email != "" && d.workType != "" }

  /** The rows `pivot_table` keeps, in order: those with both keys. */
  function KeyedRows(days: seq<DayRow>): (r: seq<DayRow>)
    ensures forall d :: d in r <==> d in days && Keyed(d)
  {
    if days == [] then []
    else
      var rest := KeyedRows(days[1..]);
      if Keyed(days[0]) then [days[0]] + rest else rest
  }

  /** A resource's sum for a named work type is unchanged by dropping the rows with a blank key. */
  lemma {:induction false} KeyedCellSum(days: seq<DayRow>, e: string, c: string)
    requires e != "" && c != ""
    ensures CellSum(KeyedRows(days), e, c) == CellSum(days, e, c)
  {
    if days != [] {
      KeyedCellSum(days[1..], e, c);
    }
  }

  /** Dropping the blank-keyed rows loses exactly a resource's days with a blank work type. */
  lemma {:induction false} KeyedEmailSum(days: seq<DayRow>, e: string)
    requires e != ""
    ensures EmailSum(KeyedRows(days), e) == EmailSum(days, e) - CellSum(days, e, "")
  {
    if days != [] {
      KeyedEmailSum(days[1..], e);
    }
  }

  /** The initial report before the WTD merge: the pivot of the rows with both keys. */
  function PivotOf(days: seq<DayRow>): (t: PivotTable)
    ensures Administrative in t.columns && Vacation in t.columns
    ensures |t.rows| == |Emails(KeyedRows(days))|
  {
    var kept := KeyedRows(days);
    var cols := Columns(kept);
    var es := Emails(kept);
    PivotTable(cols, seq(|es|, i requires 0 <= i < |es| => RowFor(cols, kept, es[i])))
  }

  /** Row `i` is the `i`-th resource, with one cell per column. */
  lemma PivotRowShape(days: seq<DayRow>, i: nat)
    requires i < |PivotOf(days).rows|
    ensures var t := PivotOf(days);
      t.rows[i].email == Emails(KeyedRows(days))[i] && |t.rows[i].values| == |t.columns|
  {
  }

  /** No row and no column of the pivot has a blank label. */
  lemma PivotHasNoBlankKeys(days: seq<DayRow>)
    ensures var t := PivotOf(days);
      (forall i :: 0 <= i < |t.rows| ==> t.rows[i].email != "") &&
      (forall j :: 0 <= j < |t.columns| ==> t.columns[j] != "")
  {
    var kept := KeyedRows(days);
    var t := PivotOf(days);
    DedupMembers(EmailColumn(kept));
    ColumnsMembers(kept);
    forall i | 0 <= i < |t.rows| ensures t.rows[i].email != "" {
      assert t.rows[i].email in EmailColumn(kept);
      var k :| 0 <= k < |kept| && EmailColumn(kept)[k] == t.rows[i].email;
      assert kept[k] in kept;
    }
    forall j | 0 <= j < |t.columns| ensures t.columns[j] != "" {
      assert t.columns[j] in Columns(kept);
      if t.columns[j] in WorkTypeColumn(kept) {
        var k :| 0 <= k < |kept| && WorkTypeColumn(kept)[k] == t.columns[j];
        assert kept[k] in kept;
      }
    }
  }

  /** The position of a column, if the table has it. */
  function IndexOf(cols: seq<string>, c: string): (r: Option<nat>)
    ensures r.Some? ==> r.value < |cols| && cols[r.value] == c
    ensures r.None? <==> c !in cols
  {
    if cols == [] then None
    else if cols[0] == c then Some(0)
    else match IndexOf(cols[1..], c)
      case None => None
      case Some(k) => Some(k + 1)
  }

  /** `row.get(c)` on a pivot row: the cell of column `c`, or `None` when there is no such column. */
  function CellOf(cols: seq<string>, row: PivotRow, c: string): (r: Option<real>)
    ensures c !in cols ==> r.None?
    ensures |row.values| == |cols| && c in cols ==> r.Some?
  {
    match IndexOf(cols, c)
    case None => None
    case Some(k) => if k < |row.values| then Some(row.values[k]) else None
  }

  // ---------------------------------------------------------------- properties

  /** Every resource of the MTD table with a row under a named work type has a pivot row. */
  lemma PivotCoversResources(days: seq<DayRow>, d: DayRow)
    requires d in days && Keyed(d)
    ensures exists i :: 0 <= i < |PivotOf(days).rows| && PivotOf(days).rows[i].email == d.email
  {
    var kept := KeyedRows(days);
    var es := Emails(kept);
    var k :| 0 <= k < |kept| && kept[k] == d;
    assert EmailColumn(kept)[k] == d.email;
    DedupMembers(EmailColumn(kept));
    assert d.email in es;
    var i :| 0 <= i < |es| && es[i] == d.email;
    assert PivotOf(days).rows[i].email == d.email;
  }

  /** Every pivot row belongs to a resource of the MTD table, and no resource has two rows. */
  lemma PivotRowsAreResources(days: seq<DayRow>, i: nat)
    requires i < |PivotOf(days).rows|
    ensures exists d :: d in days && Keyed(d) && d.email == PivotOf(days).rows[i].email
    ensures forall j :: 0 <= j < |PivotOf(days).rows| && j != i ==> PivotOf(days).rows[j].email != PivotOf(days).rows[i].email
  {
    var kept := KeyedRows(days);
    var es := Emails(kept);
    DedupDistinct(EmailColumn(kept));
    DedupMembers(EmailColumn(kept));
    assert es[i] in es;
    assert es[i] in EmailColumn(kept);
    var k :| 0 <= k < |kept| && EmailColumn(kept)[k] == es[i];
    assert kept[k] in kept;
  }

  /** Every cell is the resource's days under that work type; a pair nobody logged is 0. */
  lemma PivotCells(days: seq<DayRow>, i: nat, j: nat)
    requires i < |PivotOf(days).rows| && j < |PivotOf(days).columns|
    ensures var t := PivotOf(days);
      t.rows[i].values[j] == CellSum(days, t.rows[i].email, t.columns[j])
    ensures var t := PivotOf(days);
      (forall d :: d in days ==> d.email != t.rows[i].email || d.workType != t.columns[j]) ==>
        t.rows[i].values[j] == 0.0
  {
    var t := PivotOf(days);
    PivotHasNoBlankKeys(days);
    ColumnSumsAt(t.columns, KeyedRows(days), t.rows[i].email, j);
    KeyedCellSum(days, t.rows[i].email, t.columns[j]);
    CellSumAbsent(days, t.rows[i].email, t.columns[j]);
  }

  lemma {:induction false} CellSumAbsent(days: seq<DayRow>, e: string, c: string)
    ensures (forall d :: d in days ==> d.email != e || d.workType != c) ==> CellSum(days, e, c) == 0.0
  {
    if days != [] {
      assert forall d :: d in days[1..] ==> d in days;
      CellSumAbsent(days[1..], e, c);
    }
  }

  /**
   * The Grand Total of a resource is all the days it logged in the month, less the days
   * it logged with a blank work type, which the pivot drops.
   */
  lemma PivotGrandTotal(days: seq<DayRow>)
    ensures var t := PivotOf(days);
      forall i :: 0 <= i < |t.rows| ==>
        t.rows[i].grandTotal == EmailSum(days, t.rows[i].email) - CellSum(days, t.rows[i].email, "")
  {
    var t := PivotOf(days);
    var kept := KeyedRows(days);
    PivotHasNoBlankKeys(days);
    forall i | 0 <= i < |t.rows|
      ensures t.rows[i].grandTotal == EmailSum(days, t.rows[i].email) - CellSum(days, t.rows[i].email, "")
    {
      var cols := Columns(kept);
      ColumnsDistinct(kept);
      ColumnsMembers(kept);
      forall d | d in kept ensures d.workType in cols {
        var k :| 0 <= k < |kept| && kept[k] == d;
        assert WorkTypeColumn(kept)[k] == d.workType;
      }
      SumOfColumnsIsEmailSum(cols, kept, t.rows[i].email);
      KeyedEmailSum(days, t.rows[i].email);
    }
  }

  /** A resource that never left its work type blank has all of its days in the Grand Total. */
  lemma PivotGrandTotalAllTyped(days: seq<DayRow>, i: nat)
    requires i < |PivotOf(days).rows|
    requires forall d :: d in days && d.email == PivotOf(days).rows[i].email ==> d.workType != ""
    ensures PivotOf(days).rows[i].grandTotal == EmailSum(days, PivotOf(days).rows[i].email)
  {
    PivotGrandTotal(days);
    CellSumAbsent(days, PivotOf(days).rows[i].email, "");
  }

  /** Summing a resource's cells over columns that cover every work type counts each day once. */
  lemma {:induction false} SumOfColumnsIsEmailSum(cols: seq<string>, days: seq<DayRow>, e: string)
    requires Distinct(cols)
    requires forall d :: d in days ==> d.workType in cols
    ensures Sum(ColumnSums(cols, days, e)) == EmailSum(days, e)
  {
    if days == [] {
      SumOfNothing(cols, e);
    } else {
      assert forall d :: d in days[1..] ==> d in days;
      SumOfColumnsIsEmailSum(cols, days[1..], e);
      PeelFirstDay(cols, days, e);
      OneColumnMatches(cols, days[0], e);
    }
  }

  /** The contribution of one day row to a row's cells, column by column. */
  function Contribution(cols: seq<string>, d: DayRow, e: string): real {
    if cols == [] then 0.0
    else (if d.email == e && d.workType == cols[0] then d.days else 0.0) + Contribution(cols[1..], d, e)
  }

  lemma {:induction false} SumOfNothing(cols: seq<string>, e: string)
    ensures Sum(ColumnSums(cols, [], e)) == 0.0
  {
    if cols != [] {
      SumOfNothing(cols[1..], e);
    }
  }

  lemma {:induction false} PeelFirstDay(cols: seq<string>, days: seq<DayRow>, e: string)
    requires days != []
    ensures Sum(ColumnSums(cols, days, e)) == Contribution(cols, days[0], e) + Sum(ColumnSums(cols, days[1..], e))
  {
    if cols != [] {
      PeelFirstDay(cols[1..], days, e);
    }
  }

  lemma {:induction false} OneColumnMatches(cols: seq<string>, d: DayRow, e: string)
    requires Distinct(cols) && d.workType in cols
    ensures Contribution(cols, d, e) == if d.email == e then d.days else 0.0
  {
    if cols[0] == d.workType {
      NoColumnMatches(cols[1..], d, e);
    } else {
      OneColumnMatches(cols[1..], d, e);
    }
  }

  lemma {:induction false} NoColumnMatches(cols: seq<string>, d: DayRow, e: string)
    requires d.workType !in cols
    ensures Contribution(cols, d, e) == 0.0
  {
    if cols != [] {
      NoColumnMatches(cols[1..], d, e);
    }
  }
}
