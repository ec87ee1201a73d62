/**
 * A worksheet as the report generator sees it before a header is chosen: rows of
 * cells, read without a header. Locating the header row is a scan by content.
 */
module Sheets {
  import opened Wrappers

  /** One spreadsheet cell. */
  datatype Cell = Blank | Num(n: real) | Str(s: string)

  type Row = seq<Cell>

  /** `target in row.values`: some cell of the row is exactly the target. */
  predicate HasLabel(row: Row, target: string) {
    exists j :: 0 <= j < |row| && row[j] == Str(target)
  }

  /** The current generator reads only this many rows when looking for a header. */
  const HeaderScanRows: nat := 20

  function NotFound(target: string, sheet: string): string {
    "Header containing '" + target + "' not found in " + sheet + "."
  }

  /** `target in row.values`, cell by cell. */
  method RowHasLabel(row: Row, target: string) returns (found: bool)
    ensures found <==> HasLabel(row, target)
  {
    var j := 0;
    found := false;
    while j < |row| && !found
      invariant 0 <= j <= |row|
      invariant found ==> HasLabel(row, target)
      invariant !found ==> forall m :: 0 <= m < j ==> row[m] != Str(target)
    {
      found := row[j] == Str(target);
      j := j + 1;
    }
  }

  /**
   * `find_header_row` of the current generator: the index of the first of the first 20
   * rows that contains the label; `ValueError` when none of them does, even if a later
   * row would.
   */
  method FindHeaderRow(rows: seq<Row>, sheet: string, target: string) returns (r: Result<nat>)
    ensures r.Ok? ==> r.value < HeaderScanRows && r.value < |rows| && HasLabel(rows[r.value], target)
    ensures r.Ok? ==> forall k :: 0 <= k < r.value ==> !HasLabel(rows[k], target)
    ensures r.Err? <==> forall k :: 0 <= k < |rows| && k < HeaderScanRows ==> !HasLabel(rows[k], target)
    ensures r.Err? ==> r.msg == NotFound(target, sheet)
  {
    var n := if |rows| < HeaderScanRows then |rows| else HeaderScanRows;
    var idx := 0;
    while idx < n
      invariant 0 <= idx <= n
      invariant forall k :: 0 <= k < idx ==> !HasLabel(rows[k], target)
    {
      var found := RowHasLabel(rows[idx], target);
      if found {
        return Ok(idx);
      }
      idx := idx + 1;
    }
    return Err(NotFound(target, sheet));
  }

  /**
   * `find_header_row` of the earlier generator: the index of the first row, however far
   * down, that contains the label; `ValueError` when no row does.
   */
  method FindHeaderRowAnywhere(rows: seq<Row>, sheet: string, target: string) returns (r: Result<nat>)
    ensures r.Ok? ==> r.value < |rows| && HasLabel(rows[r.value], target)
    ensures r.Ok? ==> forall k :: 0 <= k < r.value ==> !HasLabel(rows[k], target)
    ensures r.Err? <==> forall k :: 0 <= k < |rows| ==> !HasLabel(rows[k], target)
    ensures r.Err? ==> r.msg == NotFound(target, sheet)
  {
    var idx := 0;
    while idx < |rows|
      invariant 0 <= idx <= |rows|
      invariant forall k :: 0 <= k < idx ==> !HasLabel(rows[k], target)
    {
      var found := RowHasLabel(rows[idx], target);
      if found {
        return Ok(idx);
      }
      idx := idx + 1;
    }
    return Err(NotFound(target, sheet));
  }

  /** Every listed column is a cell of the row. */
  predicate HasLabels(row: Row, labels: seq<string>) {
    forall i :: 0 <= i < |labels| ==> HasLabel(row, labels[i])
  }

  /** Row `k` is the first row that holds the label. */
  predicate FirstWith(rows: seq<Row>, target: string, k: nat)
    requires k < |rows|
  {
    HasLabel(rows[k], target) && forall m :: 0 <= m < k ==> !HasLabel(rows[m], target)
  }

  /**
   * Whether `read_excel(skiprows=h, usecols=labels)` gets through after `find_header_row`
   * found `h`: the first of the first 20 rows holding the label has every listed column.
   */
  predicate ReadableUnder(rows: seq<Row>, target: string, labels: seq<string>) {
    exists k: nat :: k < |rows| && k < HeaderScanRows && FirstWith(rows, target, k) && HasLabels(rows[k], labels)
  }

  const UsecolsMismatch: string := "Usecols do not match columns, columns expected but not found."

  /** The `usecols` check: whether the header row has every listed column. */
  method RowHasLabels(row: Row, labels: seq<string>) returns (found: bool)
    ensures found <==> HasLabels(row, labels)
  {
    var i := 0;
    found := true;
    while i < |labels| && found
      invariant 0 <= i <= |labels|
      invariant found <==> forall m :: 0 <= m < i ==> HasLabel(row, labels[m])
    {
      found := RowHasLabel(row, labels[i]);
      i := i + 1;
    }
  }

  /** Once the header row is known, the sheet reads exactly when that row has every listed column. */
  lemma ReadableAt(rows: seq<Row>, target: string, labels: seq<string>, h: nat)
    requires h < |rows| && h < HeaderScanRows && FirstWith(rows, target, h)
    ensures ReadableUnder(rows, target, labels) <==> HasLabels(rows[h], labels)
  {
    if ReadableUnder(rows, target, labels) {
      var k: nat :| k < |rows| && k < HeaderScanRows && FirstWith(rows, target, k) && HasLabels(rows[k], labels);
      assert k == h;
    }
  }
}
