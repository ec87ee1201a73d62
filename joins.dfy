/**
 * The two left joins of the report: the pivot with the WTD actuals (`generate_report`)
 * and the result with the resource reference table that gives each resource its RDM,
 * track and billing type (`merge_from_models`).
 */
module Joins {
  import opened Wrappers
  import opened Extract
  import opened Pivot

  /** The rows of `right` whose key is `k`, in `right`'s order. */
  function Matches<R>(right: seq<R>, rk: R -> string, k: string): (r: seq<R>)
    ensures |r| <= |right|
  {
    if right == [] then []
    else (if rk(right[0]) == k then [right[0]] else []) + Matches(right[1..], rk, k)
  }

  /** The matches are rows of `right` with key `k`. */
  lemma {:induction false} MatchesSound<R>(right: seq<R>, rk: R -> string, k: string)
    ensures forall x :: x in Matches(right, rk, k) ==> x in right && rk(x) == k
  {
    if right != [] {
      MatchesSound(right[1..], rk, k);
      assert forall x :: x in right[1..] ==> x in right;
    }
  }

  /** The output of one left row: one pair per match, or the row with nothing when there is none. */
  function JoinOne<L, R>(l: L, ms: seq<R>): (r: seq<(L, Option<R>)>)
    ensures |r| >= 1
  {
    if ms == [] then [(l, None)]
    else seq(|ms|, i requires 0 <= i < |ms| => (l, Some(ms[i])))
  }

  /**
   * `pd.merge(left, right, how='left', left_on=..., right_on=...)`: each left row, in
   * order, paired with each right row of the same key, or kept alone when none has it.
   */
  function LeftJoin<L, R>(left: seq<L>, right: seq<R>, lk: L -> string, rk: R -> string): (r: seq<(L, Option<R>)>)
    ensures |r| >= |left|
  {
    if left == [] then []
    else
      var ms := Matches(right, rk, lk(left[0]));
      JoinOne(left[0], ms) + LeftJoin(left[1..], right, lk, rk)
  }

  /** Every output pair starts with a left row, and a joined right row has that row's key. */
  lemma {:induction false} LeftJoinSound<L, R>(left: seq<L>, right: seq<R>, lk: L -> string, rk: R -> string)
    ensures forall p :: p in LeftJoin(left, right, lk, rk) ==> p.0 in left
    ensures forall p :: p in LeftJoin(left, right, lk, rk) && p.1.Some? ==> p.1.value in right && rk(p.1.value) == lk(p.0)
  {
    if left != [] {
      LeftJoinSound(left[1..], right, lk, rk);
      var ms := Matches(right, rk, lk(left[0]));
      MatchesSound(right, rk, lk(left[0]));
      var out := LeftJoin(left, right, lk, rk);
      assert out == JoinOne(left[0], ms) + LeftJoin(left[1..], right, lk, rk);
      forall p | p in out ensures p.0 in left && (p.1.Some? ==> p.1.value in right && rk(p.1.value) == lk(p.0)) {
        if p in JoinOne(left[0], ms) {
          assert p.0 == left[0];
        } else {
          assert p in LeftJoin(left[1..], right, lk, rk);
          assert forall l :: l in left[1..] ==> l in left;
        }
      }
    }
  }

  /** Right keys are unique: each key names at most one right row. */
  predicate UniqueKeys<R>(right: seq<R>, rk: R -> string) {
    forall i, j :: 0 <= i < j < |right| ==> rk(right[i]) != rk(right[j])
  }

  /** A left join keeps every left row. */
  lemma {:induction false} LeftJoinKeepsLeft<L, R>(left: seq<L>, right: seq<R>, lk: L -> string, rk: R -> string, l: L)
    requires l in left
    ensures exists p :: p in LeftJoin(left, right, lk, rk) && p.0 == l
  {
    var ms := Matches(right, rk, lk(left[0]));
    var out := LeftJoin(left, right, lk, rk);
    if left[0] == l {
      var p := JoinOne(left[0], ms)[0];
      assert out[0] == p;
    } else {
      LeftJoinKeepsLeft(left[1..], right, lk, rk, l);
      var p :| p in LeftJoin(left[1..], right, lk, rk) && p.0 == l;
      assert p in out;
    }
  }

  /** A left row with no partner comes out once, with nothing joined to it. */
  lemma MatchesNone<R>(right: seq<R>, rk: R -> string, k: string)
    requires forall x :: x in right ==> rk(x) != k
    ensures Matches(right, rk, k) == []
  {
    if right != [] {
      assert forall x :: x in right[1..] ==> x in right;
      MatchesNone(right[1..], rk, k);
    }
  }

  /** With unique right keys a key matches at most one row. */
  lemma {:induction false} MatchesUnique<R>(right: seq<R>, rk: R -> string, k: string)
    requires UniqueKeys(right, rk)
    ensures |Matches(right, rk, k)| <= 1
  {
    if right != [] {
      MatchesUnique(right[1..], rk, k);
      if rk(right[0]) == k {
        MatchesNone(right[1..], rk, k);
      }
    }
  }

  /** With unique right keys the join is row for row: the same rows, in the same order. */
  lemma {:induction false} LeftJoinRowForRow<L, R>(left: seq<L>, right: seq<R>, lk: L -> string, rk: R -> string)
    requires UniqueKeys(right, rk)
    ensures |LeftJoin(left, right, lk, rk)| == |left|
    ensures forall i :: 0 <= i < |left| ==> LeftJoin(left, right, lk, rk)[i].0 == left[i]
  {
    if left != [] {
      LeftJoinRowForRow(left[1..], right, lk, rk);
      MatchesUnique(right, rk, lk(left[0]));
    }
  }

  // ---------------------------------------------------------------- the report's joins

  /** A row of the initial report: the pivot row and its WTD Actuals (`None` when there is no WTD row). */
  datatype InitialRow = InitialRow(pivot: PivotRow, wtdActuals: Option<real>)

  function ConsultantKey(w: WtdActual): string { w.consultant }
  function PivotKey(p: PivotRow): string { p.email }

  /** `pd.merge(initial_report, wtd[['Consultant Name','WTD Actuals']], left_on=email, right_on='Consultant Name', how='left')`. */
  function MergeWtd(t: PivotTable, wtd: seq<WtdActual>): (r: seq<InitialRow>)
    ensures |r| >= |t.rows|
  {
    var j := LeftJoin(t.rows, wtd, PivotKey, ConsultantKey);
    seq(|j|, i requires 0 <= i < |j| => InitialRow(j[i].0, if j[i].1.Some? then Some(j[i].1.value.actuals) else None))
  }

  /** Every row of the WTD merge is a pivot row. */
  lemma MergeWtdRows(t: PivotTable, wtd: seq<WtdActual>)
    ensures forall x :: x in MergeWtd(t, wtd) ==> x.pivot in t.rows
  {
    var j := LeftJoin(t.rows, wtd, PivotKey, ConsultantKey);
    LeftJoinSound(t.rows, wtd, PivotKey, ConsultantKey);
    forall x | x in MergeWtd(t, wtd) ensures x.pivot in t.rows {
      var i :| 0 <= i < |j| && MergeWtd(t, wtd)[i] == x;
      assert j[i] in j;
    }
  }

  /** The WTD merge keeps every pivot row and, with one WTD row per consultant, changes nothing but the new column. */
  lemma MergeWtdKeepsResources(t: PivotTable, wtd: seq<WtdActual>)
    ensures forall p :: p in t.rows ==> exists r :: r in MergeWtd(t, wtd) && r.pivot == p
    ensures UniqueKeys(wtd, ConsultantKey) ==>
      |MergeWtd(t, wtd)| == |t.rows| && forall i :: 0 <= i < |t.rows| ==> MergeWtd(t, wtd)[i].pivot == t.rows[i]
  {
    var j := LeftJoin(t.rows, wtd, PivotKey, ConsultantKey);
    forall p | p in t.rows ensures exists r :: r in MergeWtd(t, wtd) && r.pivot == p {
      LeftJoinKeepsLeft(t.rows, wtd, PivotKey, ConsultantKey, p);
      var q :| q in j && q.0 == p;
      var k :| 0 <= k < |j| && j[k] == q;
      assert MergeWtd(t, wtd)[k].pivot == p;
    }
    if UniqueKeys(wtd, ConsultantKey) {
      LeftJoinRowForRow(t.rows, wtd, PivotKey, ConsultantKey);
    }
  }

  /** A matched row carries the actuals of a WTD row of the same consultant. */
  lemma MergeWtdActuals(t: PivotTable, wtd: seq<WtdActual>, i: nat)
    requires i < |MergeWtd(t, wtd)|
    ensures var r := MergeWtd(t, wtd)[i];
      r.wtdActuals.Some? ==> exists w :: w in wtd && w.consultant == r.pivot.email && w.actuals == r.wtdActuals.value
  {
    var j := LeftJoin(t.rows, wtd, PivotKey, ConsultantKey);
    LeftJoinSound(t.rows, wtd, PivotKey, ConsultantKey);
    assert j[i] in j;
  }

  /** A row of `ResourceDetailsFetch`: the resource's RDM, track and billing type. */
  datatype Reference = Reference(rowLabel: string, rdm: string, track: string, billing: string)

  function ReferenceKey(x: Reference): string { x.rowLabel }
  function InitialKey(r: InitialRow): string { r.pivot.email }

  /** The report row after `merge_from_models`: the standardised `RDM`, `Track` and `Billing` columns. */
  datatype MergedRow = MergedRow(pivot: PivotRow, wtdActuals: Option<real>, rdm: string, track: string, billing: string)

  /** `Billing = billing.replace('None', 'TBD')`: the exact string "None" only. */
  function NoneToTbd(b: string): (r: string)
    ensures r != "None"
    ensures b != "None" ==> r == b
  {
    if b == "None" then "TBD" else b
  }

  /**
   * `merge_from_models`: with an empty reference table every row gets empty rdm, track
   * and billing; otherwise a left join, where a resource missing from the table gets the
   * defaults rdm `Adam`, track `''` and billing `TBD`.
   */
  function MergeReference(rows: seq<InitialRow>, refs: seq<Reference>): (r: seq<MergedRow>)
    ensures |r| >= |rows|
  {
    if refs == [] then
      seq(|rows|, i requires 0 <= i < |rows| => MergedRow(rows[i].pivot, rows[i].wtdActuals, "", "", ""))
    else
      var j := LeftJoin(rows, refs, InitialKey, ReferenceKey);
      seq(|j|, i requires 0 <= i < |j| => Enrich(j[i].0, j[i].1))
  }

  /**
   * Every merged row comes from an initial row, keeping its pivot row and actuals; no
   * billing type is left as "None"; and with an empty reference table the rows are the
   * initial rows with empty rdm, track and billing.
   */
  lemma MergeReferenceRows(rows: seq<InitialRow>, refs: seq<Reference>)
    ensures var r := MergeReference(rows, refs);
      forall m :: m in r ==> exists x :: x in rows && m.pivot == x.pivot && m.wtdActuals == x.wtdActuals
    ensures var r := MergeReference(rows, refs);
      forall i :: 0 <= i < |r| ==> r[i].billing != "None"
    ensures var r := MergeReference(rows, refs);
      refs == [] ==> (|r| == |rows| &&
        forall i :: 0 <= i < |r| ==> r[i].pivot == rows[i].pivot && r[i].rdm == "" && r[i].track == "" && r[i].billing == "")
  {
    var r := MergeReference(rows, refs);
    if refs != [] {
      var j := LeftJoin(rows, refs, InitialKey, ReferenceKey);
      LeftJoinSound(rows, refs, InitialKey, ReferenceKey);
      forall m | m in r ensures exists x :: x in rows && m.pivot == x.pivot && m.wtdActuals == x.wtdActuals {
        var i :| 0 <= i < |r| && r[i] == m;
        assert j[i] in j;
      }
    } else {
      forall m | m in r ensures exists x :: x in rows && m.pivot == x.pivot && m.wtdActuals == x.wtdActuals {
        var i :| 0 <= i < |r| && r[i] == m;
        assert rows[i] in rows;
      }
    }
  }

  /** One joined row with `fillna` defaults for a missing partner. */
  function Enrich(row: InitialRow, x: Option<Reference>): MergedRow {
    match x
    case None => MergedRow(row.pivot, row.wtdActuals, "Adam", "", "TBD")
    case Some(ref) => MergedRow(row.pivot, row.wtdActuals, ref.rdm, ref.track, NoneToTbd(ref.billing))
  }

  /** The reference merge keeps every resource; a resource with no reference row gets the defaults. */
  lemma MergeReferenceKeepsResources(rows: seq<InitialRow>, refs: seq<Reference>, row: InitialRow)
    requires row in rows
    ensures exists m :: m in MergeReference(rows, refs) && m.pivot == row.pivot && m.wtdActuals == row.wtdActuals
    ensures refs != [] && (forall x :: x in refs ==> x.rowLabel != row.pivot.email) ==>
      exists m :: m in MergeReference(rows, refs) && m == MergedRow(row.pivot, row.wtdActuals, "Adam", "", "TBD")
  {
    var out := MergeReference(rows, refs);
    if refs == [] {
      var k :| 0 <= k < |rows| && rows[k] == row;
      assert out[k].pivot == row.pivot;
    } else {
      var j := LeftJoin(rows, refs, InitialKey, ReferenceKey);
      LeftJoinKeepsLeft(rows, refs, InitialKey, ReferenceKey, row);
      var q :| q in j && q.0 == row;
      assert q.1.Some? ==> q.1.value in refs && q.1.value.rowLabel == row.pivot.email by {
        LeftJoinSound(rows, refs, InitialKey, ReferenceKey);
      }
      var k :| 0 <= k < |j| && j[k] == q;
      assert out[k] == Enrich(row, q.1);
      assert out[k] in out;
      if forall x :: x in refs ==> x.rowLabel != row.pivot.email {
        assert q.1.None?;
        assert out[k] == MergedRow(row.pivot, row.wtdActuals, "Adam", "", "TBD");
      }
    }
  }

  /** With one reference row per resource the merge is row for row. */
  lemma MergeReferenceRowForRow(rows: seq<InitialRow>, refs: seq<Reference>)
    requires UniqueKeys(refs, ReferenceKey)
    ensures |MergeReference(rows, refs)| == |rows|
    ensures forall i :: 0 <= i < |rows| ==> MergeReference(rows, refs)[i].pivot == rows[i].pivot
  {
    if refs != [] {
      LeftJoinRowForRow(rows, refs, InitialKey, ReferenceKey);
    }
  }
}
