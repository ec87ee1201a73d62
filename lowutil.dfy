/**
 * `get_low_utilization_resources`: the latest report date of each month, the month of the
 * most recent one, each resource's average individual utilization over that month, and
 * the resources bucketed by that average (below 35%, 35% to 50%, and five chart ranges),
 * each list sorted ascending by utilization.
 */
module LowUtil {
  import opened Wrappers
  import opened Calendar
  import Pivot

  /** The fields of a stored report the view reads. */
  datatype MonthRow = MonthRow(email: string, utilization: real, date: Date,
                               billing: Option<string>, rdm: Option<string>)

  // ---------------------------------------------------------------- month ends

  function YearMonth(d: Date): (int, int) { (d.year, d.month) }

  /** Calendar order on dates: `a` is on or after `b`. */
  predicate NotBefore(a: Date, b: Date) { !Before(a, b) }

  lemma NotBeforeTransitive(a: Date, b: Date, c: Date)
    requires NotBefore(a, b) && NotBefore(b, c)
    ensures NotBefore(a, c)
  {
  }

  function DatesOf(rows: seq<MonthRow>): (ds: seq<Date>)
    ensures |ds| == |rows|
  {
    seq(|rows|, i requires 0 <= i < |rows| => rows[i].date)
  }

  /**
   * The latest date of each year-month among `dates`: one entry per year-month that
   * occurs, holding a date of that month no day of that month among `dates` comes after.
   */
  method LatestMonthEnds(dates: seq<Date>) returns (ends: map<(int, int), Date>)
    ensures forall ym :: ym in ends <==> exists i :: 0 <= i < |dates| && YearMonth(dates[i]) == ym
    ensures forall ym :: ym in ends ==> ends[ym] in dates && YearMonth(ends[ym]) == ym
    ensures forall i :: 0 <= i < |dates| ==> dates[i].day <= ends[YearMonth(dates[i])].day
  {
    ends := map[];
    var i := 0;
    while i < |dates|
      invariant 0 <= i <= |dates|
      invariant forall ym :: ym in ends <==> exists j :: 0 <= j < i && YearMonth(dates[j]) == ym
      invariant forall ym :: ym in ends ==> ends[ym] in dates && YearMonth(ends[ym]) == ym
      invariant forall j :: 0 <= j < i ==> dates[j].day <= ends[YearMonth(dates[j])].day
    {
      var d := dates[i];
      var ym := YearMonth(d);
      if ym !in ends || d.day > ends[ym].day {
        ends := ends[ym := d];
      }
      i := i + 1;
    }
  }

  /** `sorted(ends.values(), reverse=True)[0]`: the latest of the month ends, if there is one. */
  method MostRecent(ends: map<(int, int), Date>) returns (r: Option<Date>)
    ensures r.None? <==> ends == map[]
    ensures r.Some? ==> exists ym :: ym in ends && ends[ym] == r.value
    ensures r.Some? ==> forall ym :: ym in ends ==> NotBefore(r.value, ends[ym])
  {
    r := None;
    var rest := ends.Keys;
    while rest != {}
      invariant rest <= ends.Keys
      invariant r.None? <==> rest == ends.Keys
      invariant r.Some? ==> exists ym :: ym in ends && ends[ym] == r.value
      invariant r.Some? ==> forall ym :: ym in ends.Keys - rest ==> NotBefore(r.value, ends[ym])
      decreases rest
    {
      var ym :| ym in rest;
      if r.None? || Before(r.value, ends[ym]) {
        forall k | k in ends.Keys - rest && r.Some? ensures NotBefore(ends[ym], ends[k]) {
          NotBeforeTransitive(ends[ym], r.value, ends[k]);
        }
        r := Some(ends[ym]);
      }
      rest := rest - {ym};
    }
    if ends != map[] {
      var k :| k in ends;
      assert r.Some?;
    }
  }

  /** The most recent month end is the latest report date of all. */
  lemma MonthEndIsLatest(dates: seq<Date>, ends: map<(int, int), Date>, last: Date)
    requires forall i :: 0 <= i < |dates| ==> YearMonth(dates[i]) in ends && dates[i].day <= ends[YearMonth(dates[i])].day
    requires forall ym :: ym in ends ==> YearMonth(ends[ym]) == ym
    requires forall ym :: ym in ends ==> NotBefore(last, ends[ym])
    ensures forall i :: 0 <= i < |dates| ==> NotBefore(last, dates[i])
  {
    forall i | 0 <= i < |dates| ensures NotBefore(last, dates[i]) {
      var e := ends[YearMonth(dates[i])];
      assert NotBefore(e, dates[i]);
      NotBeforeTransitive(last, e, dates[i]);
    }
  }

  /** `filter(date__year=…, date__month=…)`: the reports of one month. */
  function MonthRows(rows: seq<MonthRow>, ym: (int, int)): (r: seq<MonthRow>)
    ensures |r| <= |rows|
    ensures forall i :: 0 <= i < |r| ==> YearMonth(r[i].date) == ym && r[i] in rows
  {
    if rows == [] then []
    else
      var init := MonthRows(rows[..|rows| - 1], ym);
      var last := rows[|rows| - 1];
      if YearMonth(last.date) == ym then init + [last] else init
  }

  // ---------------------------------------------------------------- averages per resource

  /** `report['billing'] or 'N/A'`: a null or empty text shows as `N/A`. */
  function OrNA(t: Option<string>): (s: string)
    ensures s != ""
  {
    if t.None? || t.value == "" then "N/A" else t.value
  }

  function EmailsOf(rows: seq<MonthRow>): (es: seq<string>)
    ensures |es| == |rows|
  {
    seq(|rows|, i requires 0 <= i < |rows| => rows[i].email)
  }

  /** The utilization summed over a resource's reports. */
  function SumFor(rows: seq<MonthRow>, e: string): real {
    if rows == [] then 0.0
    else SumFor(rows[..|rows| - 1], e) + (if rows[|rows| - 1].email == e then rows[|rows| - 1].utilization else 0.0)
  }

  /** The number of a resource's reports. */
  function CountFor(rows: seq<MonthRow>, e: string): nat {
    if rows == [] then 0
    else CountFor(rows[..|rows| - 1], e) + (if rows[|rows| - 1].email == e then 1 else 0)
  }

  /** A resource's first report. */
  function FirstFor(rows: seq<MonthRow>, e: string): (r: Option<MonthRow>)
    ensures r.Some? ==> r.value in rows && r.value.email == e
  {
    if rows == [] then None
    else if rows[0].email == e then Some(rows[0])
    else FirstFor(rows[1..], e)
  }

  /** The running totals kept per resource: the billing and RDM come from its first report. */
  datatype Acc = Acc(sum: real, count: nat, billing: string, rdm: string)

  /** A resource with reports has a first report and a positive count. */
  lemma {:induction false} AppearsHasReports(rows: seq<MonthRow>, e: string)
    requires e in EmailsOf(rows)
    ensures CountFor(rows, e) > 0 && FirstFor(rows, e).Some?
  {
    var init := rows[..|rows| - 1];
    if rows[|rows| - 1].email != e {
      var k :| 0 <= k < |rows| && EmailsOf(rows)[k] == e;
      assert EmailsOf(init)[k] == e;
      AppearsHasReports(init, e);
    }
    FirstForAppears(rows, e);
  }

  lemma {:induction false} FirstForAppears(rows: seq<MonthRow>, e: string)
    requires e in EmailsOf(rows)
    ensures FirstFor(rows, e).Some?
  {
    if rows[0].email != e {
      var k :| 0 <= k < |rows| && EmailsOf(rows)[k] == e;
      assert EmailsOf(rows[1..])[k - 1] == e;
      FirstForAppears(rows[1..], e);
    }
  }

  /** A resource's totals over its reports. */
  function AccFor(rows: seq<MonthRow>, e: string): (a: Acc)
    requires e in EmailsOf(rows)
    ensures a.count > 0
  {
    AppearsHasReports(rows, e);
    var first := FirstFor(rows, e).value;
    Acc(SumFor(rows, e), CountFor(rows, e), OrNA(first.billing), OrNA(first.rdm))
  }

  /** Appending a report moves its resource's totals and only those. */
  lemma AccForSnoc(rows: seq<MonthRow>, r: MonthRow, e: string)
    requires e in EmailsOf(rows + [r])
    ensures (rows + [r])[..|rows|] == rows
    ensures EmailsOf(rows + [r]) == EmailsOf(rows) + [r.email]
    ensures e in EmailsOf(rows) ==> (AccFor(rows + [r], e) ==
      var a := AccFor(rows, e);
      if r.email == e then a.(sum := a.sum + r.utilization, count := a.count + 1) else a)
    ensures e !in EmailsOf(rows) ==> e == r.email && AccFor(rows + [r], e) == Acc(r.utilization, 1, OrNA(r.billing), OrNA(r.rdm))
  {
    var s := rows + [r];
    assert s[..|rows|] == rows;
    assert EmailsOf(s) == EmailsOf(rows) + [r.email];
    if e in EmailsOf(rows) {
      FirstForAppears(rows, e);
      FirstForSnoc(rows, r, e);
    } else {
      NoReportsNoCount(rows, e);
      FirstForSnoc(rows, r, e);
    }
  }

  lemma {:induction false} FirstForSnoc(rows: seq<MonthRow>, r: MonthRow, e: string)
    ensures FirstFor(rows + [r], e) == if FirstFor(rows, e).Some? then FirstFor(rows, e)
                                       else if r.email == e then Some(r) else None
  {
    if rows != [] {
      assert (rows + [r])[1..] == rows[1..] + [r];
      FirstForSnoc(rows[1..], r, e);
    }
  }

  lemma {:induction false} NoReportsNoCount(rows: seq<MonthRow>, e: string)
    requires e !in EmailsOf(rows)
    ensures CountFor(rows, e) == 0 && SumFor(rows, e) == 0.0 && FirstFor(rows, e).None?
  {
    if rows != [] {
      var init := rows[..|rows| - 1];
      assert forall k :: 0 <= k < |init| ==> EmailsOf(init)[k] == EmailsOf(rows)[k];
      NoReportsNoCount(init, e);
      assert EmailsOf(rows)[|rows| - 1] == rows[|rows| - 1].email;
      NoFirst(rows, e);
    }
  }

  lemma {:induction false} NoFirst(rows: seq<MonthRow>, e: string)
    requires e !in EmailsOf(rows)
    ensures FirstFor(rows, e).None?
  {
    if rows != [] {
      assert EmailsOf(rows)[0] == rows[0].email;
      assert forall k :: 0 <= k < |rows| - 1 ==> EmailsOf(rows[1..])[k] == EmailsOf(rows)[k + 1];
      NoFirst(rows[1..], e);
    }
  }

  lemma EmailsOfSnoc(rows: seq<MonthRow>, r: MonthRow)
    ensures EmailsOf(rows + [r]) == EmailsOf(rows) + [r.email]
  {
  }

  /** Deduplicating one more element adds it at the end unless it was already there. */
  lemma DedupSnoc(s: seq<string>, x: string)
    ensures Pivot.Dedup(s + [x]) == if x in s then Pivot.Dedup(s) else Pivot.Dedup(s) + [x]
  {
    assert (s + [x])[..|s|] == s;
    Pivot.DedupMembers(s);
  }

  /** The first loop's body: a report adds to its resource's sum and count, opening them at its first report. */
  function AddReport(acc: map<string, Acc>, r: MonthRow): (next: map<string, Acc>)
    ensures next.Keys == acc.Keys + {r.email}
  {
    if r.email in acc then
      acc[r.email := acc[r.email].(sum := acc[r.email].sum + r.utilization, count := acc[r.email].count + 1)]
    else
      acc[r.email := Acc(r.utilization, 1, OrNA(r.billing), OrNA(r.rdm))]
  }

  /** `acc` holds exactly the totals of the resources of `done`, and `order` lists them by first appearance. */
  ghost predicate Grouping(done: seq<MonthRow>, order: seq<string>, acc: map<string, Acc>) {
    order == Pivot.Dedup(EmailsOf(done)) &&
    (forall e :: e in acc <==> e in EmailsOf(done)) &&
    (forall e :: e in acc ==> acc[e] == AccFor(done, e))
  }

  lemma GroupStepAt(done: seq<MonthRow>, r: MonthRow, acc: map<string, Acc>, e: string)
    requires forall e :: e in acc <==> e in EmailsOf(done)
    requires forall e :: e in acc ==> acc[e] == AccFor(done, e)
    requires e in AddReport(acc, r)
    ensures e in EmailsOf(done + [r]) && AddReport(acc, r)[e] == AccFor(done + [r], e)
  {
    EmailsOfSnoc(done, r);
    AccForSnoc(done, r, e);
  }

  /** One report folded into the running totals keeps them the totals of the reports seen. */
  lemma GroupStep(done: seq<MonthRow>, r: MonthRow, order: seq<string>, acc: map<string, Acc>)
    requires Grouping(done, order, acc)
    ensures Grouping(done + [r], if r.email in acc then order else order + [r.email], AddReport(acc, r))
  {
    EmailsOfSnoc(done, r);
    DedupSnoc(EmailsOf(done), r.email);
    var next := AddReport(acc, r);
    forall e | e in next ensures next[e] == AccFor(done + [r], e) {
      GroupStepAt(done, r, acc, e);
    }
  }

  /** The loop body at position `i` of the rows. */
  lemma GroupStepAtIndex(rows: seq<MonthRow>, i: nat, order: seq<string>, acc: map<string, Acc>)
    requires i < |rows| && Grouping(rows[..i], order, acc)
    ensures Grouping(rows[..i + 1], if rows[i].email in acc then order else order + [rows[i].email],
                     AddReport(acc, rows[i]))
  {
    assert rows[..i + 1] == rows[..i] + [rows[i]];
    GroupStep(rows[..i], rows[i], order, acc);
  }

  /**
   * The first loop of the view: per resource, in order of first appearance, the summed
   * utilization, the number of reports, and the billing and RDM of its first report.
   */
  method GroupByResource(rows: seq<MonthRow>) returns (order: seq<string>, acc: map<string, Acc>)
    ensures order == Pivot.Dedup(EmailsOf(rows))
    ensures forall e :: e in acc <==> e in EmailsOf(rows)
    ensures forall e :: e in acc ==> acc[e] == AccFor(rows, e)
  {
    order, acc := [], map[];
    var i := 0;
    while i < |rows|
      invariant 0 <= i <= |rows|
      invariant Grouping(rows[..i], order, acc)
    {
      var r := rows[i];
      GroupStepAtIndex(rows, i, order, acc);
      order, acc := if r.email in acc then order else order + [r.email], AddReport(acc, r);
      i := i + 1;
    }
    assert rows[..i] == rows;
  }

  // ---------------------------------------------------------------- buckets

  /** One resource in the view's lists: its average utilization, billing and RDM. */
  datatype Entry = Entry(email: string, utilization: real, billing: string, rdm: string)

  /** A resource's entry: the average of its utilization over its reports. */
  function EntryOf(e: string, a: Acc): Entry
    requires a.count > 0
  {
    Entry(e, a.sum / a.count as real, a.billing, a.rdm)
  }

  /** The second loop's list of resources: those of `order` with reports, with their averages. */
  function EntriesOf(order: seq<string>, acc: map<string, Acc>): seq<Entry>
    requires forall e :: e in order ==> e in acc
  {
    if order == [] then []
    else
      var e := order[|order| - 1];
      EntriesOf(order[..|order| - 1], acc) + (if acc[e].count > 0 then [EntryOf(e, acc[e])] else [])
  }

  /** The totals of the first loop, as a map from each resource of the month. */
  function Grouped(month: seq<MonthRow>): (acc: map<string, Acc>)
    ensures forall e :: e in acc <==> e in EmailsOf(month)
  {
    map e | e in EmailsOf(month) :: AccFor(month, e)
  }

  /** Every resource of the month, in order of first appearance, with its average. */
  function MonthEntries(month: seq<MonthRow>): seq<Entry> {
    Pivot.DedupMembers(EmailsOf(month));
    EntriesOf(Pivot.Dedup(EmailsOf(month)), Grouped(month))
  }

  lemma EntriesOfSnoc(order: seq<string>, e: string, acc: map<string, Acc>)
    requires forall k :: k in order ==> k in acc
    requires e in acc
    ensures EntriesOf(order + [e], acc) ==
            EntriesOf(order, acc) + (if acc[e].count > 0 then [EntryOf(e, acc[e])] else [])
  {
    assert (order + [e])[..|order|] == order;
  }

  /** When every resource has a report (always, after the first loop), each gets its entry, in order. */
  lemma {:induction false} EntriesOfAll(order: seq<string>, acc: map<string, Acc>, i: nat)
    requires forall e :: e in order ==> e in acc && acc[e].count > 0
    ensures |EntriesOf(order, acc)| == |order|
    ensures i < |order| ==> EntriesOf(order, acc)[i] == EntryOf(order[i], acc[order[i]])
  {
    if order != [] {
      EntriesOfAll(order[..|order| - 1], acc, i);
    }
  }

  /** The month's resources appear once each in the list, with their averages. */
  lemma MonthEntriesAt(month: seq<MonthRow>, i: nat)
    ensures |MonthEntries(month)| == |Pivot.Dedup(EmailsOf(month))|
    ensures i < |MonthEntries(month)| ==>
      var e := Pivot.Dedup(EmailsOf(month))[i];
      e in EmailsOf(month) && MonthEntries(month)[i] == EntryOf(e, AccFor(month, e))
  {
    Pivot.DedupMembers(EmailsOf(month));
    EntriesOfAll(Pivot.Dedup(EmailsOf(month)), Grouped(month), i);
  }

  /** The lower bounds of the chart ranges after the first: 15, 25, 35 and 50 percent. */
  const RangeBounds: seq<real> := [15.0, 25.0, 35.0, 50.0]

  /** The names of the chart ranges, in order. */
  const RangeNames: seq<string> := ["0-15%", "15-25%", "25-35%", "35-50%", "Above 50%"]

  /** The chart range of an average: the first bound it is below, or the last range. */
  function RangeOf(u: real): (b: nat)
    ensures b < 5
  {
    if u < 15.0 then 0 else if u < 25.0 then 1 else if u < 35.0 then 2 else if u < 50.0 then 3 else 4
  }

  /** Range `b` as an interval: from the bound below it (none for the first) up to the bound above it (none for the last). */
  predicate InRange(u: real, b: nat) {
    b < 5 && (b == 0 || RangeBounds[b - 1] <= u) && (b == 4 || u < RangeBounds[b])
  }

  /** Each average falls in exactly one range, the one `RangeOf` picks. */
  lemma RangeOfExactlyOne(u: real, b: nat)
    ensures InRange(u, b) <==> RangeOf(u) == b
  {
  }

  /** `below_35` before sorting: the entries under 35 percent, in order. */
  function Below35(s: seq<Entry>): seq<Entry> {
    if s == [] then []
    else Below35(s[..|s| - 1]) + (if s[|s| - 1].utilization < 35.0 then [s[|s| - 1]] else [])
  }

  /** `below_50` before sorting: the entries from 35 up to 50 percent, in order. */
  function Below50(s: seq<Entry>): seq<Entry> {
    if s == [] then []
    else Below50(s[..|s| - 1]) + (if 35.0 <= s[|s| - 1].utilization < 50.0 then [s[|s| - 1]] else [])
  }

  /** The number of entries in chart range `b`. */
  function RangeCount(s: seq<Entry>, b: nat): nat {
    if s == [] then 0
    else RangeCount(s[..|s| - 1], b) + (if RangeOf(s[|s| - 1].utilization) == b then 1 else 0)
  }

  /** Occurrences per value, as the view's `dict.get(k, 0) + 1` tallies build them. */
  function Tally(s: seq<string>): map<string, nat> {
    if s == [] then map[] else Bump(Tally(s[..|s| - 1]), s[|s| - 1])
  }

  /** `m[k] = m.get(k, 0) + 1`. */
  function Bump(m: map<string, nat>, k: string): map<string, nat> {
    m[k := (if k in m then m[k] else 0) + 1]
  }

  function BillingsOf(s: seq<Entry>): seq<string> {
    seq(|s|, i requires 0 <= i < |s| => s[i].billing)
  }

  function RdmsOf(s: seq<Entry>): seq<string> {
    seq(|s|, i requires 0 <= i < |s| => s[i].rdm)
  }

  /** The tally counts every value of the list, and only those. */
  lemma {:induction false} TallyCounts(s: seq<string>)
    ensures forall x :: x in Tally(s) <==> x in s
    ensures forall x :: x in Tally(s) ==> Tally(s)[x] == multiset(s)[x]
  {
    if s != [] {
      var init := s[..|s| - 1];
      TallyCounts(init);
      assert s == init + [s[|s| - 1]];
    }
  }

  /** An entry is in `below_35` exactly when it is under 35, and in `below_50` exactly when it is from 35 up to 50. */
  lemma {:induction false} BelowMembers(s: seq<Entry>)
    ensures forall x :: x in Below35(s) <==> x in s && x.utilization < 35.0
    ensures forall x :: x in Below50(s) <==> x in s && 35.0 <= x.utilization < 50.0
  {
    if s != [] {
      BelowMembers(s[..|s| - 1]);
      assert s == s[..|s| - 1] + [s[|s| - 1]];
    }
  }

  /** The lists never share an entry, and an entry in neither is at least 50. */
  lemma BelowListsDisjoint(s: seq<Entry>)
    ensures forall x :: x in Below35(s) ==> x !in Below50(s)
    ensures forall x :: x in s && x !in Below35(s) && x !in Below50(s) ==> x.utilization >= 50.0
  {
    BelowMembers(s);
  }

  /** The five range counts add up to the number of resources. */
  lemma {:induction false} RangeCountsTotal(s: seq<Entry>)
    ensures RangeCount(s, 0) + RangeCount(s, 1) + RangeCount(s, 2) + RangeCount(s, 3) + RangeCount(s, 4) == |s|
  {
    if s != [] {
      RangeCountsTotal(s[..|s| - 1]);
    }
  }

  // ---------------------------------------------------------------- sorting

  predicate SortedByUtil(s: seq<Entry>) {
    forall i, j :: 0 <= i < j < |s| ==> s[i].utilization <= s[j].utilization
  }

  /** Places `x` before the first entry with a higher utilization, after any equal ones. */
  function InsertByUtil(x: Entry, s: seq<Entry>): (r: seq<Entry>)
    ensures multiset(r) == multiset(s) + multiset{x}
  {
    if s == [] then [x]
    else if x.utilization < s[0].utilization then [x] + s
    else
      assert s == [s[0]] + s[1..];
      [s[0]] + InsertByUtil(x, s[1..])
  }

  /** `list.sort(key=utilization)`: entries taken in order and inserted, so equal keys keep their order. */
  function SortByUtil(s: seq<Entry>): (r: seq<Entry>)
    ensures multiset(r) == multiset(s)
  {
    if s == [] then []
    else
      assert s == s[..|s| - 1] + [s[|s| - 1]];
      InsertByUtil(s[|s| - 1], SortByUtil(s[..|s| - 1]))
  }

  /** Every entry of `s` is at least `lo`. */
  predicate AtLeast(lo: real, s: seq<Entry>) {
    forall i :: 0 <= i < |s| ==> lo <= s[i].utilization
  }

  /** The tail of a sorted list is sorted and bounded below by its head. */
  lemma SortedTail(s: seq<Entry>)
    requires SortedByUtil(s) && s != []
    ensures SortedByUtil(s[1..]) && AtLeast(s[0].utilization, s[1..])
  {
    forall i | 0 <= i < |s| - 1 ensures s[0].utilization <= s[1..][i].utilization {
      assert s[1..][i] == s[i + 1];
    }
  }

  /** A sorted list stays sorted with an entry no greater than all of it in front. */
  lemma SortedCons(a: Entry, r: seq<Entry>)
    requires SortedByUtil(r) && AtLeast(a.utilization, r)
    ensures SortedByUtil([a] + r)
  {
    var whole := [a] + r;
    forall i, j | 0 <= i < j < |whole| ensures whole[i].utilization <= whole[j].utilization {
      assert whole[j] == r[j - 1];
      if i > 0 {
        assert whole[i] == r[i - 1];
      }
    }
  }

  lemma {:induction false} InsertAtLeast(x: Entry, s: seq<Entry>, lo: real)
    requires AtLeast(lo, s) && lo <= x.utilization
    ensures AtLeast(lo, InsertByUtil(x, s))
  {
    if s != [] && x.utilization >= s[0].utilization {
      var t := s[1..];
      assert AtLeast(lo, t) by {
        forall i | 0 <= i < |t| ensures lo <= t[i].utilization {
          assert t[i] == s[i + 1];
        }
      }
      InsertAtLeast(x, t, lo);
      var whole := [s[0]] + InsertByUtil(x, t);
      forall i | 0 <= i < |whole| ensures lo <= whole[i].utilization {
        if i > 0 {
          assert whole[i] == InsertByUtil(x, t)[i - 1];
        }
      }
    }
  }

  lemma {:induction false} InsertByUtilSorted(x: Entry, s: seq<Entry>)
    requires SortedByUtil(s)
    ensures SortedByUtil(InsertByUtil(x, s))
  {
    if s == [] {
    } else if x.utilization < s[0].utilization {
      SortedTail(s);
      assert AtLeast(x.utilization, s) by {
        forall i | 0 <= i < |s| ensures x.utilization <= s[i].utilization {
          if i > 0 {
            assert s[i] == s[1..][i - 1];
          }
        }
      }
      SortedCons(x, s);
    } else {
      var t := s[1..];
      SortedTail(s);
      InsertByUtilSorted(x, t);
      InsertAtLeast(x, t, s[0].utilization);
      SortedCons(s[0], InsertByUtil(x, t));
    }
  }

  /** The sorted list is in ascending order of utilization, with the same entries. */
  lemma {:induction false} SortByUtilSorted(s: seq<Entry>)
    ensures SortedByUtil(SortByUtil(s)) && multiset(SortByUtil(s)) == multiset(s)
  {
    if s != [] {
      SortByUtilSorted(s[..|s| - 1]);
      InsertByUtilSorted(s[|s| - 1], SortByUtil(s[..|s| - 1]));
    }
  }

  /** The entry alone if its utilization is `u`, otherwise nothing. */
  function OnlyUtil(x: Entry, u: real): seq<Entry> {
    if x.utilization == u then [x] else []
  }

  /** The entries of `s` with utilization `u`, in their order in `s`. */
  function WithUtil(s: seq<Entry>, u: real): seq<Entry> {
    if s == [] then [] else OnlyUtil(s[0], u) + WithUtil(s[1..], u)
  }

  lemma WithUtilCons(x: Entry, s: seq<Entry>, u: real)
    ensures WithUtil([x] + s, u) == OnlyUtil(x, u) + WithUtil(s, u)
  {
    assert ([x] + s)[0] == x && ([x] + s)[1..] == s;
  }

  lemma {:induction false} WithUtilAppend(a: seq<Entry>, b: seq<Entry>, u: real)
    ensures WithUtil(a + b, u) == WithUtil(a, u) + WithUtil(b, u)
  {
    if a == [] {
      assert a + b == b;
    } else {
      WithUtilAppend(a[1..], b, u);
      assert a + b == [a[0]] + (a[1..] + b);
      WithUtilCons(a[0], a[1..] + b, u);
    }
  }

  lemma {:induction false} WithUtilAbove(s: seq<Entry>, u: real)
    requires forall i :: 0 <= i < |s| ==> u < s[i].utilization
    ensures WithUtil(s, u) == []
  {
    if s != [] {
      WithUtilAbove(s[1..], u);
    }
  }

  /** Inserting into a sorted list puts the new entry after every entry of equal utilization. */
  lemma {:induction false} InsertByUtilStable(x: Entry, s: seq<Entry>, u: real)
    requires SortedByUtil(s)
    ensures WithUtil(InsertByUtil(x, s), u) == WithUtil(s, u) + OnlyUtil(x, u)
  {
    if s == [] {
      WithUtilCons(x, [], u);
    } else if x.utilization < s[0].utilization {
      InsertInFront(x, s, u);
    } else {
      SortedTail(s);
      InsertByUtilStable(x, s[1..], u);
      InsertPast(x, s[0], s[1..], u);
      assert s == [s[0]] + s[1..];
    }
  }

  lemma InsertInFront(x: Entry, s: seq<Entry>, u: real)
    requires SortedByUtil(s) && s != [] && x.utilization < s[0].utilization
    ensures WithUtil(InsertByUtil(x, s), u) == WithUtil(s, u) + OnlyUtil(x, u)
  {
    assert InsertByUtil(x, s) == [x] + s;
    WithUtilCons(x, s, u);
    if x.utilization == u {
      WithUtilAbove(s, u);
    }
  }

  lemma InsertPast(x: Entry, y: Entry, t: seq<Entry>, u: real)
    requires y.utilization <= x.utilization
    requires WithUtil(InsertByUtil(x, t), u) == WithUtil(t, u) + OnlyUtil(x, u)
    ensures WithUtil(InsertByUtil(x, [y] + t), u) == WithUtil([y] + t, u) + OnlyUtil(x, u)
  {
    InsertByUtilPast(x, y, t);
    ConsStep(y, InsertByUtil(x, t), t, x, u);
  }

  /** Putting the same entry in front of both sides keeps the appended entry last. */
  lemma ConsStep(y: Entry, r: seq<Entry>, w: seq<Entry>, x: Entry, u: real)
    requires WithUtil(r, u) == WithUtil(w, u) + OnlyUtil(x, u)
    ensures WithUtil([y] + r, u) == WithUtil([y] + w, u) + OnlyUtil(x, u)
  {
    WithUtilCons(y, r, u);
    WithUtilCons(y, w, u);
    var a, b, c := OnlyUtil(y, u), WithUtil(w, u), OnlyUtil(x, u);
    assert a + (b + c) == (a + b) + c;
  }

  lemma InsertByUtilPast(x: Entry, y: Entry, t: seq<Entry>)
    requires y.utilization <= x.utilization
    ensures InsertByUtil(x, [y] + t) == [y] + InsertByUtil(x, t)
  {
    assert ([y] + t)[0] == y && ([y] + t)[1..] == t;
  }

  /** The last entry's contribution comes last. */
  lemma WithUtilSnoc(s: seq<Entry>, u: real)
    requires s != []
    ensures WithUtil(s, u) == WithUtil(s[..|s| - 1], u) + OnlyUtil(s[|s| - 1], u)
  {
    assert s == s[..|s| - 1] + [s[|s| - 1]];
    WithUtilAppend(s[..|s| - 1], [s[|s| - 1]], u);
    WithUtilCons(s[|s| - 1], [], u);
  }

  /** `list.sort` is stable: entries of equal utilization keep their input order. */
  lemma {:induction false} SortByUtilStable(s: seq<Entry>, u: real)
    ensures WithUtil(SortByUtil(s), u) == WithUtil(s, u)
  {
    if s != [] {
      var init, last := s[..|s| - 1], s[|s| - 1];
      SortByUtilStable(init, u);
      SortByUtilSorted(init);
      InsertByUtilStable(last, SortByUtil(init), u);
      WithUtilSnoc(s, u);
    }
  }

  // ---------------------------------------------------------------- averages of the lists

  function SumUtil(s: seq<Entry>): real {
    if s == [] then 0.0 else SumUtil(s[..|s| - 1]) + s[|s| - 1].utilization
  }

  /** `sum(...) / len(...) if list else 0`. */
  function Mean(s: seq<Entry>): real {
    if s == [] then 0.0 else SumUtil(s) / |s| as real
  }

  lemma {:induction false} SumUtilBelow(s: seq<Entry>, hi: real)
    requires s != []
    requires forall i :: 0 <= i < |s| ==> s[i].utilization < hi
    ensures SumUtil(s) < hi * |s| as real
  {
    if |s| > 1 {
      SumUtilBelow(s[..|s| - 1], hi);
    }
  }

  lemma {:induction false} SumUtilAtLeast(s: seq<Entry>, lo: real)
    requires forall i :: 0 <= i < |s| ==> lo <= s[i].utilization
    ensures lo * |s| as real <= SumUtil(s)
  {
    if s != [] {
      SumUtilAtLeast(s[..|s| - 1], lo);
    }
  }

  /** The mean of a non-empty list is below any bound all of its entries are below. */
  lemma MeanBelow(s: seq<Entry>, hi: real)
    requires s != []
    requires forall i :: 0 <= i < |s| ==> s[i].utilization < hi
    ensures Mean(s) < hi
  {
    SumUtilBelow(s, hi);
    var n := |s| as real;
    assert SumUtil(s) / n < hi by {
      assert SumUtil(s) < hi * n;
    }
  }

  /** The mean of a non-empty list is at least any bound all of its entries reach. */
  lemma MeanAtLeast(s: seq<Entry>, lo: real)
    requires s != []
    requires forall i :: 0 <= i < |s| ==> lo <= s[i].utilization
    ensures lo <= Mean(s)
  {
    SumUtilAtLeast(s, lo);
    var n := |s| as real;
    assert lo <= SumUtil(s) / n by {
      assert lo * n <= SumUtil(s);
    }
  }

  // ---------------------------------------------------------------- the second loop

  /** What the second loop has built from the entries `all` so far. */
  predicate Stats(all: seq<Entry>, below35: seq<Entry>, below50: seq<Entry>, ranges: seq<nat>,
                  billingTypes: map<string, nat>, rdms: map<string, nat>) {
    below35 == Below35(all) && below50 == Below50(all) &&
    |ranges| == 5 && (forall b :: 0 <= b < 5 ==> ranges[b] == RangeCount(all, b)) &&
    billingTypes == Tally(BillingsOf(all)) && rdms == Tally(RdmsOf(all))
  }

  lemma ListsStep(all: seq<Entry>, x: Entry)
    ensures Below35(all + [x]) == Below35(all) + (if x.utilization < 35.0 then [x] else [])
    ensures Below50(all + [x]) == Below50(all) + (if 35.0 <= x.utilization < 50.0 then [x] else [])
  {
    assert (all + [x])[..|all|] == all;
  }

  lemma RangesStep(all: seq<Entry>, x: Entry, ranges: seq<nat>)
    requires |ranges| == 5 && forall b :: 0 <= b < 5 ==> ranges[b] == RangeCount(all, b)
    ensures var next := ranges[RangeOf(x.utilization) := ranges[RangeOf(x.utilization)] + 1];
      forall b :: 0 <= b < 5 ==> next[b] == RangeCount(all + [x], b)
  {
    assert (all + [x])[..|all|] == all;
  }

  lemma TalliesStep(all: seq<Entry>, x: Entry)
    ensures Tally(BillingsOf(all + [x])) == Bump(Tally(BillingsOf(all)), x.billing)
    ensures Tally(RdmsOf(all + [x])) == Bump(Tally(RdmsOf(all)), x.rdm)
  {
    assert BillingsOf(all + [x]) == BillingsOf(all) + [x.billing];
    assert RdmsOf(all + [x]) == RdmsOf(all) + [x.rdm];
  }

  /** The lists and counters the second loop keeps. */
  datatype Charts = Charts(below35: seq<Entry>, below50: seq<Entry>, ranges: seq<nat>,
                           billingTypes: map<string, nat>, rdms: map<string, nat>)

  /** The counters before the loop: empty lists and tallies, all five ranges at 0. */
  const NoCharts: Charts := Charts([], [], [0, 0, 0, 0, 0], map[], map[])

  /** The second loop's body for one entry: tallied by billing, by RDM and by range, then listed by threshold. */
  function AddEntry(c: Charts, x: Entry): (next: Charts)
    requires |c.ranges| == 5
    ensures |next.ranges| == 5
  {
    var b := RangeOf(x.utilization);
    Charts(if x.utilization < 35.0 then c.below35 + [x] else c.below35,
           if !(x.utilization < 35.0) && x.utilization < 50.0 then c.below50 + [x] else c.below50,
           c.ranges[b := c.ranges[b] + 1],
           Bump(c.billingTypes, x.billing), Bump(c.rdms, x.rdm))
  }

  /** The counters after the entries `all`, in order. */
  function ChartsOf(all: seq<Entry>): (c: Charts)
    ensures |c.ranges| == 5
  {
    if all == [] then NoCharts else AddEntry(ChartsOf(all[..|all| - 1]), all[|all| - 1])
  }

  /** One more entry is one more step of the loop body. */
  lemma ChartsOfSnoc(all: seq<Entry>, x: Entry)
    ensures ChartsOf(all + [x]) == AddEntry(ChartsOf(all), x)
  {
    assert (all + [x])[..|all|] == all;
  }

  /** The counters after a list are its filtered lists, its range counts and its tallies. */
  lemma {:induction false} ChartsOfStats(all: seq<Entry>)
    ensures var c := ChartsOf(all); Stats(all, c.below35, c.below50, c.ranges, c.billingTypes, c.rdms)
  {
    if all != [] {
      var init, x := all[..|all| - 1], all[|all| - 1];
      ChartsOfStats(init);
      assert all == init + [x];
      ListsStep(init, x);
      RangesStep(init, x, ChartsOf(init).ranges);
      TalliesStep(init, x);
    }
  }

  /**
   * The second loop: each resource with reports gets its entry, is tallied by billing, by RDM
   * and by chart range, and goes to `below_35`, to `below_50` or to neither.
   */
  method Classify(order: seq<string>, acc: map<string, Acc>) returns (all: seq<Entry>, charts: Charts)
    requires forall e :: e in order ==> e in acc
    ensures all == EntriesOf(order, acc) && charts == ChartsOf(all)
  {
    all, charts := [], NoCharts;
    var i := 0;
    while i < |order|
      invariant 0 <= i <= |order|
      invariant all == EntriesOf(order[..i], acc) && charts == ChartsOf(all)
    {
      var e := order[i];
      EntriesOfSnoc(order[..i], e, acc);
      assert order[..i + 1] == order[..i] + [e];
      if acc[e].count > 0 {
        var x := EntryOf(e, acc[e]);
        ChartsOfSnoc(all, x);
        all := all + [x];
        charts := AddEntry(charts, x);
      }
      i := i + 1;
    }
    assert order[..i] == order;
  }

  // ---------------------------------------------------------------- the view

  /** The view's answer: the month, the two sorted lists, the resource count and the chart data. */
  datatype LowUtilReport = LowUtilReport(
    monthEnd: Date,
    below35: seq<Entry>,
    below50: seq<Entry>,
    totalResources: nat,
    billingTypes: map<string, nat>,
    rdmDistribution: map<string, nat>,
    ranges: seq<nat>,
    avgBelow35: real,
    avgBelow50: real,
    avgAll: real)

  /** The report on the reports of one month, whose latest report date is `monthEnd`. */
  function Summary(month: seq<MonthRow>, monthEnd: Date): LowUtilReport {
    var all := MonthEntries(month);
    var below35 := SortByUtil(Below35(all));
    var below50 := SortByUtil(Below50(all));
    LowUtilReport(monthEnd, below35, below50, |set e | e in EmailsOf(month)|,
                  Tally(BillingsOf(all)), Tally(RdmsOf(all)),
                  seq(5, b requires 0 <= b < 5 => RangeCount(all, b)),
                  Mean(below35), Mean(below50), Mean(SortByUtil(all)))
  }

  /** What the first loop returns is the month's grouping, over the month's resources. */
  lemma GroupedIsFirstLoop(month: seq<MonthRow>, order: seq<string>, acc: map<string, Acc>)
    requires order == Pivot.Dedup(EmailsOf(month))
    requires forall e :: e in acc <==> e in EmailsOf(month)
    requires forall e :: e in acc ==> acc[e] == AccFor(month, e)
    ensures acc == Grouped(month)
    ensures forall e :: e in order ==> e in acc
  {
    Pivot.DedupMembers(EmailsOf(month));
  }

  /** The second loop's results, sorted and averaged, are the month's summary. */
  lemma SecondLoopIsSummary(month: seq<MonthRow>, monthEnd: Date, all: seq<Entry>, below35: seq<Entry>,
                            below50: seq<Entry>, ranges: seq<nat>, billingTypes: map<string, nat>,
                            rdms: map<string, nat>)
    requires all == MonthEntries(month)
    requires Charts(below35, below50, ranges, billingTypes, rdms) == ChartsOf(all)
    ensures Summary(month, monthEnd) ==
      LowUtilReport(monthEnd, SortByUtil(below35), SortByUtil(below50), |set e | e in EmailsOf(month)|,
                    billingTypes, rdms, ranges,
                    Mean(SortByUtil(below35)), Mean(SortByUtil(below50)), Mean(SortByUtil(all)))
  {
    ChartsOfStats(all);
    assert ranges == seq(5, b requires 0 <= b < 5 => RangeCount(all, b));
  }

  /** The first part of the view: the latest date of each month, and the latest of those. */
  method MostRecentMonthEnd(rows: seq<MonthRow>) returns (monthEnd: Date)
    requires rows != []
    ensures monthEnd in DatesOf(rows)
    ensures forall i :: 0 <= i < |rows| ==> NotBefore(monthEnd, rows[i].date)
  {
    var dates := DatesOf(rows);
    var ends := LatestMonthEnds(dates);
    assert YearMonth(dates[0]) in ends;
    var last := MostRecent(ends);
    monthEnd := last.value;
    MonthEndIsLatest(dates, ends, monthEnd);
    forall i | 0 <= i < |rows| ensures NotBefore(monthEnd, rows[i].date) {
      assert dates[i] == rows[i].date;
    }
  }

  /**
   * `get_low_utilization_resources`: None (the view's placeholder data) when there are no
   * reports; otherwise the summary of the reports in the month of the latest report date.
   */
  method LowUtilization(rows: seq<MonthRow>) returns (r: Option<LowUtilReport>)
    ensures r.None? <==> rows == []
    ensures r.Some? ==> r.value.monthEnd in DatesOf(rows) &&
                        forall i :: 0 <= i < |rows| ==> NotBefore(r.value.monthEnd, rows[i].date)
    ensures r.Some? ==> r.value == Summary(MonthRows(rows, YearMonth(r.value.monthEnd)), r.value.monthEnd)
  {
    if rows == [] {
      return None;
    }
    var monthEnd := MostRecentMonthEnd(rows);
    var month := MonthRows(rows, YearMonth(monthEnd));
    var order, acc := GroupByResource(month);
    GroupedIsFirstLoop(month, order, acc);
    var all, charts := Classify(order, acc);
    var sorted35 := SortByUtil(charts.below35);
    var sorted50 := SortByUtil(charts.below50);
    var sortedAll := SortByUtil(all);
    var report := LowUtilReport(monthEnd, sorted35, sorted50, |set e | e in EmailsOf(month)|,
                                charts.billingTypes, charts.rdms, charts.ranges,
                                Mean(sorted35), Mean(sorted50), Mean(sortedAll));
    SecondLoopIsSummary(month, monthEnd, all, charts.below35, charts.below50, charts.ranges,
                        charts.billingTypes, charts.rdms);
    r := Some(report);
  }

  // ---------------------------------------------------------------- what the report promises

  /** A list without repeats has as many members as elements. */
  lemma {:induction false} DistinctCard(s: seq<string>)
    requires Pivot.Distinct(s)
    ensures |set x | x in s| == |s|
  {
    if s != [] {
      var init := s[..|s| - 1];
      var last := s[|s| - 1];
      DistinctCard(init);
      assert last !in init by {
        forall k | 0 <= k < |init| ensures init[k] != last {
          assert init[k] == s[k];
        }
      }
      assert (set x | x in s) == (set x | x in init) + {last} by {
        assert s == init + [last];
      }
    }
  }

  /** Both lists are sorted ascending and hold exactly the month's resources under 35, and from 35 up to 50. */
  lemma SummaryLists(month: seq<MonthRow>, monthEnd: Date)
    ensures SortedByUtil(Summary(month, monthEnd).below35) && SortedByUtil(Summary(month, monthEnd).below50)
    ensures forall x :: x in Summary(month, monthEnd).below35 <==>
      x in MonthEntries(month) && x.utilization < 35.0
    ensures forall x :: x in Summary(month, monthEnd).below50 <==>
      x in MonthEntries(month) && 35.0 <= x.utilization < 50.0
  {
    var all := MonthEntries(month);
    SortByUtilSorted(Below35(all));
    SortByUtilSorted(Below50(all));
    BelowMembers(all);
    var s := Summary(month, monthEnd);
    forall x ensures x in s.below35 <==> x in Below35(all) {
      assert x in s.below35 <==> x in multiset(s.below35);
    }
    forall x ensures x in s.below50 <==> x in Below50(all) {
      assert x in s.below50 <==> x in multiset(s.below50);
    }
  }

  /** `total_resources` counts every resource of the month once, and the chart ranges share them out. */
  lemma SummaryCounts(month: seq<MonthRow>, monthEnd: Date)
    ensures Summary(month, monthEnd).totalResources == |MonthEntries(month)|
    ensures var rs := Summary(month, monthEnd).ranges;
      |rs| == 5 && rs[0] + rs[1] + rs[2] + rs[3] + rs[4] == |MonthEntries(month)|
  {
    var emails := EmailsOf(month);
    Pivot.DedupMembers(emails);
    Pivot.DedupDistinct(emails);
    DistinctCard(Pivot.Dedup(emails));
    assert (set x | x in emails) == (set x | x in Pivot.Dedup(emails));
    MonthEntriesAt(month, 0);
    RangeCountsTotal(MonthEntries(month));
  }

  /** The averages lie in the ranges of their lists, and are 0 for an empty list. */
  lemma SummaryAverages(month: seq<MonthRow>, monthEnd: Date)
    ensures var s := Summary(month, monthEnd);
      (s.below35 == [] ==> s.avgBelow35 == 0.0) && (s.below35 != [] ==> s.avgBelow35 < 35.0)
    ensures var s := Summary(month, monthEnd);
      (s.below50 == [] ==> s.avgBelow50 == 0.0) && (s.below50 != [] ==> 35.0 <= s.avgBelow50 < 50.0)
  {
    SummaryLists(month, monthEnd);
    var s := Summary(month, monthEnd);
    if s.below35 != [] {
      forall i | 0 <= i < |s.below35| ensures s.below35[i].utilization < 35.0 {
        assert s.below35[i] in s.below35;
      }
      MeanBelow(s.below35, 35.0);
    }
    if s.below50 != [] {
      forall i | 0 <= i < |s.below50| ensures 35.0 <= s.below50[i].utilization < 50.0 {
        assert s.below50[i] in s.below50;
      }
      MeanBelow(s.below50, 50.0);
      MeanAtLeast(s.below50, 35.0);
    }
  }

  /** The billing and RDM charts count each value over the month's resources. */
  lemma SummaryTallies(month: seq<MonthRow>, monthEnd: Date)
    ensures var s := Summary(month, monthEnd); var all := MonthEntries(month);
      (forall b :: b in s.billingTypes <==> b in BillingsOf(all)) &&
      (forall b :: b in s.billingTypes ==> s.billingTypes[b] == multiset(BillingsOf(all))[b])
    ensures var s := Summary(month, monthEnd); var all := MonthEntries(month);
      (forall d :: d in s.rdmDistribution <==> d in RdmsOf(all)) &&
      (forall d :: d in s.rdmDistribution ==> s.rdmDistribution[d] == multiset(RdmsOf(all))[d])
  {
    TallyCounts(BillingsOf(MonthEntries(month)));
    TallyCounts(RdmsOf(MonthEntries(month)));
  }
}
