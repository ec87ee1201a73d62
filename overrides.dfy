/**
 * The manual overrides of the report page, as operations on the report table:
 * closing cases with a reason (`close_cases`), editing the two comment fields
 * (`update_comments`), and re-entering billable hours or additional days, which
 * re-derive the status and, for additional days, the date's capable utilization
 * (`update_billable_hours`, `update_additional_days`). Every change is logged in the
 * audit trail before it is made.
 */
module Overrides {
  import opened Wrappers
  import opened Text
  import opened Calendar
  import opened Rules
  import opened ReportModel
  import opened Store

  const NoCasesSelected: string := "No cases selected"
  const ReportNotFound: string := "Report not found"
  const InvalidField: string := "Invalid field"

  /** The reasons the two value overrides write when they close a case. */
  const AutoClosedReason: string := "Automatically closed - Required hours met"
  const ManualClosedReason: string := "Manually set additional days to 0"

  predicate EndsWith(s: string, t: string) {
    |s| >= |t| && s[|s| - |t|..] == t
  }

  /** The comments after a closing: the old comments, a space, and `[Closed: reason]`, stripped. */
  function ClosedComments(comments: Option<string>, reason: string): (c: string)
    ensures EndsWith(c, ClosedTag(reason)) && Contains(c, ClosedMarker)
  {
    AppendTagEndsWithTag(comments, reason);
    AppendTag(comments, ClosedTag(reason))
  }

  // ---------------------------------------------------------------- counts

  /** `filter(date=d, status='open').count()`. */
  function OpenIds(records: map<nat, Record>, d: Date): set<nat> {
    set k | k in records && records[k].date == d && records[k].status == Open
  }

  /** `filter(date=d, status='close', comments__contains='[Closed:').count()`: the handled cases. */
  function HandledIds(records: map<nat, Record>, d: Date): set<nat> {
    set k | k in records && records[k].date == d && records[k].status == Close &&
            Contains(records[k].comments.GetOr(""), ClosedMarker)
  }

  datatype Counts = Counts(open: nat, handled: nat)

  function CountsOf(records: map<nat, Record>, d: Date): Counts {
    Counts(|OpenIds(records, d)|, |HandledIds(records, d)|)
  }

  /**
   * Closing an open case with a closing tag moves it from the date's open count to its
   * handled count; no other date's counts move.
   */
  lemma ClosingMovesCase(records: map<nat, Record>, id: nat, u: Record, d: Date)
    requires id in records && records[id].status == Open
    requires u.date == records[id].date && u.status == Close
    requires Contains(u.comments.GetOr(""), ClosedMarker)
    ensures d == u.date ==>
      |OpenIds(records[id := u], d)| == |OpenIds(records, d)| - 1 &&
      |HandledIds(records[id := u], d)| == |HandledIds(records, d)| + 1
    ensures d != u.date ==> CountsOf(records[id := u], d) == CountsOf(records, d)
  {
    var m := records[id := u];
    if d == u.date {
      assert OpenIds(m, d) == OpenIds(records, d) - {id};
      assert HandledIds(m, d) == HandledIds(records, d) + {id};
    } else {
      assert OpenIds(m, d) == OpenIds(records, d);
      assert HandledIds(m, d) == HandledIds(records, d);
    }
  }

  /** Reopening a case adds it to the date's open count. */
  lemma ReopeningAddsOpen(records: map<nat, Record>, id: nat, u: Record)
    requires id in records && records[id].status == Close
    requires u.date == records[id].date && u.status == Open
    ensures |OpenIds(records[id := u], u.date)| == |OpenIds(records, u.date)| + 1
  {
    assert OpenIds(records[id := u], u.date) == OpenIds(records, u.date) + {id};
  }

  // ---------------------------------------------------------------- close_cases

  function CaseClosedDetails(reason: string): string { "Case closed with reason: " + reason }

  /** A case closed with a reason: status close, `[Closed: reason]` at the end of its comments. */
  function CloseRecord(r: Record, reason: string): (u: Record)
    ensures Key(u) == Key(r) && u.status == Close
    ensures u.comments.Some? && EndsWith(u.comments.value, ClosedTag(reason))
    ensures Contains(u.comments.value, ClosedMarker)
    ensures u.(status := r.status, comments := r.comments) == r
  {
    r.(status := Close, comments := Some(ClosedComments(r.comments, reason)))
  }

  /** The table, the new audit entries and the count after closing a list of ids. */
  datatype Closing = Closing(records: map<nat, Record>, history: seq<HistoryEntry>, count: nat)

  /** One id of the request: an open case is logged and closed; a closed or missing one is skipped. */
  function CloseStep(c: Closing, id: nat, reason: string): Closing {
    if id in c.records && c.records[id].status == Open then
      Closing(c.records[id := CloseRecord(c.records[id], reason)],
              c.history + [ClosedEntry(c.records[id], CaseClosedDetails(reason))],
              c.count + 1)
    else c
  }

  /** The ids of the request, one after the other. */
  function CloseAll(records: map<nat, Record>, ids: seq<nat>, reason: string): Closing {
    if ids == [] then Closing(records, [], 0)
    else CloseStep(CloseAll(records, ids[..|ids| - 1], reason), ids[|ids| - 1], reason)
  }

  lemma CloseAllSnoc(records: map<nat, Record>, ids: seq<nat>, i: nat, reason: string)
    requires i < |ids|
    ensures CloseAll(records, ids[..i + 1], reason) == CloseStep(CloseAll(records, ids[..i], reason), ids[i], reason)
  {
    assert ids[..i + 1][..i] == ids[..i];
  }

  /** The open cases among the selected ids. */
  function OpenSelected(records: map<nat, Record>, ids: seq<nat>): set<nat> {
    set k | k in records && k in ids && records[k].status == Open
  }

  /**
   * After closing, a record is closed with the reason exactly when it was selected and
   * open; every other record is as it was, and no record appears or disappears.
   */
  lemma {:induction false} CloseAllAt(records: map<nat, Record>, ids: seq<nat>, reason: string, k: nat)
    ensures k in CloseAll(records, ids, reason).records <==> k in records
    ensures k in records ==> (CloseAll(records, ids, reason).records[k] ==
      if k in ids && records[k].status == Open then CloseRecord(records[k], reason) else records[k])
  {
    if ids != [] {
      var p := ids[..|ids| - 1];
      CloseAllAt(records, p, reason, k);
      CloseAllAt(records, p, reason, ids[|ids| - 1]);
      assert forall x :: x in ids <==> x in p || x == ids[|ids| - 1] by {
        assert ids == p + [ids[|ids| - 1]];
      }
    }
  }

  /** Closing keeps the table consistent. */
  lemma CloseAllConsistent(records: map<nat, Record>, ids: seq<nat>, reason: string)
    requires Consistent(records)
    ensures CloseAll(records, ids, reason).records.Keys == records.Keys
    ensures Consistent(CloseAll(records, ids, reason).records)
  {
    var m := CloseAll(records, ids, reason).records;
    forall k ensures k in m <==> k in records {
      CloseAllAt(records, ids, reason, k);
    }
    forall k | k in m ensures Key(m[k]) == Key(records[k]) {
      CloseAllAt(records, ids, reason, k);
    }
  }

  /**
   * The count returned is the number of selected cases that were open, each logged once:
   * an id given twice, a closed case and an unknown id count nothing.
   */
  lemma {:induction false} CloseAllCount(records: map<nat, Record>, ids: seq<nat>, reason: string)
    ensures CloseAll(records, ids, reason).count == |OpenSelected(records, ids)|
    ensures |CloseAll(records, ids, reason).history| == CloseAll(records, ids, reason).count
  {
    if ids != [] {
      var p := ids[..|ids| - 1];
      var x := ids[|ids| - 1];
      CloseAllCount(records, p, reason);
      CloseAllAt(records, p, reason, x);
      assert ids == p + [x];
      if x in records && records[x].status == Open && x !in p {
        assert OpenSelected(records, ids) == OpenSelected(records, p) + {x};
      } else {
        assert OpenSelected(records, ids) == OpenSelected(records, p);
      }
    }
  }

  /** Entries that each log the closing of a case with the reason. */
  predicate ClosingEntries(h: seq<HistoryEntry>, reason: string) {
    forall j :: 0 <= j < |h| ==> h[j].action == Closed && h[j].details == CaseClosedDetails(reason) &&
                                 h[j].previous == StatusText(Open) && h[j].newValue == StatusText(Close)
  }

  /** Every entry logged is a closing with the reason. */
  lemma {:induction false} CloseAllHistory(records: map<nat, Record>, ids: seq<nat>, reason: string)
    ensures ClosingEntries(CloseAll(records, ids, reason).history, reason)
  {
    if ids != [] {
      var prev := CloseAll(records, ids[..|ids| - 1], reason);
      CloseAllHistory(records, ids[..|ids| - 1], reason);
      var x := ids[|ids| - 1];
      if x in prev.records && prev.records[x].status == Open {
        var e := ClosedEntry(prev.records[x], CaseClosedDetails(reason));
        assert CloseAll(records, ids, reason).history == prev.history + [e];
        ClosingEntriesAppend(prev.history, e, reason);
      }
    }
  }

  lemma ClosingEntriesAppend(h: seq<HistoryEntry>, e: HistoryEntry, reason: string)
    requires ClosingEntries(h, reason) && ClosingEntries([e], reason)
    ensures ClosingEntries(h + [e], reason)
  {
  }

  /** When none of the selected cases is open, closing them changes nothing. */
  lemma {:induction false} CloseAllNoOpen(records: map<nat, Record>, ids: seq<nat>, reason: string)
    requires forall k :: k in records && k in ids ==> records[k].status != Open
    ensures CloseAll(records, ids, reason) == Closing(records, [], 0)
  {
    if ids != [] {
      var p := ids[..|ids| - 1];
      assert forall k :: k in p ==> k in ids;
      CloseAllNoOpen(records, p, reason);
    }
  }

  /** Closing the same cases again closes nothing, logs nothing and changes nothing. */
  lemma CloseAllIdempotent(records: map<nat, Record>, ids: seq<nat>, reason: string)
    ensures var c := CloseAll(records, ids, reason);
      CloseAll(c.records, ids, reason) == Closing(c.records, [], 0)
  {
    var m := CloseAll(records, ids, reason).records;
    forall k | k in m && k in ids ensures m[k].status != Open {
      CloseAllAt(records, ids, reason, k);
    }
    CloseAllNoOpen(m, ids, reason);
  }

  /**
   * `close_cases`: an empty selection is refused; otherwise each selected open case is
   * logged and closed, and the number closed is returned.
   */
  method CloseCases(store: ReportStore, caseIds: seq<nat>, reason: string) returns (r: Result<nat>)
    requires store.Valid()
    modifies store`records, store`history
    ensures store.Valid()
    ensures caseIds == [] ==>
      r == Err(NoCasesSelected) && store.records == old(store.records) && store.history == old(store.history)
    ensures caseIds != [] ==>
      var c := CloseAll(old(store.records), caseIds, reason);
      r == Ok(c.count) && store.records == c.records && store.history == old(store.history) + c.history
  {
    if caseIds == [] {
      return Err(NoCasesSelected);
    }
    ghost var start := store.records;
    var records, added, count := store.records, [], 0;
    var i := 0;
    while i < |caseIds|
      invariant 0 <= i <= |caseIds|
      invariant Closing(records, added, count) == CloseAll(start, caseIds[..i], reason)
      invariant store.history == old(store.history)
    {
      CloseAllSnoc(start, caseIds, i, reason);
      var id := caseIds[i];
      if id in records && records[id].status == Open {
        added := added + [ClosedEntry(records[id], CaseClosedDetails(reason))];
        records := records[id := CloseRecord(records[id], reason)];
        count := count + 1;
      }
      i := i + 1;
    }
    assert caseIds[..i] == caseIds;
    assert Closing(records, added, count) == CloseAll(start, caseIds, reason);
    CloseAllConsistent(start, caseIds, reason);
    store.history := store.history + added;
    store.records := records;
    r := Ok(count);
  }

  // ---------------------------------------------------------------- update_comments

  /** The only fields `update_comments` writes. */
  predicate EditableField(field: string) {
    field == "comments" || field == "spoc_comments"
  }

  function CommentField(r: Record, field: string): Option<string>
    requires EditableField(field)
  {
    if field == "comments" then r.comments else r.spocComments
  }

  /** `setattr(report, field, value)` on a whitelisted field. */
  function SetCommentField(r: Record, field: string, value: Option<string>): (u: Record)
    requires EditableField(field)
    ensures CommentField(u, field) == value
    ensures forall g :: EditableField(g) && g != field ==> CommentField(u, g) == CommentField(r, g)
    ensures u.(comments := r.comments, spocComments := r.spocComments) == r
  {
    if field == "comments" then r.(comments := value) else r.(spocComments := value)
  }

  /** Writing the same value again changes nothing; writing the two fields commutes. */
  lemma SetCommentFieldLaws(r: Record, f: string, g: string, v: Option<string>, w: Option<string>)
    requires EditableField(f) && EditableField(g)
    ensures SetCommentField(SetCommentField(r, f, v), f, v) == SetCommentField(r, f, v)
    ensures f != g ==> SetCommentField(SetCommentField(r, f, v), g, w) == SetCommentField(SetCommentField(r, g, w), f, v)
    ensures SetCommentField(r, f, CommentField(r, f)) == r
  {
  }

  /** `field.replace('_', ' ').title() + " updated"` for the two whitelisted fields. */
  function EditedDetails(field: string): string
    requires EditableField(field)
  {
    if field == "comments" then "Comments updated" else "Spoc Comments updated"
  }

  /** The audit entry of a comment edit: the field's old value and the new one. */
  function CommentEntry(r: Record, field: string, value: Option<string>): (h: HistoryEntry)
    requires EditableField(field)
    ensures h.action == Edited && h.fieldName == Some(field) && h.email == r.email && h.reportDate == r.date
    ensures h.previous == Text(CommentField(r, field)) && h.newValue == Text(value)
  {
    HistoryEntry(r.date, r.email, Edited, EditedDetails(field), Some(field), Text(CommentField(r, field)), Text(value))
  }

  /**
   * `update_comments`: a field off the whitelist is refused before anything is read, an
   * unknown id next; otherwise the edit is logged and the field written.
   */
  method UpdateComments(store: ReportStore, id: nat, field: string, value: Option<string>) returns (r: Result<()>)
    requires store.Valid()
    modifies store`records, store`history
    ensures store.Valid()
    ensures !EditableField(field) ==>
      r == Err(InvalidField) && store.records == old(store.records) && store.history == old(store.history)
    ensures EditableField(field) && id !in old(store.records) ==>
      r == Err(ReportNotFound) && store.records == old(store.records) && store.history == old(store.history)
    ensures EditableField(field) && id in old(store.records) ==>
      var rec := old(store.records)[id];
      r == Ok(()) && store.records == old(store.records)[id := SetCommentField(rec, field, value)] &&
      store.history == old(store.history) + [CommentEntry(rec, field, value)]
  {
    if !EditableField(field) {
      return Err(InvalidField);
    }
    if id !in store.records {
      return Err(ReportNotFound);
    }
    var rec := store.records[id];
    store.history := store.history + [CommentEntry(rec, field, value)];
    ReplaceKeepsConsistent(store.records, id, SetCommentField(rec, field, value));
    store.records := store.records[id := SetCommentField(rec, field, value)];
    r := Ok(());
  }

  // ---------------------------------------------------------------- last week, as the overrides fetch it

  /**
   * The additional days of the same resource's record a week earlier, from week 2 on (a
   * week earlier is then in the same month); 0 in week 1 or when there is no such record.
   */
  ghost function LastWeekOf(records: map<nat, Record>, r: Record): real {
    if WeekNumber(r.date) > 1 then
      match IdOf(records, (r.email, Date(r.date.year, r.date.month, r.date.day - 7)))
      case Some(k) => records[k].addtnlDays
      case None => 0.0
    else 0.0
  }

  /** Editing one record never changes what its own last week reads. */
  lemma LastWeekOfAfterEdit(records: map<nat, Record>, id: nat, u: Record)
    requires KeysUnique(records) && id in records && Key(u) == Key(records[id])
    ensures LastWeekOf(records[id := u], u) == LastWeekOf(records, records[id])
  {
    var r := records[id];
    if WeekNumber(r.date) > 1 {
      var key := (r.email, Date(r.date.year, r.date.month, r.date.day - 7));
      var m := records[id := u];
      assert Key(r) != key;
      match IdOf(records, key)
      case Some(k) =>
        assert k != id;
        IdOfUnique(m, key, k);
      case None =>
        assert forall k :: k in m ==> Key(m[k]) != key;
    }
  }

  /** `first()` on the previous week's key: the record's id, found by its key. */
  method LastWeekFor(store: ReportStore, r: Record) returns (lastWeek: real)
    requires store.Valid()
    ensures lastWeek == LastWeekOf(store.records, r)
  {
    lastWeek := 0.0;
    if WeekNumber(r.date) > 1 {
      var found := store.FindByKey((r.email, Date(r.date.year, r.date.month, r.date.day - 7)));
      if found.Some? {
        lastWeek := store.records[found.value].addtnlDays;
      }
    }
  }

  // ---------------------------------------------------------------- update_billable_hours

  /** The comments after a status change: tagged with the reason exactly when an open case closes. */
  function TagIfClosing(r: Record, newStatus: Status, reason: string): (c: Option<string>)
    ensures r.status == Open && newStatus == Close ==> c.Some? && Contains(c.value, ClosedMarker)
    ensures !(r.status == Open && newStatus == Close) ==> c == r.comments
  {
    if r.status == Open && newStatus == Close then Some(ClosedComments(r.comments, reason)) else r.comments
  }

  /**
   * A record after its billable hours are re-entered: the hours and the five-column grand
   * total, and the days owed and status the override table gives for the hours, vacation
   * and last week's days against the date's required days.
   */
  function BillableUpdate(r: Record, hours: real, lastWeek: real): (u: Record)
    ensures Key(u) == Key(r) && u.billableHours == hours
    ensures u.status == Close <==> u.addtnlDays == 0.0
    ensures u.addtnlDays >= 0.0
    ensures u.status == OverrideRule(r.billing, hours + r.vacation + lastWeek, RequiredDays(r.date)).status
    ensures u.grandTotal - hours == r.administrative + r.training + r.unassigned + r.vacation
    ensures u.comments != r.comments ==> r.status == Open && u.status == Close
    ensures r.status == Open && u.status == Close ==> Contains(u.comments.GetOr(""), ClosedMarker)
    ensures u.(billableHours := r.billableHours, grandTotal := r.grandTotal, addtnlDays := r.addtnlDays,
               status := r.status, comments := r.comments) == r
  {
    var o := OverrideRule(r.billing, hours + r.vacation + lastWeek, RequiredDays(r.date));
    r.(billableHours := hours,
       grandTotal := r.administrative + hours + r.training + r.unassigned + r.vacation,
       addtnlDays := o.addtnlDays,
       status := o.status,
       comments := TagIfClosing(r, o.status, AutoClosedReason))
  }

  /** Re-entering the same hours again changes nothing more. */
  lemma BillableUpdateIdempotent(r: Record, hours: real, lastWeek: real)
    ensures BillableUpdate(BillableUpdate(r, hours, lastWeek), hours, lastWeek) == BillableUpdate(r, hours, lastWeek)
  {
  }

  /** The audit entries of a billable-hours edit: the edit, then the closing when it closes the case. */
  function BillableHistory(r: Record, hours: real, u: Record): (h: seq<HistoryEntry>)
    ensures 1 <= |h| <= 2 && h[0].action == Edited && h[0].previous == Number(r.billableHours) && h[0].newValue == Number(hours)
    ensures |h| == 2 <==> r.status == Open && u.status == Close
  {
    [HistoryEntry(r.date, r.email, Edited, "Billable hours updated", Some("billable_hours"), Number(r.billableHours), Number(hours))] +
    (if r.status == Open && u.status == Close then [ClosedEntry(r, AutoClosedReason)] else [])
  }

  datatype BillableResponse = BillableResponse(grandTotal: real, addtnlDays: real, status: Status, counts: Option<Counts>)

  /**
   * `update_billable_hours`: an unknown id is refused; otherwise the edit is logged, the
   * record re-derived from the new hours, and the date's counts returned when the status moved.
   */
  method UpdateBillableHours(store: ReportStore, id: nat, hours: real) returns (r: Result<BillableResponse>)
    requires store.Valid()
    modifies store`records, store`history
    ensures store.Valid()
    ensures id !in old(store.records) ==>
      r == Err(ReportNotFound) && store.records == old(store.records) && store.history == old(store.history)
    ensures id in old(store.records) ==>
      var rec := old(store.records)[id];
      var u := BillableUpdate(rec, hours, LastWeekOf(old(store.records), rec));
      store.records == old(store.records)[id := u] &&
      store.history == old(store.history) + BillableHistory(rec, hours, u) &&
      r == Ok(BillableResponse(u.grandTotal, u.addtnlDays, u.status,
                               if u.status != rec.status then Some(CountsOf(store.records, rec.date)) else None))
  {
    if id !in store.records {
      return Err(ReportNotFound);
    }
    var rec := store.records[id];
    var lastWeek := LastWeekFor(store, rec);
    var u := BillableUpdate(rec, hours, lastWeek);
    store.history := store.history + BillableHistory(rec, hours, u);
    ReplaceKeepsConsistent(store.records, id, u);
    store.records := store.records[id := u];
    var counts := if u.status != rec.status then Some(CountsOf(store.records, rec.date)) else None;
    r := Ok(BillableResponse(u.grandTotal, u.addtnlDays, u.status, counts));
  }

  /** Re-entering the same billable hours a second time leaves the record as the first time did. */
  lemma BillableHoursTwice(records: map<nat, Record>, id: nat, hours: real)
    requires KeysUnique(records) && id in records
    ensures var rec := records[id];
      var u := BillableUpdate(rec, hours, LastWeekOf(records, rec));
      BillableUpdate(u, hours, LastWeekOf(records[id := u], u)) == u
  {
    var rec := records[id];
    var u := BillableUpdate(rec, hours, LastWeekOf(records, rec));
    LastWeekOfAfterEdit(records, id, u);
    BillableUpdateIdempotent(rec, hours, LastWeekOf(records, rec));
  }

  // ---------------------------------------------------------------- update_additional_days

  /** A record after its additional days are set by hand: closed exactly when they are 0. */
  function DaysUpdate(r: Record, days: real): (u: Record)
    ensures Key(u) == Key(r) && u.addtnlDays == days
    ensures u.status == Close <==> days == 0.0
    ensures u.comments != r.comments ==> r.status == Open && u.status == Close
    ensures r.status == Open && u.status == Close ==> Contains(u.comments.GetOr(""), ClosedMarker)
    ensures u.(addtnlDays := r.addtnlDays, status := r.status, comments := r.comments) == r
  {
    var status := if days == 0.0 then Close else Open;
    r.(addtnlDays := days, status := status, comments := TagIfClosing(r, status, ManualClosedReason))
  }

  /** Setting the same days again changes nothing more. */
  lemma DaysUpdateIdempotent(r: Record, days: real)
    ensures DaysUpdate(DaysUpdate(r, days), days) == DaysUpdate(r, days)
  {
  }

  /** The audit entries of an additional-days edit: the edit, then the closing when it closes the case. */
  function DaysHistory(r: Record, days: real, u: Record): (h: seq<HistoryEntry>)
    ensures 1 <= |h| <= 2 && h[0].action == Edited && h[0].previous == Number(r.addtnlDays) && h[0].newValue == Number(days)
    ensures |h| == 2 <==> r.status == Open && u.status == Close
  {
    [HistoryEntry(r.date, r.email, Edited, "Additional days updated", Some("addtnl_days"), Number(r.addtnlDays), Number(days))] +
    (if r.status == Open && u.status == Close then [ClosedEntry(r, ManualClosedReason)] else [])
  }

  /** The capacity the date's first record carries (0 when the date has no record). */
  ghost function CapacityOf(records: map<nat, Record>, d: Date): real {
    var ids := DateIds(records, d);
    if ids == {} then 0.0 else records[FirstId(ids)].totalCapacity
  }

  /**
   * The capable utilization of a date: the first record's DAMS utilization turned into
   * hours of its capacity, plus eight hours per additional day of every record of the date,
   * as a percentage of that capacity; 0 without capacity.
   */
  ghost function CapableFor(records: map<nat, Record>, d: Date): (c: real)
    ensures CapacityOf(records, d) <= 0.0 ==> c == 0.0
  {
    var ids := DateIds(records, d);
    if ids == {} then 0.0
    else
      var s := records[FirstId(ids)];
      var used := if s.totalCapacity != 0.0 then s.damsUtilization / 100.0 * s.totalCapacity else 0.0;
      CapableUtilization(used, SumDays(records, ids), s.totalCapacity)
  }

  /** `filter(date=d).update(capable_utilization=c)`. */
  function SetCapable(records: map<nat, Record>, d: Date, c: real): (m: map<nat, Record>)
    ensures m.Keys == records.Keys
  {
    map k | k in records :: if records[k].date == d then records[k].(capableUtilization := c) else records[k]
  }

  /** Every record of the date carries the figure; nothing else changes anywhere. */
  lemma SetCapableAt(records: map<nat, Record>, d: Date, c: real, k: nat)
    requires k in records
    ensures var m := SetCapable(records, d, c);
      m[k].(capableUtilization := records[k].capableUtilization) == records[k] &&
      (records[k].date == d ==> m[k].capableUtilization == c) &&
      (records[k].date != d ==> m[k] == records[k])
  {
  }

  lemma SetCapableConsistent(records: map<nat, Record>, d: Date, c: real)
    requires Consistent(records)
    ensures Consistent(SetCapable(records, d, c))
  {
    var m := SetCapable(records, d, c);
    assert forall k :: k in m ==> Key(m[k]) == Key(records[k]);
  }

  /** Sums over the same ids agree when the records agree on their additional days. */
  lemma {:induction false} SumDaysAgree(r1: map<nat, Record>, r2: map<nat, Record>, ids: set<nat>)
    requires ids <= r1.Keys && ids <= r2.Keys
    requires forall k :: k in ids ==> r1[k].addtnlDays == r2[k].addtnlDays
    ensures SumDays(r1, ids) == SumDays(r2, ids)
    decreases ids
  {
    if ids != {} {
      var k :| k in ids;
      SumDaysRemove(r1, ids, k);
      SumDaysRemove(r2, ids, k);
      SumDaysAgree(r1, r2, ids - {k});
    }
  }

  /** Writing the figure does not change the figure: recomputing it gives the same value. */
  lemma CapableForAfterSet(records: map<nat, Record>, d: Date, c: real)
    ensures CapableFor(SetCapable(records, d, c), d) == CapableFor(records, d)
    ensures CapacityOf(SetCapable(records, d, c), d) == CapacityOf(records, d)
  {
    var m := SetCapable(records, d, c);
    var ids := DateIds(records, d);
    assert DateIds(m, d) == ids;
    SumDaysAgree(m, records, ids);
  }

  /**
   * The date's capable utilization recomputed after an edit and, when the date has
   * capacity, written to every record of the date.
   */
  method RecomputeCapable(store: ReportStore, d: Date) returns (capable: real)
    requires store.Valid()
    modifies store`records
    ensures store.Valid()
    ensures capable == CapableFor(old(store.records), d)
    ensures store.records == if CapacityOf(old(store.records), d) > 0.0
                             then SetCapable(old(store.records), d, capable) else old(store.records)
  {
    var first := store.FirstOfDate(d);
    var total := store.SumOfDate(d);
    if first.None? {
      return 0.0;
    }
    var s := store.records[first.value];
    var used := if s.totalCapacity != 0.0 then s.damsUtilization / 100.0 * s.totalCapacity else 0.0;
    capable := CapableUtilization(used, total, s.totalCapacity);
    if s.totalCapacity > 0.0 {
      SetCapableConsistent(store.records, d, capable);
      store.records := SetCapable(store.records, d, capable);
    }
  }

  datatype DaysResponse = DaysResponse(addtnlDays: real, status: Status, capable: real, counts: Option<Counts>)

  /**
   * `update_additional_days`: an unknown id is refused; otherwise the edit is logged, the
   * status re-derived from the days, the date's capable utilization recomputed, and the
   * date's counts returned when the status moved.
   */
  method UpdateAdditionalDays(store: ReportStore, id: nat, days: real) returns (r: Result<DaysResponse>)
    requires store.Valid()
    modifies store`records, store`history
    ensures store.Valid()
    ensures id !in old(store.records) ==>
      r == Err(ReportNotFound) && store.records == old(store.records) && store.history == old(store.history)
    ensures id in old(store.records) ==>
      var rec := old(store.records)[id];
      var u := DaysUpdate(rec, days);
      var edited := old(store.records)[id := u];
      var capable := CapableFor(edited, rec.date);
      store.history == old(store.history) + DaysHistory(rec, days, u) &&
      store.records == (if CapacityOf(edited, rec.date) > 0.0 then SetCapable(edited, rec.date, capable) else edited) &&
      r == Ok(DaysResponse(days, u.status, capable,
                           if u.status != rec.status then Some(CountsOf(store.records, rec.date)) else None))
  {
    if id !in store.records {
      return Err(ReportNotFound);
    }
    var rec := store.records[id];
    var u := DaysUpdate(rec, days);
    store.history := store.history + DaysHistory(rec, days, u);
    ReplaceKeepsConsistent(store.records, id, u);
    store.records := store.records[id := u];
    var capable := RecomputeCapable(store, rec.date);
    var counts := if u.status != rec.status then Some(CountsOf(store.records, rec.date)) else None;
    r := Ok(DaysResponse(days, u.status, capable, counts));
  }

  /** Setting the capable figure never moves a date's counts. */
  lemma SetCapableKeepsCounts(records: map<nat, Record>, d: Date, c: real, e: Date)
    ensures CountsOf(SetCapable(records, d, c), e) == CountsOf(records, e)
  {
    var m := SetCapable(records, d, c);
    assert OpenIds(m, e) == OpenIds(records, e);
    assert HandledIds(m, e) == HandledIds(records, e);
  }
}
