/**
 * The stored weekly report record (`UtilizationReportModel`) with its field defaults and
 * (email, date) key, and the audit entry the manual overrides append
 * (`UtilizationHistoryModel`).
 */
module ReportModel {
  import opened Wrappers
  import opened Calendar
  import opened Rules

  /**
   * One resource's row for one report date. Float fields are `real`; nullable text
   * fields are `Option<string>`.
   */
  datatype Record = Record(
    email: string,
    administrative: real,
    billableHours: real,
    departmentMgmt: real,
    investment: real,
    presales: real,
    training: real,
    unassigned: real,
    vacation: real,
    grandTotal: real,
    lastWeek: real,
    status: Status,
    totalLogged: real,
    addtnlDays: real,
    wtdActuals: real,
    spoc: Option<string>,
    comments: Option<string>,
    spocComments: Option<string>,
    rdm: Option<string>,
    track: Option<string>,
    billing: Option<string>,
    date: Date,
    damsUtilization: real,
    capableUtilization: real,
    individualUtilization: real,
    totalCapacity: real)

  /** A record created with only its required fields given: every other field takes its default. */
  function NewRecord(email: string, date: Date): (r: Record)
    ensures r.email == email && r.date == date
  {
    Record(email, 0.0, 0.0, 0.0, 0.0, 0.0, 0.0, 0.0, 0.0, 0.0, 0.0, Open, 0.0, 0.0, 0.0,
           None, None, None, None, None, None, date, 0.0, 0.0, 0.0, 0.0)
  }

  /** The fields a report counts as hours or days, in declaration order. */
  function HourFields(r: Record): seq<real> {
    [r.administrative, r.billableHours, r.departmentMgmt, r.investment, r.presales, r.training,
     r.unassigned, r.vacation, r.grandTotal, r.lastWeek, r.totalLogged, r.addtnlDays, r.wtdActuals]
  }

  /** The utilization fields. */
  function UtilizationFields(r: Record): seq<real> {
    [r.damsUtilization, r.capableUtilization, r.individualUtilization, r.totalCapacity]
  }

  /** Defaults: every numeric field 0, status open, every nullable text field empty (null). */
  lemma NewRecordDefaults(email: string, date: Date)
    ensures var r := NewRecord(email, date);
      (forall i :: 0 <= i < |HourFields(r)| ==> HourFields(r)[i] == 0.0) &&
      (forall i :: 0 <= i < |UtilizationFields(r)| ==> UtilizationFields(r)[i] == 0.0) &&
      r.status == Open &&
      r.spoc.None? && r.comments.None? && r.spocComments.None? &&
      r.rdm.None? && r.track.None? && r.billing.None?
  {
  }

  /** The uniqueness key: `unique_together = ('resource_email_address', 'date')`. */
  function Key(r: Record): (string, Date) { (r.email, r.date) }

  /** No two stored records share a key. */
  predicate KeysUnique(records: map<nat, Record>) {
    forall a, b :: a in records && b in records && a != b ==> Key(records[a]) != Key(records[b])
  }

  // ---------------------------------------------------------------- audit trail

  datatype Action = Closed | Edited | Updated

  /** A value shown in the audit trail: text (possibly null) or a number rendered by `str`. */
  datatype Shown = Text(text: Option<string>) | Number(n: real) | StatusText(s: Status)

  /** One `UtilizationHistoryModel` row, as the overrides create it. */
  datatype HistoryEntry = HistoryEntry(
    reportDate: Date,
    email: string,
    action: Action,
    details: string,
    fieldName: Option<string>,
    previous: Shown,
    newValue: Shown)

  /** The entry a closing writes: the status field from open to close. */
  function ClosedEntry(r: Record, details: string): (h: HistoryEntry)
    ensures h.action == Closed && h.email == r.email && h.reportDate == r.date
    ensures h.previous == StatusText(Open) && h.newValue == StatusText(Close)
  {
    HistoryEntry(r.date, r.email, Closed, details, Some("status"), StatusText(Open), StatusText(Close))
  }
}
