/**
 * The per-row business rules of the utilization report: the billing-type clean-up, the
 * exclusion list, last week's carried-forward days, the shortfall ("Additional Days"),
 * the open/close status, and the rule table the manual override applies.
 */
module Rules {
  import opened Wrappers
  import opened Text

  /** A case's status: the stored strings are `'open'` and `'close'`. */
  datatype Status = Open | Close

  const Billing: string := "Billing"
  const Partial: string := "Partial"
  const Tbd: string := "TBD"

  /** Billing types that never need more hours. */
  predicate NeverShort(b: string) { b == "On Bench" || b == "Non Billable" || b == "Released" }

  // ---------------------------------------------------------------- billing type

  /** `Billing.str.strip().replace({'None': 'TBD', '': 'TBD'})`. */
  function SanitizeBilling(b: string): (r: string)
    ensures r != "" && r != "None"
    ensures !IsSpace(r[0]) && !IsSpace(r[|r| - 1])
  {
    var s := Strip(b);
    if s == "" || s == "None" then Tbd else s
  }

  /** Cleaning a cleaned billing type changes nothing. */
  lemma SanitizeBillingIdempotent(b: string)
    ensures SanitizeBilling(SanitizeBilling(b)) == SanitizeBilling(b)
  {
    var r := SanitizeBilling(b);
    StripOfStripped(r);
  }

  /** A blank or "None" billing type becomes TBD; any other keeps its text without outer whitespace. */
  lemma SanitizeBillingCases(b: string)
    ensures AllSpace(b) ==> SanitizeBilling(b) == Tbd
    ensures !AllSpace(b) && Strip(b) != "None" ==> SanitizeBilling(b) == Strip(b)
  {
    StripEmptyIffBlank(b);
  }

  // ---------------------------------------------------------------- exclusions

  /** `set(email.strip() for email in records if email)`. */
  function ExclusionSet(entries: seq<string>): (r: set<string>)
    ensures forall e :: e in entries && e != "" ==> Strip(e) in r
    ensures forall x :: x in r ==> exists e :: e in entries && e != "" && Strip(e) == x
  {
    set e | e in entries && e != "" :: Strip(e)
  }

  // ---------------------------------------------------------------- last week

  /** One of last week's records: the email and its `addtnl_days`. */
  datatype PrevEntry = PrevEntry(email: string, addtnlDays: real)

  /**
   * `{e['resource_email_address'].lower(): float(e['addtnl_days']) for e in prev_data
   * if e['resource_email_address']}`: later entries overwrite earlier ones.
   */
  function LastWeekMap(prev: seq<PrevEntry>): (m: map<string, real>)
    ensures forall i :: 0 <= i < |prev| && prev[i].email != "" ==> Lower(prev[i].email) in m
    ensures forall k :: k in m ==> exists i :: 0 <= i < |prev| && prev[i].email != "" && Lower(prev[i].email) == k
  {
    if prev == [] then map[]
    else
      var m := LastWeekMap(prev[..|prev| - 1]);
      var e := prev[|prev| - 1];
      if e.email != "" then m[Lower(e.email) := e.addtnlDays] else m
  }

  /** The `Last Week` column: nothing is carried into week 1, and a resource without a record gets 0. */
  function LastWeek(weekNumber: int, prev: seq<PrevEntry>, email: string): real {
    var m := if weekNumber > 1 then LastWeekMap(prev) else map[];
    if Lower(email) in m then m[Lower(email)] else 0.0
  }

  /** Week 1 carries nothing forward. */
  lemma LastWeekFirstWeek(prev: seq<PrevEntry>, email: string)
    ensures LastWeek(1, prev, email) == 0.0
  {
  }

  /** The lookup ignores letter case. */
  lemma LastWeekIgnoresCase(w: int, prev: seq<PrevEntry>, a: string, b: string)
    requires Lower(a) == Lower(b)
    ensures LastWeek(w, prev, a) == LastWeek(w, prev, b)
  {
  }

  /** From week 2 on, a resource gets the `addtnl_days` of the last of last week's records with its email, in any case. */
  lemma {:induction false} LastWeekIsLastMatch(prev: seq<PrevEntry>, email: string, i: nat)
    requires i < |prev| && prev[i].email != "" && Lower(prev[i].email) == Lower(email)
    requires forall j :: i < j < |prev| && prev[j].email != "" ==> Lower(prev[j].email) != Lower(email)
    ensures LastWeekMap(prev)[Lower(email)] == prev[i].addtnlDays
    ensures forall w :: w > 1 ==> LastWeek(w, prev, email) == prev[i].addtnlDays
    decreases |prev|
  {
    if i < |prev| - 1 {
      var init := prev[..|prev| - 1];
      LastWeekIsLastMatch(init, email, i);
    }
  }

  /** A resource none of last week's records names gets 0. */
  lemma LastWeekAbsent(w: int, prev: seq<PrevEntry>, email: string)
    requires forall j :: 0 <= j < |prev| && prev[j].email != "" ==> Lower(prev[j].email) != Lower(email)
    ensures LastWeek(w, prev, email) == 0.0
  {
  }

  // ---------------------------------------------------------------- additional days

  /** `(target - logged).clip(lower=0).astype('int64')`: the shortfall, cut at 0 and truncated. */
  function Shortfall(target: real, logged: real): (r: int)
    ensures r >= 0
  {
    if target - logged > 0.0 then (target - logged).Floor else 0
  }

  /**
   * `_compute_additional_days`: a non-excluded `Billing` row owes the whole-day shortfall
   * against the required days, a non-excluded `Partial` row against half of them, and
   * every other row nothing.
   */
  function AdditionalDays(billing: string, excluded: bool, totalLogged: real, totalDays: int): (r: int)
    ensures r >= 0
    ensures r > 0 ==> !excluded && (billing == Billing || billing == Partial)
  {
    if excluded then 0
    else if billing == Billing then Shortfall(totalDays as real, totalLogged)
    else if billing == Partial then Shortfall(totalDays as real / 2.0, totalLogged)
    else 0
  }

  /** The shortfall is the largest whole number of days not above the missing days, and 0 once nothing is missing. */
  lemma ShortfallBounds(target: real, logged: real)
    ensures var r := Shortfall(target, logged);
      (logged >= target ==> r == 0) &&
      (logged < target ==> r as real <= target - logged < r as real + 1.0)
    ensures Shortfall(target, logged) == 0 <==> logged > target - 1.0
  {
  }

  /** Logging more never raises the additional days. */
  lemma AdditionalDaysNonIncreasing(billing: string, excluded: bool, lo: real, hi: real, totalDays: int)
    requires lo <= hi
    ensures AdditionalDays(billing, excluded, hi, totalDays) <= AdditionalDays(billing, excluded, lo, totalDays)
  {
    var t := if billing == Billing then totalDays as real else totalDays as real / 2.0;
    if t - hi > 0.0 {
      assert (t - hi).Floor <= (t - lo).Floor;
    }
  }

  /** With nothing negative logged, a row never owes more than the days its type requires. */
  lemma AdditionalDaysAtMostRequired(billing: string, excluded: bool, totalLogged: real, totalDays: int)
    requires totalLogged >= 0.0 && totalDays >= 0
    ensures AdditionalDays(billing, excluded, totalLogged, totalDays) <= totalDays
    ensures billing == Partial ==> 2 * AdditionalDays(billing, excluded, totalLogged, totalDays) <= totalDays
  {
  }

  // ---------------------------------------------------------------- status

  /**
   * The status rule of `determine_status` on a billing type without outer whitespace:
   * `Billing`, `Next` and `TBD` close once the required days are logged, `Partial` once
   * half are, `On Bench`, `Non Billable` and `Released` always, and any other type stays
   * open.
   */
  function StatusRule(b: string, logged: real, totalDays: int): (s: Status)
    ensures NeverShort(b) ==> s == Close
    ensures (b == Billing || b == "Next" || b == Tbd) ==> (s == Close <==> logged >= totalDays as real)
    ensures b == Partial ==> (s == Close <==> 2.0 * logged >= totalDays as real)
  {
    if b == Billing then (if logged >= totalDays as real then Close else Open)
    else if b == Partial then (if logged >= totalDays as real / 2.0 then Close else Open)
    else if b == "Next" || b == Tbd then (if logged >= totalDays as real then Close else Open)
    else if NeverShort(b) then Close
    else Open
  }

  /** `determine_status`: the status rule on the stripped billing type, from billable hours and vacation only. */
  function DetermineStatus(billing: string, billable: real, vacation: real, totalDays: int): (s: Status)
    ensures NeverShort(Strip(billing)) ==> s == Close
  {
    StatusRule(Strip(billing), billable + vacation, totalDays)
  }

  /** A billing type without outer whitespace goes to the rule as it is. */
  lemma DetermineStatusOfStripped(billing: string, billable: real, vacation: real, totalDays: int)
    requires billing != [] ==> !IsSpace(billing[0]) && !IsSpace(billing[|billing| - 1])
    ensures DetermineStatus(billing, billable, vacation, totalDays) == StatusRule(billing, billable + vacation, totalDays)
  {
    StripOfStripped(billing);
  }

  /** Logging more never reopens a case. */
  lemma DetermineStatusMonotone(billing: string, b1: real, v1: real, b2: real, v2: real, totalDays: int)
    requires b1 + v1 <= b2 + v2
    requires DetermineStatus(billing, b1, v1, totalDays) == Close
    ensures DetermineStatus(billing, b2, v2, totalDays) == Close
  {
  }

  /** An unknown billing type is open whatever was logged; a required-days type is open exactly while short. */
  lemma DetermineStatusThresholds(billing: string, billable: real, vacation: real, totalDays: int)
    ensures var b := Strip(billing);
      b != Billing && b != Partial && b != "Next" && b != Tbd && !NeverShort(b) ==>
        DetermineStatus(billing, billable, vacation, totalDays) == Open
    ensures var b := Strip(billing);
      (b == Billing || b == "Next" || b == Tbd) ==>
        (DetermineStatus(billing, billable, vacation, totalDays) == Open <==> billable + vacation < totalDays as real)
  {
  }

  /**
   * A `Billing` or `Partial` case the status rule closes owes no additional days as long
   * as last week's carried days are not negative.
   */
  lemma ClosedOwesNothing(billing: string, billable: real, vacation: real, lastWeek: real, totalDays: int, excluded: bool)
    requires billing == Billing || billing == Partial
    requires lastWeek >= 0.0
    requires DetermineStatus(billing, billable, vacation, totalDays) == Close
    ensures AdditionalDays(billing, excluded, billable + vacation + lastWeek, totalDays) == 0
  {
    StripOfStripped(billing);
    ClosedRuleOwesNothing(billing, billable + vacation, lastWeek, totalDays, excluded);
  }

  /** `ClosedOwesNothing` for a billing type that is already stripped. */
  lemma ClosedRuleOwesNothing(billing: string, logged: real, lastWeek: real, totalDays: int, excluded: bool)
    requires billing == Billing || billing == Partial
    requires lastWeek >= 0.0
    requires StatusRule(billing, logged, totalDays) == Close
    ensures AdditionalDays(billing, excluded, logged + lastWeek, totalDays) == 0
  {
  }

  /** The converse fails: a fractional shortfall is truncated away while the case stays open. */
  lemma OpenButOwesNothing(logged: real, totalDays: int)
    requires totalDays as real - 1.0 < logged < totalDays as real
    ensures DetermineStatus(Billing, logged, 0.0, totalDays) == Open
    ensures AdditionalDays(Billing, false, logged, totalDays) == 0
  {
    assert AdditionalDays(Billing, false, logged, totalDays) == 0;
    assert DetermineStatus(Billing, logged, 0.0, totalDays) == Open by {
      StripOfStripped(Billing);
      assert Strip(Billing) == Billing;
    }
  }

  // ---------------------------------------------------------------- manual override rules

  /** What the override sets: `addtnl_days` and `status`. */
  datatype Outcome = Outcome(addtnlDays: real, status: Status)

  /** Against a target: closed with nothing owed once reached, otherwise open owing the exact difference. */
  function AgainstTarget(target: real, logged: real): (o: Outcome)
    ensures o.status == Close <==> o.addtnlDays == 0.0
    ensures o.addtnlDays >= 0.0
  {
    if logged >= target then Outcome(0.0, Close) else Outcome(target - logged, Open)
  }

  /**
   * The rule table of `update_billable_hours`: `Billing` against the required days,
   * `Partial` against half of them, `On Bench`, `Non Billable`, `Next` and `Released`
   * closed with nothing owed, and any other type, `TBD` and a missing type included,
   * treated like `Billing`. No truncation.
   */
  function OverrideRule(billing: Option<string>, totalLogged: real, totalDays: int): (o: Outcome)
    ensures o.status == Close <==> o.addtnlDays == 0.0
    ensures o.addtnlDays >= 0.0
  {
    match billing
    case Some(b) =>
      if b == Billing then AgainstTarget(totalDays as real, totalLogged)
      else if b == Partial then AgainstTarget(totalDays as real / 2.0, totalLogged)
      else if NeverShort(b) || b == "Next" then Outcome(0.0, Close)
      else AgainstTarget(totalDays as real, totalLogged)
    case None => AgainstTarget(totalDays as real, totalLogged)
  }

  /** The override owes `max(0, target - logged)` exactly. */
  lemma OverrideOwesExactShortfall(billing: Option<string>, totalLogged: real, totalDays: int)
    ensures var o := OverrideRule(billing, totalLogged, totalDays);
      var target := if billing == Some(Partial) then totalDays as real / 2.0 else totalDays as real;
      (billing.None? || !(NeverShort(billing.value) || billing.value == "Next")) ==>
        o.addtnlDays == (if target - totalLogged > 0.0 then target - totalLogged else 0.0)
  {
  }

  /** For a non-excluded `Billing` or `Partial` row, the generator's value is the override's, truncated. */
  lemma GeneratorTruncatesOverride(billing: string, totalLogged: real, totalDays: int)
    requires billing == Billing || billing == Partial
    ensures AdditionalDays(billing, false, totalLogged, totalDays) == OverrideRule(Some(billing), totalLogged, totalDays).addtnlDays.Floor
  {
  }

  /** The two tables differ on `TBD` (owed only by the override) and `Next` (always closed by the override). */
  lemma OverrideDiffersFromGenerator()
    ensures AdditionalDays(Tbd, false, 0.0, 5) == 0 && OverrideRule(Some(Tbd), 0.0, 5) == Outcome(5.0, Open)
    ensures DetermineStatus("Next", 0.0, 0.0, 5) == Open && OverrideRule(Some("Next"), 0.0, 5).status == Close
  {
    assert AdditionalDays(Tbd, false, 0.0, 5) == 0;
    assert OverrideRule(Some(Tbd), 0.0, 5) == Outcome(5.0, Open);
    assert OverrideRule(Some("Next"), 0.0, 5).status == Close;
    assert DetermineStatus("Next", 0.0, 0.0, 5) == Open by {
      var next := "Next";
      StripOfStripped(next);
      assert Strip(next) == next;
    }
  }

  // ---------------------------------------------------------------- capable utilization

  /**
   * Capable utilization: the utilized hours plus eight hours per additional day, as a
   * percentage of capacity; 0 when there is no capacity.
   */
  function CapableUtilization(totalUtilization: real, totalAdditionalDays: real, totalCapacity: real): (r: real)
    ensures totalCapacity <= 0.0 ==> r == 0.0
    ensures totalCapacity > 0.0 ==> r * totalCapacity == (totalUtilization + totalAdditionalDays * 8.0) * 100.0
  {
    if totalCapacity > 0.0 then (totalUtilization + totalAdditionalDays * 8.0) / totalCapacity * 100.0 else 0.0
  }

  /** More additional days never lower capable utilization. */
  lemma CapableUtilizationMonotone(u: real, d1: real, d2: real, cap: real)
    requires d1 <= d2
    ensures CapableUtilization(u, d1, cap) <= CapableUtilization(u, d2, cap)
  {
    if cap > 0.0 {
      var a, b := u + d1 * 8.0, u + d2 * 8.0;
      assert a <= b;
      assert a / cap <= b / cap;
    }
  }

  // ---------------------------------------------------------------- closing comments

  /** The tag every closing adds to the comments. */
  const ClosedMarker: string := "[Closed:"

  /** `f"{c or ''}{' ' if c else ''}{tag}".strip()`. */
  function AppendTag(comments: Option<string>, tag: string): string {
    var c := comments.GetOr("");
    Strip((if c != "" then c + " " else "") + tag)
  }

  /** `[Closed: reason]`. */
  function ClosedTag(reason: string): string { ClosedMarker + " " + reason + "]" }

  /** The tag ends the new comments, so a closed case's comments always contain `[Closed:`. */
  lemma AppendTagEndsWithTag(comments: Option<string>, reason: string)
    ensures var r := AppendTag(comments, ClosedTag(reason));
      |r| >= |ClosedTag(reason)| && r[|r| - |ClosedTag(reason)|..] == ClosedTag(reason)
    ensures Contains(AppendTag(comments, ClosedTag(reason)), ClosedMarker)
  {
    var tag := ClosedTag(reason);
    ClosedTagShape(reason);
    var c := comments.GetOr("");
    var p := if c != "" then c + " " else "";
    assert AppendTag(comments, tag) == Strip(p + tag);
    StripKeepsTail(p, tag);
  }

  /** A closing tag starts with the marker and ends with `]`. */
  lemma ClosedTagShape(reason: string)
    ensures var tag := ClosedTag(reason);
      tag != [] && tag[0] == '[' && tag[|tag| - 1] == ']' && IsPrefix(ClosedMarker, tag)
  {
    var tag := ClosedTag(reason);
    assert tag[..|ClosedMarker|] == ClosedMarker;
  }

  /** `strip` keeps a tail that starts and ends with non-spaces, and with it every prefix of that tail. */
  lemma StripKeepsTail(p: string, t: string)
    requires t != [] && !IsSpace(t[0]) && !IsSpace(t[|t| - 1])
    ensures var r := Strip(p + t); |r| >= |t| && r[|r| - |t|..] == t
    ensures forall q :: IsPrefix(q, t) ==> Contains(Strip(p + t), q)
  {
    var r := Strip(p + t);
    assert |r| >= |t| && r[|r| - |t|..] == t by {
      StripLeftKeepsTail(p, t);
      var l := StripLeft(p + t);
      assert l[|l| - 1] == t[|t| - 1];
      assert StripRight(l) == l;
    }
    var k := |r| - |t|;
    assert r == r[..k] + t;
    forall q | IsPrefix(q, t) ensures Contains(r, q) {
      ContainsPrefixOfTail(r[..k], t, q);
    }
  }

  /** Stripping leading whitespace never reaches into a tail that starts with a non-space. */
  lemma {:induction false} StripLeftKeepsTail(p: string, t: string)
    requires t != [] && !IsSpace(t[0])
    ensures |StripLeft(p + t)| >= |t| && StripLeft(p + t)[|StripLeft(p + t)| - |t|..] == t
    decreases |p|
  {
    if p == [] {
      assert p + t == t;
    } else if IsSpace(p[0]) {
      assert (p + t)[1..] == p[1..] + t;
      StripLeftKeepsTail(p[1..], t);
    }
  }

  /** `s + t` contains every prefix of `t`. */
  lemma {:induction false} ContainsPrefixOfTail(s: string, t: string, q: string)
    requires IsPrefix(q, t)
    ensures Contains(s + t, q)
    decreases |s|
  {
    if s == [] {
      assert s + t == t;
    } else {
      assert (s + t)[1..] == s[1..] + t;
      ContainsPrefixOfTail(s[1..], t, q);
    }
  }
}
