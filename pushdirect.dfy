/**
 * The two direct importers of `push_direct_report.py`: `push_direct_data`, which stores a
 * list of hand-written records for the fixed report date, and
 * `calculate_and_push_from_dataframe`, which derives Total Logged and Additional Days on a
 * frame of rows and stores one record per row. Both first delete every record of the date;
 * a failure after that point (a duplicate key, a missing column) leaves the date empty.
 */
module PushDirect {
  import opened Wrappers
  import opened Text
  import opened Calendar
  import opened Rules
  import opened ReportModel
  import opened Store

  /** A Python value as the importers meet it in a dict or in a frame cell. */
  datatype Value = Null | NaN | Flag(b: bool) | Num(x: real) | Str(s: string)

  /** A Python float: a real number or NaN. */
  datatype Float = Finite(x: real) | NotANumber

  /** The report date both importers write (`TARGET_DATE`, 7 March 2025). */
  const TargetDate: Date := Date(2025, 3, 7)

  const DefaultRdm: string := "Adam"

  lemma TargetDateValid()
    ensures ValidDate(TargetDate)
  {
  }

  // ---------------------------------------------------------------- float()

  function Pow10(n: nat): (r: real)
    ensures r >= 1.0
  {
    if n == 0 then 1.0 else 10.0 * Pow10(n - 1)
  }

  /** Whether text starts with a minus sign. */
  predicate Negative(t: string) { |t| > 0 && t[0] == '-' }

  /** Text after an optional leading sign. */
  function Unsigned(t: string): (r: string)
    ensures |r| <= |t|
  {
    if |t| > 0 && (t[0] == '-' || t[0] == '+') then t[1..] else t
  }

  /** The value of the digits `ip` before a point and `fp` after it. */
  function PointValue(ip: string, fp: string): (r: real)
    requires AllDigits(ip) && AllDigits(fp)
    ensures r >= 0.0
  {
    DecimalValue(ip) as real + DecimalValue(fp) as real / Pow10(|fp|)
  }

  /** An unsigned decimal `ddd`, `ddd.ddd`, `.ddd` or `ddd.`: at least one digit and at most one point. */
  function DecimalBody(b: string): (r: Option<real>)
    ensures r.Some? ==> r.value >= 0.0
  {
    match LastIndexOf(b, '.')
    case Some(k) =>
      var ip, fp := b[..k], b[k + 1..];
      if AllDigits(ip) && AllDigits(fp) && |ip| + |fp| > 0 then Some(PointValue(ip, fp)) else None
    case None =>
      if b != [] && AllDigits(b) then Some(DecimalValue(b) as real) else None
  }

  /** `float(s)` on text: outer white space, an optional sign, then a decimal number or `nan` in any case. */
  function ParseFloat(s: string): (r: Option<Float>)
    ensures Strip(s) == [] ==> r.None?
  {
    ParseSigned(Strip(s))
  }

  /** `float` on text without outer white space. */
  function ParseSigned(t: string): (r: Option<Float>)
    ensures t == [] ==> r.None?
  {
    var body := Unsigned(t);
    if Lower(body) == "nan" then Some(NotANumber)
    else match DecimalBody(body)
      case Some(x) => Some(Finite(if Negative(t) then -x else x))
      case None => None
  }

  /**
   * `safe_float(value, default)`: `None` and the empty string give the default, so does
   * text `float` rejects; anything else is `float(value)`.
   */
  function SafeFloat(v: Value, default: real): (r: Float)
    ensures r.NotANumber? ==> v.NaN? || v.Str?
    ensures v.Num? ==> r == Finite(v.x)
  {
    match v
    case Null => Finite(default)
    case NaN => NotANumber
    case Flag(b) => Finite(if b then 1.0 else 0.0)
    case Num(x) => Finite(x)
    case Str(s) =>
      if s == "" then Finite(default)
      else match ParseFloat(s)
        case Some(f) => f
        case None => Finite(default)
  }

  /** The value a float is when handed back to Python. */
  function AsValue(f: Float): (v: Value)
    ensures v.Num? || v.NaN?
  {
    match f
    case Finite(x) => Num(x)
    case NotANumber => NaN
  }

  /** The decimal digits of a natural number, as `str` writes it. */
  function DecimalText(n: nat): (s: string)
    ensures s != [] && AllDigits(s)
  {
    if n < 10 then [DigitChar(n)] else DecimalText(n / 10) + [DigitChar(n % 10)]
  }

  lemma {:induction false} DecimalTextValue(n: nat)
    ensures DecimalValue(DecimalText(n)) == n
  {
    var s := DecimalText(n);
    if n < 10 {
      assert s[..0] == [];
      DigitRoundTrip(n);
    } else {
      assert s[..|s| - 1] == DecimalText(n / 10);
      DigitRoundTrip(n % 10);
      DecimalTextValue(n / 10);
    }
  }

  /** Text without outer white space is read as it stands. */
  lemma ParseFloatPlain(s: string)
    requires s != [] && !IsSpace(s[0]) && !IsSpace(s[|s| - 1])
    ensures ParseFloat(s) == ParseSigned(s)
  {
    StripOfStripped(s);
  }

  /** Digits have no point and do not spell `nan`. */
  lemma DigitsReadPlain(s: string)
    requires s != [] && AllDigits(s)
    ensures LastIndexOf(s, '.') == None && Lower(s) != "nan"
  {
    LastIndexOfLast(s, '.');
    assert Lower(s)[0] == s[0];
  }

  /** Digits read as their value, and after a minus sign as its negation. */
  lemma ParseSignedDigits(t: string)
    requires t != [] && AllDigits(t)
    ensures ParseSigned(t) == Some(Finite(DecimalValue(t) as real))
    ensures ParseSigned("-" + t) == Some(Finite(-(DecimalValue(t) as real)))
  {
    DigitsReadPlain(t);
    assert IsDigit(t[0]);
    assert Unsigned(t) == t && !Negative(t);
    assert DecimalBody(t) == Some(DecimalValue(t) as real);
    var m := "-" + t;
    assert m[1..] == t;
    assert Unsigned(m) == t && Negative(m);
  }

  /** Plain digits read as their value. */
  lemma ParseDigits(t: string)
    requires t != [] && AllDigits(t)
    ensures ParseFloat(t) == Some(Finite(DecimalValue(t) as real))
  {
    assert IsDigit(t[0]) && IsDigit(t[|t| - 1]);
    ParseFloatPlain(t);
    ParseSignedDigits(t);
  }

  /** Digits after a minus sign read as the negated value. */
  lemma ParseNegativeDigits(t: string)
    requires t != [] && AllDigits(t)
    ensures ParseFloat("-" + t) == Some(Finite(-(DecimalValue(t) as real)))
  {
    var m := "-" + t;
    assert IsDigit(t[|t| - 1]);
    assert m[0] == '-' && m[|m| - 1] == t[|t| - 1];
    ParseFloatPlain(m);
    ParseSignedDigits(t);
  }

  /** `safe_float` of text `float` reads is what `float` reads. */
  lemma SafeFloatOfParsed(s: string, f: Float, default: real)
    requires s != [] && ParseFloat(s) == Some(f)
    ensures SafeFloat(Str(s), default) == f
  {
  }

  /** What a whole number is written as is read back: `safe_float(str(n)) == n`. */
  lemma SafeFloatReadsWholeNumbers(n: nat, default: real)
    ensures SafeFloat(Str(DecimalText(n)), default) == Finite(n as real)
  {
    var t := DecimalText(n);
    ParseDigits(t);
    SafeFloatOfParsed(t, Finite(DecimalValue(t) as real), default);
    DecimalTextValue(n);
  }

  /** A negated whole number is read back too: `safe_float('-' + str(n)) == -n`. */
  lemma SafeFloatReadsNegatives(n: nat, default: real)
    ensures SafeFloat(Str("-" + DecimalText(n)), default) == Finite(-(n as real))
  {
    var t := DecimalText(n);
    ParseNegativeDigits(t);
    assert ("-" + t)[0] == '-';
    SafeFloatOfParsed("-" + t, Finite(-(DecimalValue(t) as real)), default);
    DecimalTextValue(n);
  }

  /** A body `ip.fp` of digits reads as the whole part plus the fraction. */
  lemma DecimalBodyPoint(ip: string, fp: string)
    requires AllDigits(ip) && AllDigits(fp) && fp != []
    ensures DecimalBody(ip + "." + fp) == Some(PointValue(ip, fp))
  {
    var b := ip + "." + fp;
    LastIndexOfLast(b, '.');
    assert b[|ip|] == '.';
    var k := LastIndexOf(b, '.');
    assert k.Some?;
    assert forall j :: |ip| < j < |b| ==> b[j] == fp[j - |ip| - 1];
    assert k.value == |ip|;
    assert b[..|ip|] == ip && b[|ip| + 1..] == fp;
    assert AllDigits(b[..k.value]) && AllDigits(b[k.value + 1..]);
  }

  /** Digits, a point and digits read as their decimal value. */
  lemma ParsePointed(t: string, f: string)
    requires t != [] && AllDigits(t) && f != [] && AllDigits(f)
    ensures ParseFloat(t + "." + f) == Some(Finite(PointValue(t, f)))
  {
    var s := t + "." + f;
    assert IsDigit(t[0]) && IsDigit(f[|f| - 1]);
    assert s[0] == t[0] && s[|s| - 1] == f[|f| - 1];
    ParseFloatPlain(s);
    DecimalBodyPoint(t, f);
    assert s[0] != '-' && s[0] != '+';
    assert Unsigned(s) == s && !Negative(s);
    assert Lower(s)[0] == s[0];
    assert Lower(s) != "nan";
  }

  /** `safe_float` on a cents amount: `str(n) + '.' + two digits` reads as `n + k/100`. */
  lemma SafeFloatReadsCents(n: nat, k: nat, default: real)
    requires k < 100
    ensures SafeFloat(Str(DecimalText(n) + "." + Pad2(k)), default) == Finite(n as real + k as real / 100.0)
  {
    var t := DecimalText(n);
    var s := t + "." + Pad2(k);
    ParsePointed(t, Pad2(k));
    CentsValue(t, k);
    DecimalTextValue(n);
    assert s[0] == t[0];
    SafeFloatOfParsed(s, Finite(n as real + k as real / 100.0), default);
  }

  lemma CentsValue(t: string, k: nat)
    requires AllDigits(t) && k < 100
    ensures PointValue(t, Pad2(k)) == DecimalValue(t) as real + k as real / 100.0
  {
    Pad2Value(k);
    assert Pow10(2) == 100.0;
  }

  /** The fallbacks: no value, the empty string and text that is not a number give the default. */
  lemma SafeFloatFallsBack(v: Value, default: real)
    requires v.Null? || (v.Str? && ParseFloat(v.s).None?)
    ensures SafeFloat(v, default) == Finite(default)
  {
  }

  /** Text with no digit in it is no number, unless it spells `nan`. */
  lemma NoDigitsNoNumber(t: string)
    requires forall i :: 0 <= i < |t| ==> !IsDigit(t[i])
    requires Lower(Unsigned(t)) != "nan"
    ensures ParseSigned(t) == None
  {
    var b := Unsigned(t);
    assert forall i :: 0 <= i < |b| ==> !IsDigit(b[i]) by {
      if b != t {
        assert forall i :: 0 <= i < |b| ==> b[i] == t[i + 1];
      }
    }
    match LastIndexOf(b, '.')
    case Some(k) =>
      assert b[..k] == [] || !IsDigit(b[..k][0]);
      assert b[k + 1..] == [] || !IsDigit(b[k + 1..][0]);
    case None =>
      assert b == [] || !IsDigit(b[0]);
  }

  /** A word with no digit, no outer white space and not spelling `nan` is no number; neither is blank text. */
  lemma WordsDoNotParse(w: string, blank: string)
    requires w != [] && !IsSpace(w[0]) && !IsSpace(w[|w| - 1])
    requires forall i :: 0 <= i < |w| ==> !IsDigit(w[i])
    requires Lower(Unsigned(w)) != "nan"
    requires AllSpace(blank)
    ensures ParseFloat(w) == None && ParseFloat(blank) == None
  {
    StripOfStripped(w);
    NoDigitsNoNumber(w);
    StripEmptyIffBlank(blank);
  }

  /** `safe_float` of a word that is no number, such as "n/a", or of blank text, is the default, whatever the default is. */
  lemma SafeFloatRejectsWords(default: real)
    ensures SafeFloat(Str("n/a"), default) == Finite(default)
    ensures SafeFloat(Str(" "), default) == Finite(default)
  {
    var w, blank := "n/a", " ";
    assert Unsigned(w) == w;
    assert Lower(w)[1] == '/';
    WordsDoNotParse(w, blank);
  }

  /** `safe_float` of its own result changes nothing, whatever the second default is. */
  lemma SafeFloatIdempotent(v: Value, d1: real, d2: real)
    ensures SafeFloat(AsValue(SafeFloat(v, d1)), d2) == SafeFloat(v, d1)
  {
  }

  // ---------------------------------------------------------------- field readers

  /** `d.get(key, default)`. */
  function Get(d: map<string, Value>, key: string, default: Value): Value {
    if key in d then d[key] else default
  }

  /** A float field of a stored record: NaN is stored as 0. */
  function OrZero(f: Float): (r: real)
    ensures f.Finite? ==> r == f.x
    ensures f.NotANumber? ==> r == 0.0
  {
    match f
    case Finite(x) => x
    case NotANumber => 0.0
  }

  /** `value or fallback` on text: non-empty text, or else the fallback. */
  function TextOr(v: Value, fallback: string): (r: string)
    ensures r == fallback || (v.Str? && r == v.s && r != "")
    ensures v.Str? && v.s != "" ==> r == v.s
  {
    if v.Str? && v.s != "" then v.s else fallback
  }

  /** The lower-cased email a record is stored under, or `None` for a missing or empty one, which is skipped. */
  function EmailOf(v: Value): (r: Option<string>)
    ensures r.Some? <==> v.Str? && v.s != ""
    ensures r.Some? ==> r.value != "" && Lower(r.value) == r.value
  {
    LowerIdempotentAll();
    if v.Str? && v.s != "" then Some(Lower(v.s)) else None
  }

  lemma LowerIdempotentAll()
    ensures forall s :: Lower(Lower(s)) == Lower(s)
  {
    forall s { LowerIdempotent(s); }
  }

  /** The status a given value sets: the two choices of the field; any other value reads as open. */
  function StatusOf(v: Value): (s: Status)
    ensures s == Close <==> v == Str("close")
  {
    if v == Str("close") then Close else Open
  }

  /** A nullable text field: text is stored as is, anything else as null. */
  function NullableText(v: Value): (r: Option<string>)
    ensures r.Some? <==> v.Str?
  {
    if v.Str? then Some(v.s) else None
  }

  /** A status given as `None`: the status column is NOT NULL, so the database refuses such a record. */
  predicate NullStatus(d: map<string, Value>) {
    "status" in d && d["status"] == Null
  }

  /** An input that yields a record and gives its status as `None`. */
  predicate RefusedStatus(d: map<string, Value>) {
    DirectEmail(d).Some? && NullStatus(d)
  }

  /** Some input that yields a record gives its status as `None`. */
  predicate SomeNullStatus(data: seq<map<string, Value>>) {
    exists i :: 0 <= i < |data| && RefusedStatus(data[i])
  }

  /** One more input settles whether a prefix holds a `None` status. */
  lemma SomeNullStatusStep(data: seq<map<string, Value>>, i: nat)
    requires i < |data|
    ensures SomeNullStatus(data[..i + 1]) <==> SomeNullStatus(data[..i]) || RefusedStatus(data[i])
  {
    var p, q := data[..i + 1], data[..i];
    if SomeNullStatus(p) && !RefusedStatus(data[i]) {
      var k :| 0 <= k < |p| && RefusedStatus(p[k]);
      assert k < i && q[k] == p[k];
    }
    if SomeNullStatus(q) {
      var k :| 0 <= k < |q| && RefusedStatus(q[k]);
      assert p[k] == q[k];
    }
    if RefusedStatus(data[i]) {
      assert p[i] == data[i];
    }
  }

  /** No two of the records share an email. */
  predicate DistinctEmails(rs: seq<Record>) {
    forall i, j :: 0 <= i < j < |rs| ==> rs[i].email != rs[j].email
  }

  /**
   * Once the date is cleared, records of that date can all be stored exactly when no two
   * of them share an email.
   */
  lemma InsertableAfterDelete(records: map<nat, Record>, rs: seq<Record>, d: Date)
    requires forall i :: 0 <= i < |rs| ==> rs[i].date == d
    ensures Insertable(WithoutDate(records, d), rs) <==> DistinctEmails(rs)
  {
    if DistinctEmails(rs) {
      forall i, j | 0 <= i < j < |rs| ensures Key(rs[i]) != Key(rs[j]) {
        assert rs[i].email != rs[j].email;
      }
    }
    if Insertable(WithoutDate(records, d), rs) {
      forall i, j | 0 <= i < j < |rs| ensures rs[i].email != rs[j].email {
        assert Key(rs[i]) != Key(rs[j]);
      }
    }
  }

  // ---------------------------------------------------------------- collecting

  /** The outputs of `f` on `xs`, one after the other: a loop that appends what each input gives. */
  function FlatMap<A, B>(f: A -> seq<B>, xs: seq<A>): seq<B> {
    if xs == [] then [] else FlatMap(f, xs[..|xs| - 1]) + f(xs[|xs| - 1])
  }

  /** One more input appends what it gives. */
  lemma FlatMapStep<A, B>(f: A -> seq<B>, xs: seq<A>, i: nat)
    requires i < |xs|
    ensures FlatMap(f, xs[..i + 1]) == FlatMap(f, xs[..i]) + f(xs[i])
  {
    assert xs[..i + 1][..i] == xs[..i];
  }

  /** Every output comes from some input. */
  lemma {:induction false} FlatMapFrom<A, B>(f: A -> seq<B>, xs: seq<A>, k: nat)
    requires k < |FlatMap(f, xs)|
    ensures exists i :: 0 <= i < |xs| && FlatMap(f, xs)[k] in f(xs[i])
  {
    var n := |xs| - 1;
    var front := FlatMap(f, xs[..n]);
    if k < |front| {
      FlatMapFrom(f, xs[..n], k);
      var i :| 0 <= i < n && front[k] in f(xs[..n][i]);
      assert xs[..n][i] == xs[i];
    } else {
      assert FlatMap(f, xs)[k] == f(xs[n])[k - |front|];
    }
  }

  /** Every output of every input is collected. */
  lemma {:induction false} FlatMapHas<A, B>(f: A -> seq<B>, xs: seq<A>, i: nat, y: B)
    requires i < |xs| && y in f(xs[i])
    ensures y in FlatMap(f, xs)
  {
    var n := |xs| - 1;
    if i < n {
      assert xs[..n][i] == xs[i];
      FlatMapHas(f, xs[..n], i, y);
    }
  }

  // ---------------------------------------------------------------- push_direct_data

  /** The email a hand-written record is stored under, or `None` when it is skipped. */
  function DirectEmail(d: map<string, Value>): Option<string> {
    EmailOf(Get(d, "resource_email_address", Str("")))
  }

  /**
   * The stored form of one hand-written record: its floats through `safe_float`, rdm,
   * billing and spoc falling back to `Adam`, `TBD` and (the given rdm or) `Adam`, track to
   * the empty string, status `open` unless given.
   */
  function DirectRecord(d: map<string, Value>, email: string): (r: Record)
    ensures r.email == email && r.date == TargetDate
    ensures r.rdm.Some? && r.track.Some? && r.billing.Some? && r.spoc.Some?
  {
    var rdm := Get(d, "rdm", Str(DefaultRdm));
    NewRecord(email, TargetDate).(
      administrative := OrZero(SafeFloat(Get(d, "administrative", Num(0.0)), 0.0)),
      billableHours := OrZero(SafeFloat(Get(d, "billable_hours", Num(0.0)), 0.0)),
      departmentMgmt := OrZero(SafeFloat(Get(d, "department_mgmt", Num(0.0)), 0.0)),
      investment := OrZero(SafeFloat(Get(d, "investment", Num(0.0)), 0.0)),
      presales := OrZero(SafeFloat(Get(d, "presales", Num(0.0)), 0.0)),
      training := OrZero(SafeFloat(Get(d, "training", Num(0.0)), 0.0)),
      unassigned := OrZero(SafeFloat(Get(d, "unassigned", Num(0.0)), 0.0)),
      vacation := OrZero(SafeFloat(Get(d, "vacation", Num(0.0)), 0.0)),
      grandTotal := OrZero(SafeFloat(Get(d, "grand_total", Num(0.0)), 0.0)),
      lastWeek := OrZero(SafeFloat(Get(d, "last_week", Num(0.0)), 0.0)),
      totalLogged := OrZero(SafeFloat(Get(d, "total_logged", Num(0.0)), 0.0)),
      status := StatusOf(Get(d, "status", Str("open"))),
      addtnlDays := OrZero(SafeFloat(Get(d, "addtnl_days", Num(0.0)), 0.0)),
      wtdActuals := OrZero(SafeFloat(Get(d, "wtd_actuals", Num(0.0)), 0.0)),
      rdm := Some(TextOr(rdm, DefaultRdm)),
      track := Some(TextOr(Get(d, "track", Str("")), "")),
      billing := Some(TextOr(Get(d, "billing", Str(Tbd)), Tbd)),
      spoc := Some(TextOr(Get(d, "spoc", rdm), DefaultRdm)),
      comments := NullableText(Get(d, "comments", Str(""))),
      spocComments := NullableText(Get(d, "spoc_comments", Str(""))))
  }

  /** What one hand-written record contributes: its stored form, or nothing when it is skipped. */
  function DirectOne(d: map<string, Value>): (rs: seq<Record>)
    ensures |rs| <= 1 && (rs != [] <==> DirectEmail(d).Some?)
    ensures rs != [] ==> rs[0] == DirectRecord(d, DirectEmail(d).value)
  {
    match DirectEmail(d)
    case Some(e) => [DirectRecord(d, e)]
    case None => []
  }

  /** The records `push_direct_data` collects, in input order. */
  function DirectRecords(data: seq<map<string, Value>>): seq<Record> {
    FlatMap(DirectOne, data)
  }

  /** Every collected record is the stored form of an input with a non-empty email. */
  lemma DirectRecordsFrom(data: seq<map<string, Value>>, k: nat)
    requires k < |DirectRecords(data)|
    ensures exists i :: 0 <= i < |data| && DirectEmail(data[i]).Some? &&
                        DirectRecords(data)[k] == DirectRecord(data[i], DirectEmail(data[i]).value)
  {
    FlatMapFrom(DirectOne, data, k);
  }

  /** A record is stored for every input with a non-empty email. */
  lemma DirectRecordsKeep(data: seq<map<string, Value>>, i: nat)
    requires i < |data| && DirectEmail(data[i]).Some?
    ensures DirectRecord(data[i], DirectEmail(data[i]).value) in DirectRecords(data)
  {
    FlatMapHas(DirectOne, data, i, DirectRecord(data[i], DirectEmail(data[i]).value));
  }

  /** Every stored record is dated the target date, under a non-empty lower-case email. */
  lemma DirectRecordsDated(data: seq<map<string, Value>>)
    ensures forall k :: 0 <= k < |DirectRecords(data)| ==>
      DirectRecords(data)[k].date == TargetDate && DirectRecords(data)[k].email != "" &&
      Lower(DirectRecords(data)[k].email) == DirectRecords(data)[k].email
  {
    forall k | 0 <= k < |DirectRecords(data)|
      ensures DirectRecords(data)[k].date == TargetDate && DirectRecords(data)[k].email != "" &&
              Lower(DirectRecords(data)[k].email) == DirectRecords(data)[k].email
    {
      DirectRecordsFrom(data, k);
    }
  }

  /** A record that gives nothing but its email gets every default text. */
  lemma DirectRecordDefaults(email: string)
    ensures var r := DirectRecord(map["resource_email_address" := Str(email)], Lower(email));
      r.rdm == Some(DefaultRdm) && r.track == Some("") && r.billing == Some(Tbd) &&
      r.spoc == Some(DefaultRdm) && r.status == Open &&
      r.comments == Some("") && r.spocComments == Some("")
  {
  }

  /** A number the record does not give is 0. */
  lemma AbsentNumber(d: map<string, Value>, key: string)
    requires key !in d
    ensures OrZero(SafeFloat(Get(d, key, Num(0.0)), 0.0)) == 0.0
  {
  }

  /** That record is collected under its lower-cased email. */
  lemma DirectRecordDefaultsStored(email: string)
    requires email != ""
    ensures var d := map["resource_email_address" := Str(email)];
      DirectRecords([d]) == [DirectRecord(d, Lower(email))]
  {
    var d := map["resource_email_address" := Str(email)];
    FlatMapStep(DirectOne, [d], 0);
    assert [d][..1] == [d];
    assert DirectEmail(d) == Some(Lower(email));
  }

  /**
   * The spoc falls back to the given rdm only when no spoc is given at all; a spoc given
   * as empty falls back to `Adam`, whatever the rdm.
   */
  lemma DirectSpoc(d: map<string, Value>, email: string)
    ensures "spoc" !in d ==> DirectRecord(d, email).spoc == DirectRecord(d, email).rdm
    ensures "spoc" in d && d["spoc"] == Str("") ==> DirectRecord(d, email).spoc == Some(DefaultRdm)
  {
  }

  /**
   * The loop of `push_direct_data` that builds the records to save, noting whether one of
   * them was given a `None` status, which the insert will refuse.
   */
  method CollectDirect(data: seq<map<string, Value>>) returns (records: seq<Record>, nullStatus: bool)
    ensures records == DirectRecords(data)
    ensures nullStatus <==> SomeNullStatus(data)
  {
    records := [];
    nullStatus := false;
    var i := 0;
    while i < |data|
      invariant 0 <= i <= |data|
      invariant records == DirectRecords(data[..i])
      invariant nullStatus <==> SomeNullStatus(data[..i])
    {
      SomeNullStatusStep(data, i);
      var email := DirectEmail(data[i]);
      if email.Some? {
        records := records + [DirectRecord(data[i], email.value)];
        nullStatus := nullStatus || NullStatus(data[i]);
      }
      FlatMapStep(DirectOne, data, i);
      i := i + 1;
    }
    assert data[..i] == data;
  }

  /**
   * `push_direct_data`: with no input nothing is deleted and the answer is no; otherwise the
   * date's records are deleted, the collected records are stored, and the answer is yes
   * unless two of them share an email or one has a `None` status (the database refuses the
   * batch, and the date stays empty).
   */
  method PushDirectData(store: ReportStore, data: seq<map<string, Value>>) returns (ok: bool)
    requires store.Valid()
    modifies store`records, store`nextId
    ensures store.Valid()
    ensures ok <==> data != [] && DistinctEmails(DirectRecords(data)) && !SomeNullStatus(data)
    ensures data == [] ==> store.records == old(store.records) && store.nextId == old(store.nextId)
    ensures data != [] ==>
      store.records == WithoutDate(old(store.records), TargetDate) +
                       (if ok then NewEntries(DirectRecords(data), old(store.nextId)) else map[])
  {
    if data == [] {
      return false;
    }
    var _ := store.DeleteDate(TargetDate);
    var records, nullStatus := CollectDirect(data);
    if nullStatus {
      // The NOT NULL status column refuses the batch.
      return false;
    }
    DirectRecordsDated(data);
    TargetDateValid();
    if records == [] {
      assert NewEntries(records, store.nextId) == map[];
      return true;
    }
    InsertableAfterDelete(old(store.records), records, TargetDate);
    var r := store.BulkCreate(records);
    ok := r.Ok?;
  }

  // ---------------------------------------------------------------- calculate_and_push_from_dataframe

  const EmailColumn: string := "Resource Email Address"
  const BillingColumn: string := "Billing"
  const BillableColumn: string := "Billable Hours"
  const WtdColumn: string := "WTD Actuals"
  const VacationColumn: string := "Vacation"
  const TotalColumn: string := "Total Logged"
  const DaysColumn: string := "Additional Days"
  const LastWeekColumn: string := "Last Week"

  /** A frame: its column labels and its rows; a row without a cell for a column holds NaN there. */
  datatype Frame = Frame(columns: set<string>, rows: seq<map<string, Value>>)

  /** `row.get(key, default)` on a frame row. */
  function Cell(columns: set<string>, row: map<string, Value>, key: string, default: Value): Value {
    if key !in columns then default else if key in row then row[key] else NaN
  }

  /** A cell in column arithmetic: missing values are NaN, and text makes pandas raise. */
  function AsNumber(v: Value): (r: Option<Float>)
    ensures r.None? <==> v.Str?
  {
    match v
    case Null => Some(NotANumber)
    case NaN => Some(NotANumber)
    case Flag(b) => Some(Finite(if b then 1.0 else 0.0))
    case Num(x) => Some(Finite(x))
    case Str(_) => None
  }

  /** `fillna('TBD').astype(str)` on a Billing cell. */
  function BillingText(v: Value): string {
    match v
    case Str(s) => s
    case Flag(b) => if b then "True" else "False"
    case _ => Tbd
  }

  /** The cell Billable Hours is computed from: the column itself, or else WTD Actuals. */
  function BillableSource(columns: set<string>, row: map<string, Value>): Value {
    if BillableColumn in columns then Cell(columns, row, BillableColumn, Num(0.0))
    else Cell(columns, row, WtdColumn, Num(0.0))
  }

  /** Whether a row's arithmetic goes through: no text where a number is computed with. */
  predicate NumericRow(columns: set<string>, row: map<string, Value>) {
    AsNumber(BillableSource(columns, row)).Some? &&
    AsNumber(Cell(columns, row, VacationColumn, Num(0.0))).Some?
  }

  /** The billable hours of a row: the column's own cell, or eight times WTD Actuals. */
  function Billable(columns: set<string>, row: map<string, Value>): (f: Float)
    requires NumericRow(columns, row)
  {
    var src := AsNumber(BillableSource(columns, row)).value;
    if BillableColumn in columns then src
    else match src
      case Finite(x) => Finite(8.0 * x)
      case NotANumber => NotANumber
  }

  /** `Billable Hours.fillna(0) + Vacation.fillna(0)`. */
  function TotalLogged(columns: set<string>, row: map<string, Value>): real
    requires NumericRow(columns, row)
  {
    OrZero(Billable(columns, row)) + OrZero(AsNumber(Cell(columns, row, VacationColumn, Num(0.0))).value)
  }

  /** One row once the columns Billing, Last Week, Billable Hours, Vacation, Total Logged and Additional Days are set. */
  function PrepareRow(columns: set<string>, row: map<string, Value>, totalDays: int): map<string, Value>
    requires NumericRow(columns, row)
  {
    var billing := BillingText(Cell(columns, row, BillingColumn, Str(Tbd)));
    var tl := TotalLogged(columns, row);
    row[BillingColumn := Str(billing)]
       [LastWeekColumn := Num(0.0)]
       [BillableColumn := if BillableColumn in columns then Cell(columns, row, BillableColumn, Num(0.0))
                          else AsValue(Billable(columns, row))]
       [VacationColumn := Cell(columns, row, VacationColumn, Num(0.0))]
       [TotalColumn := Num(tl)]
       [DaysColumn := Num(AdditionalDays(billing, false, tl, totalDays) as real)]
  }

  const Derived: set<string> := {BillingColumn, LastWeekColumn, BillableColumn, VacationColumn, TotalColumn, DaysColumn}

  /**
   * The column work before the rows are read: a missing email column is an error, a
   * missing Billable Hours column is derived from WTD Actuals (an error when that is
   * missing too), text in the summed columns is an error, and otherwise each row gets its
   * derived cells.
   */
  function Prepare(f: Frame, totalDays: int): (r: Result<Frame>)
    ensures r.Err? <==>
      EmailColumn !in f.columns ||
      (BillableColumn !in f.columns && WtdColumn !in f.columns) ||
      exists i :: 0 <= i < |f.rows| && !NumericRow(f.columns, f.rows[i])
    ensures r.Ok? ==> r.value.columns == f.columns + Derived && |r.value.rows| == |f.rows|
  {
    if EmailColumn !in f.columns then Err("missing column " + EmailColumn)
    else if BillableColumn !in f.columns && WtdColumn !in f.columns then Err("KeyError: " + WtdColumn)
    else if exists i :: 0 <= i < |f.rows| && !NumericRow(f.columns, f.rows[i]) then Err("TypeError")
    else Ok(Frame(f.columns + Derived, seq(|f.rows|, i requires 0 <= i < |f.rows| => PrepareRow(f.columns, f.rows[i], totalDays))))
  }

  /**
   * The stored form of one prepared row: its floats through `safe_float`, last week 0,
   * status open, rdm falling back to `Adam`, spoc equal to rdm, and empty comments.
   */
  function FrameRecord(columns: set<string>, row: map<string, Value>, email: string): (r: Record)
    ensures r.email == email && r.date == TargetDate
  {
    var rdm := TextOr(Cell(columns, row, "RDM", Cell(columns, row, "rdm", Str(DefaultRdm))), DefaultRdm);
    NewRecord(email, TargetDate).(
      administrative := OrZero(SafeFloat(Cell(columns, row, "Administrative", Num(0.0)), 0.0)),
      billableHours := OrZero(SafeFloat(Cell(columns, row, BillableColumn, Num(0.0)), 0.0)),
      departmentMgmt := OrZero(SafeFloat(Cell(columns, row, "Department Mgmt", Num(0.0)), 0.0)),
      investment := OrZero(SafeFloat(Cell(columns, row, "Investment", Num(0.0)), 0.0)),
      presales := OrZero(SafeFloat(Cell(columns, row, "Presales", Num(0.0)), 0.0)),
      training := OrZero(SafeFloat(Cell(columns, row, "Training", Num(0.0)), 0.0)),
      unassigned := OrZero(SafeFloat(Cell(columns, row, "Unassigned", Num(0.0)), 0.0)),
      vacation := OrZero(SafeFloat(Cell(columns, row, VacationColumn, Num(0.0)), 0.0)),
      grandTotal := OrZero(SafeFloat(Cell(columns, row, "Grand Total", Num(0.0)), 0.0)),
      lastWeek := 0.0,
      totalLogged := OrZero(SafeFloat(Cell(columns, row, TotalColumn, Num(0.0)), 0.0)),
      status := Open,
      addtnlDays := OrZero(SafeFloat(Cell(columns, row, DaysColumn, Num(0.0)), 0.0)),
      wtdActuals := OrZero(SafeFloat(Cell(columns, row, WtdColumn, Num(0.0)), 0.0)),
      rdm := Some(rdm),
      track := Some(TextOr(Cell(columns, row, "Track", Cell(columns, row, "track", Str(""))), "")),
      billing := Some(TextOr(Cell(columns, row, BillingColumn, Cell(columns, row, "billing", Str(Tbd))), Tbd)),
      spoc := Some(rdm),
      comments := Some(""),
      spocComments := Some(""))
  }

  /** The email a frame row is stored under, or `None` when the row is skipped. */
  function RowEmail(columns: set<string>, row: map<string, Value>): Option<string> {
    EmailOf(Cell(columns, row, EmailColumn, Str("")))
  }

  /** What one row contributes: its stored form, or nothing when it is skipped. */
  function RowOne(columns: set<string>, row: map<string, Value>): (rs: seq<Record>)
    ensures |rs| <= 1 && (rs != [] <==> RowEmail(columns, row).Some?)
    ensures rs != [] ==> rs[0] == FrameRecord(columns, row, RowEmail(columns, row).value)
  {
    match RowEmail(columns, row)
    case Some(e) => [FrameRecord(columns, row, e)]
    case None => []
  }

  function RowOneOf(columns: set<string>): map<string, Value> -> seq<Record> {
    row => RowOne(columns, row)
  }

  /** The records collected from the rows of a frame, in row order. */
  function FrameRecords(columns: set<string>, rows: seq<map<string, Value>>): seq<Record> {
    FlatMap(RowOneOf(columns), rows)
  }

  /** The records the importer would store for a frame, or the error that stops it first. */
  function Pushed(f: Frame, totalDays: int): (r: Result<seq<Record>>)
    ensures r.Err? <==> Prepare(f, totalDays).Err?
  {
    match Prepare(f, totalDays)
    case Ok(p) => Ok(FrameRecords(p.columns, p.rows))
    case Err(m) => Err(m)
  }

  /** Every record is the stored form of some row with a non-empty email, dated the target date. */
  lemma FrameRecordsFrom(columns: set<string>, rows: seq<map<string, Value>>, k: nat)
    requires k < |FrameRecords(columns, rows)|
    ensures exists i :: 0 <= i < |rows| && RowEmail(columns, rows[i]).Some? &&
                        FrameRecords(columns, rows)[k] == FrameRecord(columns, rows[i], RowEmail(columns, rows[i]).value)
    ensures FrameRecords(columns, rows)[k].date == TargetDate
  {
    FlatMapFrom(RowOneOf(columns), rows, k);
    var i :| 0 <= i < |rows| && FrameRecords(columns, rows)[k] in RowOneOf(columns)(rows[i]);
    assert RowOneOf(columns)(rows[i]) == RowOne(columns, rows[i]);
  }

  /** `safe_float` of a cell that arithmetic accepts is that cell with NaN as 0. */
  lemma SafeFloatOfNumber(v: Value)
    requires AsNumber(v).Some?
    ensures OrZero(SafeFloat(v, 0.0)) == OrZero(AsNumber(v).value)
  {
  }

  /** Row `i` of a prepared frame is row `i` of the frame with its derived cells. */
  lemma PreparedRow(f: Frame, totalDays: int, i: nat)
    requires Prepare(f, totalDays).Ok? && i < |f.rows|
    ensures NumericRow(f.columns, f.rows[i])
    ensures Prepare(f, totalDays).value.rows[i] == PrepareRow(f.columns, f.rows[i], totalDays)
  {
  }

  /** The cells a prepared row holds in the columns the records read. */
  lemma PreparedCells(columns: set<string>, row: map<string, Value>, totalDays: int)
    requires NumericRow(columns, row)
    ensures var c2, p := columns + Derived, PrepareRow(columns, row, totalDays);
      var billing := BillingText(Cell(columns, row, BillingColumn, Str(Tbd)));
      Cell(c2, p, BillingColumn, Str(Tbd)) == Str(billing) &&
      Cell(c2, p, TotalColumn, Num(0.0)) == Num(TotalLogged(columns, row)) &&
      Cell(c2, p, DaysColumn, Num(0.0)) == Num(AdditionalDays(billing, false, TotalLogged(columns, row), totalDays) as real) &&
      Cell(c2, p, VacationColumn, Num(0.0)) == Cell(columns, row, VacationColumn, Num(0.0)) &&
      Cell(c2, p, BillableColumn, Num(0.0)) ==
        (if BillableColumn in columns then BillableSource(columns, row) else AsValue(Billable(columns, row))) &&
      Cell(c2, p, WtdColumn, Num(0.0)) == Cell(columns, row, WtdColumn, Num(0.0))
  {
  }

  /** The stored record of one prepared row, in terms of the row before preparation. */
  lemma PreparedRecord(columns: set<string>, row: map<string, Value>, totalDays: int, email: string)
    requires NumericRow(columns, row)
    ensures var r := FrameRecord(columns + Derived, PrepareRow(columns, row, totalDays), email);
      r.status == Open && r.lastWeek == 0.0 && r.spoc == r.rdm &&
      r.comments == Some("") && r.spocComments == Some("") &&
      r.totalLogged == r.billableHours + r.vacation &&
      r.billing.Some? &&
      r.addtnlDays == AdditionalDays(r.billing.value, false, r.totalLogged, totalDays) as real &&
      (BillableColumn !in columns ==> r.billableHours == 8.0 * r.wtdActuals) &&
      (VacationColumn !in columns ==> r.vacation == 0.0) &&
      (BillingColumn !in columns ==> r.billing == Some(Tbd))
  {
    PreparedCells(columns, row, totalDays);
    SafeFloatOfNumber(Cell(columns, row, VacationColumn, Num(0.0)));
    SafeFloatOfNumber(BillableSource(columns, row));
  }

  /**
   * What every record of a frame holds: status open, last week 0, spoc equal to rdm,
   * Total Logged the sum of billable hours and vacation, Additional Days the current
   * shortfall rule on the stored billing type; Billable Hours eight times WTD Actuals when
   * the frame has no Billable Hours column, vacation 0 when it has no Vacation column, and
   * billing `TBD` when it has no Billing column.
   */
  lemma PushedRecords(f: Frame, totalDays: int, k: nat)
    requires Pushed(f, totalDays).Ok? && k < |Pushed(f, totalDays).value|
    ensures var r := Pushed(f, totalDays).value[k];
      r.date == TargetDate && r.email != "" && Lower(r.email) == r.email &&
      r.status == Open && r.lastWeek == 0.0 && r.spoc == r.rdm &&
      r.totalLogged == r.billableHours + r.vacation &&
      r.billing.Some? &&
      r.addtnlDays == AdditionalDays(r.billing.value, false, r.totalLogged, totalDays) as real &&
      (BillableColumn !in f.columns ==> r.billableHours == 8.0 * r.wtdActuals) &&
      (VacationColumn !in f.columns ==> r.vacation == 0.0) &&
      (BillingColumn !in f.columns ==> r.billing == Some(Tbd))
  {
    var p := Prepare(f, totalDays).value;
    FrameRecordsFrom(p.columns, p.rows, k);
    var i :| 0 <= i < |p.rows| && RowEmail(p.columns, p.rows[i]).Some? &&
      Pushed(f, totalDays).value[k] == FrameRecord(p.columns, p.rows[i], RowEmail(p.columns, p.rows[i]).value);
    var e := RowEmail(p.columns, p.rows[i]).value;
    PreparedRow(f, totalDays, i);
    PreparedRecord(f.columns, f.rows[i], totalDays, e);
  }

  /** Additional Days are never negative and only Billing and Partial rows owe any. */
  lemma PushedDaysOwed(f: Frame, totalDays: int, k: nat)
    requires Pushed(f, totalDays).Ok? && k < |Pushed(f, totalDays).value|
    ensures var r := Pushed(f, totalDays).value[k];
      r.addtnlDays >= 0.0 &&
      (r.addtnlDays > 0.0 ==> r.billing == Some(Billing) || r.billing == Some(Partial))
  {
    PushedRecords(f, totalDays, k);
  }

  /** The row loop of `calculate_and_push_from_dataframe` that builds the records to save. */
  method CollectFrame(p: Frame) returns (records: seq<Record>)
    ensures records == FrameRecords(p.columns, p.rows)
    ensures forall k :: 0 <= k < |records| ==> records[k].date == TargetDate
  {
    records := [];
    var i := 0;
    while i < |p.rows|
      invariant 0 <= i <= |p.rows|
      invariant records == FrameRecords(p.columns, p.rows[..i])
    {
      var email := RowEmail(p.columns, p.rows[i]);
      if email.Some? {
        records := records + [FrameRecord(p.columns, p.rows[i], email.value)];
      }
      FlatMapStep(RowOneOf(p.columns), p.rows, i);
      assert RowOneOf(p.columns)(p.rows[i]) == RowOne(p.columns, p.rows[i]);
      i := i + 1;
    }
    assert p.rows[..i] == p.rows;
    forall k | 0 <= k < |records| ensures records[k].date == TargetDate {
      FrameRecordsFrom(p.columns, p.rows, k);
    }
  }

  /**
   * `calculate_and_push_from_dataframe`: the date's records are deleted first; the answer
   * is yes exactly when the frame prepares, yields at least one record, and no two records
   * share an email, and then those records are stored.
   */
  method CalculateAndPush(store: ReportStore, f: Frame, weekNumber: int, totalDays: int) returns (ok: bool)
    requires store.Valid()
    modifies store`records, store`nextId
    ensures store.Valid()
    ensures ok <==> Pushed(f, totalDays).Ok? && Pushed(f, totalDays).value != [] && DistinctEmails(Pushed(f, totalDays).value)
    ensures store.records == WithoutDate(old(store.records), TargetDate) +
      (if ok then NewEntries(Pushed(f, totalDays).value, old(store.nextId)) else map[])
  {
    var _ := store.DeleteDate(TargetDate);
    var prepared := Prepare(f, totalDays);
    if prepared.Err? {
      return false;
    }
    var p := prepared.value;
    var records := CollectFrame(p);
    if records == [] {
      return false;
    }
    InsertableAfterDelete(old(store.records), records, TargetDate);
    var r := store.BulkCreate(records);
    ok := r.Ok?;
  }
}
