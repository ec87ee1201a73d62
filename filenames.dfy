/**
 * The file-name conventions of the report generator: the date token embedded in an
 * upload's name, the week context derived from it, and the extension-to-engine table
 * that decides whether a workbook can be read at all.
 */
module FileNames {
  import opened Wrappers
  import opened Text
  import opened Calendar

  /** What `parse_date_from_filename` stores on the generator. */
  datatype DateContext = DateContext(
    parsed: Date,        // parsed_date
    prevWeek: Date,      // prev_week_date = parsed_date - 7 days
    weekNumber: int,     // (day - 1) // 7 + 1
    monthName: string,   // strftime('%B'), the name of the month-to-date column
    totalDays: int)      // week_number * 5

  /**
   * Length of the match of `\d{1,2}[A-Za-z]{3}\d{4}` that starts at `i`, if any:
   * the regex tries two day digits first and falls back to one.
   */
  function MatchAt(s: string, i: nat): (r: Option<nat>)
    ensures r.Some? ==> (r.value == 8 || r.value == 9) && i + r.value <= |s|
  {
    if i + 9 <= |s| && AllDigits(s[i..i + 2]) && AllLetters(s[i + 2..i + 5]) && AllDigits(s[i + 5..i + 9]) then Some(9)
    else if i + 8 <= |s| && IsDigit(s[i]) && AllLetters(s[i + 1..i + 4]) && AllDigits(s[i + 4..i + 8]) then Some(8)
    else None
  }

  /** `re.search`: the leftmost position at or after `from` where a match starts. */
  function SearchFrom(s: string, from: nat): (r: Option<nat>)
    requires from <= |s|
    ensures r.Some? ==> from <= r.value <= |s| && MatchAt(s, r.value).Some?
    ensures forall j :: from <= j <= |s| && (r.None? || j < r.value) ==> MatchAt(s, j).None?
    decreases |s| - from
  {
    if MatchAt(s, from).Some? then Some(from)
    else if from == |s| then None
    else SearchFrom(s, from + 1)
  }

  /** The text `re.search(r'(\d{1,2}[A-Za-z]{3}\d{4})', s).group(1)` returns. */
  function DateToken(s: string): Option<string>
  {
    match SearchFrom(s, 0)
    case None => None
    case Some(i) => Some(s[i..i + MatchAt(s, i).value])
  }

  /** The fields derived from a parsed date, or the `OverflowError` of `date - 7 days`. */
  function ContextOf(d: Date): (r: Result<DateContext>)
    requires ValidDate(d)
  {
    match MinusWeek(d)
    case Err(e) => Err(e)
    case Ok(prev) => Ok(DateContext(d, prev, WeekNumber(d), MonthName(d.month), WeekNumber(d) * 5))
  }

  /**
   * `parse_date_from_filename` (current generator): the first date-shaped token of the
   * base name, parsed with `%d%b%Y`; `ValueError` when there is none or it does not parse.
   */
  function ParseFileDate(path: string): (r: Result<DateContext>)
  {
    match DateToken(Basename(path))
    case None => Err("Filename does not contain a valid date format like '10Apr2025'.")
    case Some(tok) =>
      match ParseDayMonYear(tok)
      case Err(e) => Err(e)
      case Ok(d) => ContextOf(d)
  }

  /** Everything a successful parse stores satisfies the week rules. */
  lemma ParseFileDateSound(path: string)
    requires ParseFileDate(path).Ok?
    ensures var c := ParseFileDate(path).value;
      ValidDate(c.parsed) && ValidDate(c.prevWeek) &&
      Ordinal(c.prevWeek) == Ordinal(c.parsed) - 7 &&
      1 <= c.weekNumber <= 5 && c.totalDays == 5 * c.weekNumber &&
      c.totalDays % 5 == 0 && c.totalDays <= 25 &&
      c.monthName == MonthNames[c.parsed.month - 1]
  {
    var tok := DateToken(Basename(path)).value;
    var d := ParseDayMonYear(tok).value;
    MinusWeekIsSevenDaysEarlier(d);
    WeekBounds(d);
  }

  /** A path with no date-shaped token is refused. */
  lemma ParseFileDateNeedsToken(path: string)
    requires forall j :: 0 <= j <= |Basename(path)| ==> MatchAt(Basename(path), j).None?
    ensures ParseFileDate(path).Err?
  {
  }

  /**
   * A file name whose first digit begins a "10Apr2025"-style token yields that date,
   * whatever follows the token.
   */
  lemma ParseFileDateFindsToken(prefix: string, d: Date, rest: string)
    requires ValidDate(d) && Ordinal(d) > 7
    requires forall i :: 0 <= i < |prefix| ==> !IsDigit(prefix[i]) && prefix[i] != '/'
    requires forall i :: 0 <= i < |rest| ==> rest[i] != '/'
    ensures ParseFileDate(prefix + FormatDayMonYear(d) + rest).Ok?
    ensures ParseFileDate(prefix + FormatDayMonYear(d) + rest).value.parsed == d
  {
    var tok := FormatDayMonYear(d);
    var s := prefix + tok + rest;
    assert Basename(s) == s by {
      assert forall i :: 0 <= i < |s| ==> s[i] != '/' by {
        forall i | 0 <= i < |s| ensures s[i] != '/' {
          if i < |prefix| { assert s[i] == prefix[i]; }
          else if i < |prefix| + 9 { assert s[i] == tok[i - |prefix|]; TokenShape(d); }
          else { assert s[i] == rest[i - |prefix| - 9]; }
        }
      }
    }
    var p := |prefix|;
    TokenShape(d);
    assert s[p..p + 9] == tok;
    assert s[p..p + 2] == tok[..2];
    assert s[p + 2..p + 5] == tok[2..5];
    assert s[p + 5..p + 9] == tok[5..];
    assert MatchAt(s, p) == Some(9);
    forall j | 0 <= j < p ensures MatchAt(s, j).None? {
      assert s[j] == prefix[j];
    }
    SearchSkips(s, 0, p);
    assert DateToken(s) == Some(tok);
    ParseFormatDayMonYear(d);
    MinusWeekIsSevenDaysEarlier(d);
  }

  /** "10Apr2025" is two digits, three letters and four digits, with no '/'. */
  lemma TokenShape(d: Date)
    requires ValidDate(d)
    ensures var t := FormatDayMonYear(d);
      |t| == 9 && AllDigits(t[..2]) && AllLetters(t[2..5]) && AllDigits(t[5..]) &&
      forall i :: 0 <= i < 9 ==> t[i] != '/'
  {
    var t := FormatDayMonYear(d);
    assert t[2..5] == MonthAbbrevs[d.month - 1];
    assert t[..2] == Pad2(d.day);
    assert t[5..] == Pad4(d.year);
    assert AllLetters(MonthAbbrevs[d.month - 1]);
  }

  /** The search passes over positions where no match starts. */
  lemma {:induction false} SearchSkips(s: string, from: nat, p: nat)
    requires from <= p <= |s| && MatchAt(s, p).Some?
    requires forall j :: from <= j < p ==> MatchAt(s, j).None?
    ensures SearchFrom(s, from) == Some(p)
    decreases p - from
  {
    if from < p {
      SearchSkips(s, from + 1, p);
    }
  }

  // ---------------------------------------------------------------- earlier generator

  /**
   * `parse_date_from_filename` of the earlier generator: the last whitespace-separated
   * token of the path without its extension must be a whole `%d%b%Y` date; an empty
   * token list raises `IndexError`.
   */
  function ParseFileDateLegacy(path: string): (r: Result<DateContext>)
  {
    var toks := Split(SplitExt(path).0);
    if toks == [] then Err("list index out of range")
    else
      match ParseDayMonYear(toks[|toks| - 1])
      case Err(e) => Err(e)
      case Ok(d) => ContextOf(d)
  }

  /** Appending a space and a token adds that token at the end of `split()`. */
  lemma {:induction false} SplitAppendToken(p: string, t: string)
    requires t != [] && NoSpace(t)
    ensures Split(p + " " + t) == Split(p) + [t]
    decreases |p|
  {
    var s := p + " " + t;
    if p == [] {
      assert s[1..] == t;
      SplitOfToken(t);
    } else if IsSpace(p[0]) {
      assert s[1..] == p[1..] + " " + t;
      SplitAppendToken(p[1..], t);
    } else {
      var k := TokenLen(p);
      assert TokenLen(s) == k by {
        assert s == p + (" " + t);
        TokenLenPrefix(p, " " + t);
      }
      assert s[..k] == p[..k];
      assert s[k..] == p[k..] + " " + t;
      SplitAppendToken(p[k..], t);
    }
  }

  lemma {:induction false} TokenLenPrefix(p: string, q: string)
    requires q != [] && IsSpace(q[0])
    ensures TokenLen(p + q) == TokenLen(p)
    decreases |p|
  {
    if p != [] && !IsSpace(p[0]) {
      assert (p + q)[1..] == p[1..] + q;
      TokenLenPrefix(p[1..], q);
    } else if p == [] {
      assert p + q == q;
    }
  }

  /** The earlier generator reads the date from the token that ends the extension-less path. */
  lemma ParseFileDateLegacyLastToken(path: string, prefix: string, d: Date)
    requires ValidDate(d) && Ordinal(d) > 7
    requires SplitExt(path).0 == prefix + " " + FormatDayMonYear(d)
    ensures ParseFileDateLegacy(path).Ok? && ParseFileDateLegacy(path).value.parsed == d
  {
    var t := FormatDayMonYear(d);
    TokenShape(d);
    assert NoSpace(t) by {
      forall i | 0 <= i < |t| ensures !IsSpace(t[i]) {
        if i < 2 { assert t[i] == t[..2][i]; }
        else if i < 5 { assert t[i] == t[2..5][i - 2]; }
        else { assert t[i] == t[5..][i - 5]; }
      }
    }
    SplitAppendToken(prefix, t);
    ParseFormatDayMonYear(d);
    MinusWeekIsSevenDaysEarlier(d);
  }

  /** Both generators agree on the week rules once a date is parsed. */
  lemma LegacySameContext(path: string)
    requires ParseFileDateLegacy(path).Ok?
    ensures var c := ParseFileDateLegacy(path).value;
      1 <= c.weekNumber <= 5 && c.totalDays == 5 * c.weekNumber &&
      Ordinal(c.prevWeek) == Ordinal(c.parsed) - 7
  {
    var toks := Split(SplitExt(path).0);
    var d := ParseDayMonYear(toks[|toks| - 1]).value;
    MinusWeekIsSevenDaysEarlier(d);
    WeekBounds(d);
  }

  // ---------------------------------------------------------------- engines

  datatype Engine = Pyxlsb | Openpyxl | Xlrd

  /** The engine for a lower-cased extension, as in `engine_map`. */
  function EngineOf(ext: string): Option<Engine> {
    if ext == ".xlsb" then Some(Pyxlsb)
    else if ext == ".xlsx" || ext == ".xlsm" then Some(Openpyxl)
    else if ext == ".xls" then Some(Xlrd)
    else None
  }

  /** `read_excel_file`'s choice of engine; `ValueError` for any other extension. */
  function EngineFor(path: string): (r: Result<Engine>)
  {
    var ext := Lower(SplitExt(path).1);
    match EngineOf(ext)
    case Some(e) => Ok(e)
    case None => Err("Unsupported file format: " + ext)
  }

  /**
   * Only the four workbook extensions are accepted, in any letter case; everything else,
   * including a path without extension, is refused.
   */
  lemma EngineForAccepts(path: string)
    ensures EngineFor(path).Ok? <==> Lower(SplitExt(path).1) in {".xlsb", ".xlsx", ".xlsm", ".xls"}
    ensures SplitExt(path).1 == "" ==> EngineFor(path).Err?
    ensures EngineFor(path) == Ok(Openpyxl) <==> Lower(SplitExt(path).1) in {".xlsx", ".xlsm"}
  {
  }

  /** The extension of `stem + ext` is `ext` when the stem is a plain name and `ext` a plain suffix. */
  lemma SplitExtOfName(stem: string, ext: string)
    requires stem != [] && forall i :: 0 <= i < |stem| ==> stem[i] != '.' && stem[i] != '/'
    requires |ext| >= 1 && ext[0] == '.' && forall i :: 1 <= i < |ext| ==> ext[i] != '.' && ext[i] != '/'
    ensures SplitExt(stem + ext) == (stem, ext)
  {
    var s := stem + ext;
    LastIndexAppend(stem, ext, '.');
    LastIndexAppendNone(stem, ext, '/');
    assert s[0] == stem[0];
    assert s[..|stem|] == stem && s[|stem|..] == ext;
  }

  lemma {:induction false} LastIndexAppend(a: string, b: string, c: char)
    requires |b| >= 1 && b[0] == c && forall i :: 1 <= i < |b| ==> b[i] != c
    ensures LastIndexOf(a + b, c) == Some(|a|)
    decreases |b|
  {
    if |b| > 1 {
      assert (a + b)[..|a + b| - 1] == a + b[..|b| - 1];
      LastIndexAppend(a, b[..|b| - 1], c);
    }
  }

  lemma LastIndexAppendNone(a: string, b: string, c: char)
    requires forall i :: 0 <= i < |a| ==> a[i] != c
    requires forall i :: 0 <= i < |b| ==> b[i] != c
    ensures LastIndexOf(a + b, c).None?
  {
    var s := a + b;
    forall j | 0 <= j < |s| ensures s[j] != c {
      if j < |a| { assert s[j] == a[j]; } else { assert s[j] == b[j - |a|]; }
    }
  }
}
