/**
 * Character and string helpers that stand in for the Python string methods the
 * report code calls: `str.strip`, `str.lower`, `str.split()`, `os.path.basename`
 * and `os.path.splitext` (POSIX flavour). Only the ASCII range is modelled.
 */
module Text {
  import opened Wrappers

  /** The ASCII characters `str.isspace` accepts (space, \t \n \v \f \r and \x1c-\x1f). */
  predicate IsSpace(c: char) {
    c == ' ' || 9 <= c as int <= 13 || 28 <= c as int <= 31
  }

  predicate IsDigit(c: char) { '0' <= c <= '9' }

  predicate IsLetter(c: char) { ('A' <= c <= 'Z') || ('a' <= c <= 'z') }

  predicate AllSpace(s: string) { forall i :: 0 <= i < |s| ==> IsSpace(s[i]) }

  predicate NoSpace(s: string) { forall i :: 0 <= i < |s| ==> !IsSpace(s[i]) }

  predicate AllDigits(s: string) { forall i :: 0 <= i < |s| ==> IsDigit(s[i]) }

  predicate AllLetters(s: string) { forall i :: 0 <= i < |s| ==> IsLetter(s[i]) }

  // ---------------------------------------------------------------- strip

  /** `s.lstrip()`: drops the leading whitespace. */
  function StripLeft(s: string): (r: string)
    ensures |r| <= |s| && r == s[|s| - |r|..]
    ensures AllSpace(s[..|s| - |r|])
    ensures r != [] ==> !IsSpace(r[0])
  {
    if s == [] then s
    else if IsSpace(s[0]) then StripLeft(s[1..])
    else s
  }

  /** `s.rstrip()`: drops the trailing whitespace. */
  function StripRight(s: string): (r: string)
    ensures |r| <= |s| && r == s[..|r|]
    ensures AllSpace(s[|r|..])
    ensures r != [] ==> !IsSpace(r[|r| - 1])
  {
    if s == [] then s
    else if IsSpace(s[|s| - 1]) then StripRight(s[..|s| - 1])
    else s
  }

  /** `s.strip()`. */
  function Strip(s: string): (r: string)
    ensures r != [] ==> !IsSpace(r[0]) && !IsSpace(r[|r| - 1])
    ensures |r| <= |s|
  {
    StripRight(StripLeft(s))
  }

  /** A string that already has no outer whitespace is left as it is by `strip`. */
  lemma StripOfStripped(s: string)
    requires s != [] ==> !IsSpace(s[0]) && !IsSpace(s[|s| - 1])
    ensures Strip(s) == s
  {
  }

  /** Stripping twice is stripping once. */
  lemma StripIdempotent(s: string)
    ensures Strip(Strip(s)) == Strip(s)
  {
    StripOfStripped(Strip(s));
  }

  /** A blank string strips to the empty string, and only a blank one does. */
  lemma {:induction false} StripEmptyIffBlank(s: string)
    ensures Strip(s) == [] <==> AllSpace(s)
  {
    if AllSpace(s) {
      AllSpaceStripLeft(s);
    }
    if Strip(s) == [] {
      var l := StripLeft(s);
      assert StripRight(l) == [];
      assert AllSpace(l[0..]) && l[0..] == l;
      // `StripLeft` leaves no leading space, so nothing is left of `s`
      assert l == [];
      assert s[..|s| - |l|] == s;
    }
  }

  lemma {:induction false} AllSpaceStripLeft(s: string)
    requires AllSpace(s)
    ensures StripLeft(s) == []
  {
    if s != [] {
      AllSpaceStripLeft(s[1..]);
    }
  }

  // ---------------------------------------------------------------- lower

  function LowerChar(c: char): (r: char)
    ensures 'A' <= c <= 'Z' ==> r == c + ('a' - 'A')
    ensures !('A' <= c <= 'Z') ==> r == c
  {
    if 'A' <= c <= 'Z' then (c as int + 32) as char else c
  }

  /** `s.lower()` on the ASCII range: every upper-case letter becomes lower case. */
  function Lower(s: string): (r: string)
    ensures |r| == |s|
    ensures forall i :: 0 <= i < |s| ==> r[i] == LowerChar(s[i])
  {
    if s == [] then [] else [LowerChar(s[0])] + Lower(s[1..])
  }

  /** Lower-casing is idempotent, so a lower-cased key looked up again is found as is. */
  lemma LowerIdempotent(s: string)
    ensures Lower(Lower(s)) == Lower(s)
  {
    var a, b := Lower(Lower(s)), Lower(s);
    assert |a| == |b|;
    forall i | 0 <= i < |a| ensures a[i] == b[i] {
      assert a[i] == LowerChar(LowerChar(s[i]));
    }
  }

  // ---------------------------------------------------------------- split

  /** Length of the leading run of non-whitespace characters. */
  function TokenLen(s: string): (k: nat)
    ensures k <= |s|
    ensures NoSpace(s[..k])
    ensures k < |s| ==> IsSpace(s[k])
  {
    if s == [] || IsSpace(s[0]) then 0 else 1 + TokenLen(s[1..])
  }

  /** `s.split()`: the maximal runs of non-whitespace characters, in order. */
  function Split(s: string): (r: seq<string>)
    ensures forall i :: 0 <= i < |r| ==> r[i] != [] && NoSpace(r[i])
    decreases |s|
  {
    if s == [] then []
    else if IsSpace(s[0]) then Split(s[1..])
    else
      var k := TokenLen(s);
      [s[..k]] + Split(s[k..])
  }

  /** `s.split()` is empty exactly when `s` is blank (the `[-1]` that follows then raises). */
  lemma {:induction false} SplitEmptyIffBlank(s: string)
    ensures Split(s) == [] <==> AllSpace(s)
    decreases |s|
  {
    if s != [] && IsSpace(s[0]) {
      SplitEmptyIffBlank(s[1..]);
      assert AllSpace(s) <==> AllSpace(s[1..]) by {
        if AllSpace(s[1..]) {
          forall i | 0 <= i < |s| ensures IsSpace(s[i]) {
            if i > 0 { assert s[i] == s[1..][i - 1]; }
          }
        }
      }
    }
  }

  /** A string without whitespace splits into itself alone. */
  lemma SplitOfToken(s: string)
    requires s != [] && NoSpace(s)
    ensures Split(s) == [s]
  {
    assert TokenLen(s) == |s| by { TokenLenOfNoSpace(s); }
    assert s[..|s|] == s;
    assert s[|s|..] == [];
  }

  lemma {:induction false} TokenLenOfNoSpace(s: string)
    requires NoSpace(s)
    ensures TokenLen(s) == |s|
  {
    if s != [] {
      TokenLenOfNoSpace(s[1..]);
    }
  }

  /** The words one after the other, with nothing between them. */
  function Concat(ws: seq<string>): string {
    if ws == [] then [] else ws[0] + Concat(ws[1..])
  }

  /** The characters of `s` that are not whitespace, in order. */
  function NonSpace(s: string): string {
    if s == [] then [] else (if IsSpace(s[0]) then [] else [s[0]]) + NonSpace(s[1..])
  }

  /** The words joined with one space between each two. */
  function JoinSpaced(ws: seq<string>): string {
    if |ws| <= 1 then Concat(ws) else ws[0] + " " + JoinSpaced(ws[1..])
  }

  lemma {:induction false} NonSpaceAppend(a: string, b: string)
    ensures NonSpace(a + b) == NonSpace(a) + NonSpace(b)
  {
    if a == [] {
      assert a + b == b;
    } else {
      NonSpaceAppend(a[1..], b);
      assert (a + b)[0] == a[0] && (a + b)[1..] == a[1..] + b;
      var h: string := if IsSpace(a[0]) then [] else [a[0]];
      assert NonSpace(a + b) == h + (NonSpace(a[1..]) + NonSpace(b));
      assert NonSpace(a) == h + NonSpace(a[1..]);
    }
  }

  lemma {:induction false} NonSpaceOfWord(w: string)
    requires NoSpace(w)
    ensures NonSpace(w) == w
  {
    if w != [] {
      NonSpaceOfWord(w[1..]);
    }
  }

  /** `split()` keeps every non-whitespace character, in order, and nothing else. */
  lemma {:induction false} SplitKeepsCharacters(s: string)
    ensures Concat(Split(s)) == NonSpace(s)
    decreases |s|
  {
    if s != [] {
      if IsSpace(s[0]) {
        SplitKeepsCharacters(s[1..]);
      } else {
        var k := TokenLen(s);
        SplitKeepsCharacters(s[k..]);
        assert s == s[..k] + s[k..];
        NonSpaceAppend(s[..k], s[k..]);
        NonSpaceOfWord(s[..k]);
      }
    }
  }

  lemma {:induction false} TokenLenOfWord(w: string, t: string)
    requires NoSpace(w)
    requires t == [] || IsSpace(t[0])
    ensures TokenLen(w + t) == |w|
  {
    if w != [] {
      assert (w + t)[1..] == w[1..] + t;
      TokenLenOfWord(w[1..], t);
    }
  }

  /** `split()` undoes joining non-empty words with spaces: the runs are maximal. */
  lemma {:induction false} SplitOfJoinSpaced(ws: seq<string>)
    requires forall i :: 0 <= i < |ws| ==> ws[i] != [] && NoSpace(ws[i])
    ensures Split(JoinSpaced(ws)) == ws
  {
    if |ws| == 1 {
      assert Concat(ws) == ws[0] by { assert Concat(ws[1..]) == []; assert ws[0] + [] == ws[0]; }
      SplitOfToken(ws[0]);
    } else if |ws| > 1 {
      var w, rest := ws[0], JoinSpaced(ws[1..]);
      SplitOfJoinSpaced(ws[1..]);
      var s := w + " " + rest;
      assert s == w + (" " + rest);
      TokenLenOfWord(w, " " + rest);
      assert s[..|w|] == w && s[|w|..] == " " + rest;
      assert s[0] == w[0];
      assert Split(" " + rest) == Split(rest) by { assert (" " + rest)[1..] == rest; }
    }
  }

  // ---------------------------------------------------------------- paths

  /** Index of the last occurrence of `c` in `s`. */
  function LastIndexOf(s: string, c: char): (r: Option<nat>)
    ensures r.Some? ==> r.value < |s| && s[r.value] == c
  {
    if s == [] then None
    else if s[|s| - 1] == c then Some(|s| - 1)
    else LastIndexOf(s[..|s| - 1], c)
  }

  /** The index found is the last occurrence, and `None` means there is none. */
  lemma {:induction false} LastIndexOfLast(s: string, c: char)
    ensures var r := LastIndexOf(s, c);
      (r.Some? ==> forall j :: r.value < j < |s| ==> s[j] != c) &&
      (r.None? ==> forall j :: 0 <= j < |s| ==> s[j] != c)
  {
    if s != [] && s[|s| - 1] != c {
      LastIndexOfLast(s[..|s| - 1], c);
    }
  }

  /** `os.path.basename` (POSIX): everything after the last '/'. */
  function Basename(path: string): (r: string)
    ensures |r| <= |path| && r == path[|path| - |r|..]
  {
    match LastIndexOf(path, '/')
    case None => path
    case Some(i) => path[i + 1..]
  }

  /** A base name has no '/'. */
  lemma BasenameHasNoSlash(path: string)
    ensures var r := Basename(path); forall i :: 0 <= i < |r| ==> r[i] != '/'
  {
    LastIndexOfLast(path, '/');
  }

  /**
   * `os.path.splitext` (POSIX): the extension starts at the last '.' after the last
   * '/', provided some character other than '.' comes before it in the base name
   * (a leading-dot name such as ".xlsx" has no extension).
   */
  function SplitExt(path: string): (r: (string, string))
    ensures r.0 + r.1 == path
    ensures r.1 != [] ==> r.1[0] == '.'
  {
    var sep := match LastIndexOf(path, '/') case None => -1 case Some(i) => i as int;
    match LastIndexOf(path, '.')
    case None => (path, "")
    case Some(dot) =>
      if dot as int > sep && exists j :: sep < j < dot && path[j] != '.' then
        (path[..dot], path[dot..])
      else (path, "")
  }

  /** An extension holds a single '.', its first character, and no '/'. */
  lemma SplitExtSound(path: string)
    ensures var r := SplitExt(path);
      r.1 != [] ==> forall i :: 1 <= i < |r.1| ==> r.1[i] != '.' && r.1[i] != '/'
  {
    LastIndexOfLast(path, '/');
    LastIndexOfLast(path, '.');
  }

  // ---------------------------------------------------------------- search

  predicate IsPrefix(p: string, s: string) { |p| <= |s| && s[..|p|] == p }

  /** `sub in s` for strings: `sub` starts at some position of `s`. */
  predicate Contains(s: string, sub: string) {
    IsPrefix(sub, s) || (s != [] && Contains(s[1..], sub))
  }

  /** A string contains every one of its suffixes. */
  lemma {:induction false} ContainsSuffix(s: string, t: string)
    ensures Contains(s + t, t)
  {
    if s == [] {
      assert s + t == t;
    } else {
      ContainsSuffix(s[1..], t);
      assert (s + t)[1..] == s[1..] + t;
    }
  }
}
