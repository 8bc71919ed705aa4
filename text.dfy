/** The string primitives the form validators rely on: JavaScript's
    whitespace class (shared by `String.prototype.trim`, the regular
    expression classes `\s`/`\S` and `parseInt`), trimming, the e-mail
    pattern `/\S+@\S+\.\S+/`, the ISBN layout pattern of the book form and
    `parseInt`. */
module Text {
  import opened Common

  /** ECMAScript WhiteSpace and LineTerminator code points. */
  predicate IsSpace(c: char) {
    c == '\t' || c == '\n' || c == '\U{B}' || c == '\U{C}' || c == '\r' ||
    c == ' ' || c == '\U{A0}' || c == '\U{1680}' || ('\U{2000}' <= c <= '\U{200A}') ||
    c == '\U{2028}' || c == '\U{2029}' || c == '\U{202F}' || c == '\U{205F}' ||
    c == '\U{3000}' || c == '\U{FEFF}'
  }

  predicate IsDigit(c: char) { '0' <= c <= '9' }

  predicate IsAsciiLetter(c: char) { ('a' <= c <= 'z') || ('A' <= c <= 'Z') }

  predicate AllSpace(s: string) {
    forall i :: 0 <= i < |s| ==> IsSpace(s[i])
  }

  // ---------------------------------------------------------------------
  // Trimming

  /** `s` with its leading whitespace removed. */
  function TrimStart(s: string): (r: string)
    ensures |r| <= |s|
  {
    if |s| > 0 && IsSpace(s[0]) then TrimStart(s[1..]) else s
  }

  /** `s` with its trailing whitespace removed. */
  function TrimEnd(s: string): (r: string)
    ensures |r| <= |s|
  {
    if |s| > 0 && IsSpace(s[|s| - 1]) then TrimEnd(s[..|s| - 1]) else s
  }

  /** `s.trim()`. */
  function Trim(s: string): string {
    TrimEnd(TrimStart(s))
  }

  /** What `TrimStart` removes is a whitespace prefix, and what it keeps is
      the rest, starting with a non-space character. */
  lemma {:induction false} TrimStartShape(s: string)
    ensures var r := TrimStart(s);
            r == s[|s| - |r|..] && (r == [] || !IsSpace(r[0])) && AllSpace(s[..|s| - |r|])
  {
    if |s| > 0 && IsSpace(s[0]) {
      TrimStartShape(s[1..]);
      var r := TrimStart(s[1..]);
      assert s[..|s| - |r|] == [s[0]] + s[1..][..|s[1..]| - |r|];
      assert s[1..][|s[1..]| - |r|..] == s[|s| - |r|..];
    }
  }

  /** What `TrimEnd` removes is a whitespace suffix, and what it keeps is
      the rest, ending with a non-space character. */
  lemma {:induction false} TrimEndShape(s: string)
    ensures var r := TrimEnd(s);
            r == s[..|r|] && (r == [] || !IsSpace(r[|r| - 1])) && AllSpace(s[|r|..])
  {
    if |s| > 0 && IsSpace(s[|s| - 1]) {
      TrimEndShape(s[..|s| - 1]);
      var r := TrimEnd(s[..|s| - 1]);
      assert s[|r|..] == s[..|s| - 1][|r|..] + [s[|s| - 1]];
      assert s[..|s| - 1][..|r|] == s[..|r|];
    }
  }

  /** The trimmed string is the part of `s` between two all-whitespace
      margins, and it neither starts nor ends with whitespace. */
  lemma TrimIsCore(s: string)
    ensures exists i, j :: 0 <= i <= j <= |s| && Trim(s) == s[i..j] &&
                           AllSpace(s[..i]) && AllSpace(s[j..])
    ensures Trim(s) == [] || (!IsSpace(Trim(s)[0]) && !IsSpace(Trim(s)[|Trim(s)| - 1]))
  {
    var t := TrimStart(s);
    TrimStartShape(s);
    var i := |s| - |t|;
    var r := TrimEnd(t);
    TrimEndShape(t);
    var j := i + |r|;
    assert Trim(s) == r;
    assert r == s[i..j];
    assert s[j..] == t[|r|..];
    assert AllSpace(s[..i]) && AllSpace(s[j..]);
    if r != [] {
      assert r[0] == t[0];
    }
  }

  /** `!s.trim()` holds exactly for the strings made of whitespace only. */
  lemma TrimEmptyIff(s: string)
    ensures Trim(s) == [] <==> AllSpace(s)
  {
    var t := TrimStart(s);
    TrimStartShape(s);
    TrimEndShape(t);
    if !AllSpace(s) {
      var k :| 0 <= k < |s| && !IsSpace(s[k]);
      assert s[..|s| - |t|] + t == s;
      assert TrimEnd(t) != [];
    } else {
      assert AllSpace(t);
    }
  }

  /** Trimming twice is trimming once. */
  lemma {:induction false} TrimIdempotent(s: string)
    ensures Trim(Trim(s)) == Trim(s)
  {
    var r := Trim(s);
    TrimIsCore(s);
    if r != [] {
      assert TrimStart(r) == r;
      assert TrimEnd(r) == r;
    }
  }

  // ---------------------------------------------------------------------
  // The e-mail pattern /\S+@\S+\.\S+/ (unanchored, so it is a search)

  predicate AllNonSpace(s: string, lo: int, hi: int)
    requires 0 <= lo && hi <= |s|
  {
    forall k :: lo <= k < hi ==> !IsSpace(s[k])
  }

  /** `s[a..e]` reads non-space+, '@' (at `at`), non-space+, '.' (at `dot`),
      non-space+. */
  predicate PatternAt(s: string, a: int, at: int, dot: int, e: int) {
    0 <= a < at && at + 1 < dot && dot + 1 < e <= |s| &&
    AllNonSpace(s, a, at) && s[at] == '@' && AllNonSpace(s, at + 1, dot) &&
    s[dot] == '.' && AllNonSpace(s, dot + 1, e)
  }

  /** The literal meaning of the unanchored pattern: it matches somewhere. */
  ghost predicate EmailPattern(s: string) {
    exists a, at, dot, e :: PatternAt(s, a, at, dot, e)
  }

  /** '@' at `at`, a non-space character just before it, and nothing but
      non-space characters from `at + 1` up to (excluding) `i`. */
  predicate OpenAt(s: string, at: int, i: int) {
    1 <= at < i <= |s| && !IsSpace(s[at - 1]) && s[at] == '@' && AllNonSpace(s, at + 1, i)
  }

  /** A shortest witness of the pattern: '@' at `at` and '.' at `dot`. */
  predicate MatchAt(s: string, at: int, dot: int) {
    at + 1 < dot && dot + 1 < |s| && OpenAt(s, at, dot) && s[dot] == '.' && !IsSpace(s[dot + 1])
  }

  /** Some '@' is still open before position `i`. */
  ghost predicate AnyOpen(s: string, i: int) {
    exists at :: OpenAt(s, at, i)
  }

  /** Some '@' is open before `i` with at least one character after it. */
  ghost predicate AnyOpenLong(s: string, i: int) {
    exists at :: at < i - 1 && OpenAt(s, at, i)
  }

  /** A whole match lies inside `s[..i]`. */
  ghost predicate AnyMatchBefore(s: string, i: int) {
    exists at, dot :: dot + 1 < i && MatchAt(s, at, dot)
  }

  lemma EmailPatternIffMatch(s: string)
    ensures EmailPattern(s) <==> AnyMatchBefore(s, |s|)
  {
    if EmailPattern(s) {
      var a, at, dot, e :| PatternAt(s, a, at, dot, e);
      assert MatchAt(s, at, dot);
    }
    if AnyMatchBefore(s, |s|) {
      var at, dot :| dot + 1 < |s| && MatchAt(s, at, dot);
      assert PatternAt(s, at - 1, at, dot, dot + 2);
    }
  }

  /** A text the pattern matches is not blank. */
  lemma EmailPatternNotBlank(s: string)
    ensures EmailPattern(s) ==> Trim(s) != ""
  {
    if EmailPattern(s) {
      var a, at, dot, e :| PatternAt(s, a, at, dot, e);
      assert !IsSpace(s[a]);
      TrimEmptyIff(s);
    }
  }

  /** `/\S+@\S+\.\S+/.test(s)`, as one left-to-right scan. */
  method TestEmailPattern(s: string) returns (found: bool)
    ensures found <==> EmailPattern(s)
  {
    found := false;
    var open, openLong, dotReady := false, false, false;
    var i := 0;
    while i < |s|
      invariant 0 <= i <= |s|
      invariant found <==> AnyMatchBefore(s, i)
      invariant open <==> AnyOpen(s, i)
      invariant openLong <==> AnyOpenLong(s, i)
      invariant dotReady <==> 1 <= i && s[i - 1] == '.' && AnyOpenLong(s, i - 1)
    {
      var c := s[i];
      OpenStep(s, i);
      MatchStep(s, i);
      found := found || (dotReady && !IsSpace(c));
      dotReady := c == '.' && openLong;
      var openLong' := open && !IsSpace(c);
      open := openLong' || (c == '@' && 1 <= i && !IsSpace(s[i - 1]));
      openLong := openLong';
      i := i + 1;
    }
    EmailPatternIffMatch(s);
  }

  /** How the open '@' candidates change when the scan consumes `s[i]`. */
  lemma OpenStep(s: string, i: int)
    requires 0 <= i < |s|
    ensures AnyOpenLong(s, i + 1) <==> AnyOpen(s, i) && !IsSpace(s[i])
    ensures AnyOpen(s, i + 1) <==>
            AnyOpenLong(s, i + 1) || (s[i] == '@' && 1 <= i && !IsSpace(s[i - 1]))
  {
    forall at | at < i
      ensures OpenAt(s, at, i + 1) <==> OpenAt(s, at, i) && !IsSpace(s[i])
    {
      if OpenAt(s, at, i) && !IsSpace(s[i]) {
        assert AllNonSpace(s, at + 1, i + 1);
      }
    }
    if AnyOpen(s, i) && !IsSpace(s[i]) {
      var at :| OpenAt(s, at, i);
      assert OpenAt(s, at, i + 1);
    }
    if AnyOpenLong(s, i + 1) {
      var at :| at < i && OpenAt(s, at, i + 1);
      assert OpenAt(s, at, i) && !IsSpace(s[i]);
    }
    if AnyOpen(s, i + 1) {
      var at :| OpenAt(s, at, i + 1);
      if at < i {
        assert AnyOpenLong(s, i + 1);
      }
    }
    if s[i] == '@' && 1 <= i && !IsSpace(s[i - 1]) {
      assert OpenAt(s, i, i + 1);
    }
  }

  /** How the completed matches grow when the scan consumes `s[i]`. */
  lemma MatchStep(s: string, i: int)
    requires 0 <= i < |s|
    ensures AnyMatchBefore(s, i + 1) <==>
            AnyMatchBefore(s, i) ||
            (1 <= i && s[i - 1] == '.' && !IsSpace(s[i]) && AnyOpenLong(s, i - 1))
  {
    if AnyMatchBefore(s, i + 1) {
      var at, dot :| dot + 1 < i + 1 && MatchAt(s, at, dot);
      if dot + 1 == i {
        assert at < i - 2 && OpenAt(s, at, i - 1);
      }
    }
    if 1 <= i && s[i - 1] == '.' && !IsSpace(s[i]) && AnyOpenLong(s, i - 1) {
      var at :| at < i - 2 && OpenAt(s, at, i - 1);
      assert MatchAt(s, at, i - 1);
    }
  }

  // ---------------------------------------------------------------------
  // The name pattern /^[a-zA-Z\s]+$/

  predicate LettersAndSpaces(s: string) {
    |s| > 0 && forall i :: 0 <= i < |s| ==> IsAsciiLetter(s[i]) || IsSpace(s[i])
  }

  // ---------------------------------------------------------------------
  // The ISBN layout pattern of the book form:
  //   ^(?:ISBN(?:-1[03])?:? )?
  //    (?=[0-9X]{10}$|(?=(?:[0-9]+[- ]){3})[- 0-9X]{13}$|97[89][0-9]{10}$
  //       |(?=(?:[0-9]+[- ]){4})[- 0-9]{17}$)
  //    (?:97[89][- ]?)?[0-9]{1,5}[- ]?[0-9]+[- ]?[0-9]+[- ]?[0-9X]$
  // transcribed piece by piece; a regular expression test is membership in
  // its language, whatever order the engine backtracks in.

  predicate IsSep(c: char) { c == '-' || c == ' ' }

  predicate AllIn(s: string, alphabet: set<char>) {
    forall i :: 0 <= i < |s| ==> s[i] in alphabet
  }

  const Digits: set<char> := {'0', '1', '2', '3', '4', '5', '6', '7', '8', '9'}

  /** Length of the run of decimal digits at the start of `s`. */
  function DigitRun(s: string): (n: nat)
    ensures n <= |s|
    ensures forall i :: 0 <= i < n ==> IsDigit(s[i])
    ensures n < |s| ==> !IsDigit(s[n])
  {
    if |s| > 0 && IsDigit(s[0]) then 1 + DigitRun(s[1..]) else 0
  }

  /** The lookahead `(?=(?:[0-9]+[- ]){n})`: `n` groups of digits each
      followed by one separator. A digit group must be the whole leading
      run, since a separator is not a digit. */
  predicate GroupsAhead(s: string, n: nat)
    decreases n
  {
    n == 0 ||
    (var k := DigitRun(s); 1 <= k < |s| && IsSep(s[k]) && GroupsAhead(s[k + 1..], n - 1))
  }

  /** The four alternatives of the length lookahead, on the text after the
      optional "ISBN" prefix. */
  predicate IsbnLookahead(r: string) {
    (|r| == 10 && AllIn(r, Digits + {'X'})) ||
    (GroupsAhead(r, 3) && |r| == 13 && AllIn(r, Digits + {'X', '-', ' '})) ||
    (|r| == 13 && r[0] == '9' && r[1] == '7' && (r[2] == '8' || r[2] == '9') && AllIn(r[3..], Digits)) ||
    (GroupsAhead(r, 4) && |r| == 17 && AllIn(r, Digits + {'-', ' '}))
  }

  /** `[0-9X]$` */
  predicate CheckChar(t: string) {
    |t| == 1 && (IsDigit(t[0]) || t[0] == 'X')
  }

  /** `[- ]?` followed by `next` */
  predicate AfterThird(t: string) {
    CheckChar(t) || (|t| > 0 && IsSep(t[0]) && CheckChar(t[1..]))
  }

  /** `[0-9]+[- ]?[0-9X]$` */
  predicate ThirdGroup(t: string) {
    |t| > 0 && IsDigit(t[0]) && (AfterThird(t[1..]) || ThirdGroup(t[1..]))
  }

  predicate AfterSecond(t: string) {
    ThirdGroup(t) || (|t| > 0 && IsSep(t[0]) && ThirdGroup(t[1..]))
  }

  /** `[0-9]+[- ]?` then the third group */
  predicate SecondGroup(t: string) {
    |t| > 0 && IsDigit(t[0]) && (AfterSecond(t[1..]) || SecondGroup(t[1..]))
  }

  predicate AfterFirst(t: string) {
    SecondGroup(t) || (|t| > 0 && IsSep(t[0]) && SecondGroup(t[1..]))
  }

  /** `[0-9]{1,5}` with `used` digits of it already consumed. */
  predicate FirstGroup(t: string, used: nat)
    decreases |t|
  {
    |t| > 0 && IsDigit(t[0]) && (AfterFirst(t[1..]) || (used + 1 < 5 && FirstGroup(t[1..], used + 1)))
  }

  /** `(?:97[89][- ]?)?` then the digit groups */
  predicate IsbnBody(r: string) {
    FirstGroup(r, 0) ||
    (|r| >= 3 && r[0] == '9' && r[1] == '7' && (r[2] == '8' || r[2] == '9') &&
     (FirstGroup(r[3..], 0) || (|r| >= 4 && IsSep(r[3]) && FirstGroup(r[4..], 0))))
  }

  predicate IsbnCore(r: string) {
    IsbnLookahead(r) && IsbnBody(r)
  }

  /** `:? ` then the number */
  predicate AfterIsbnColon(t: string) {
    (|t| > 0 && t[0] == ' ' && IsbnCore(t[1..])) ||
    (|t| > 1 && t[0] == ':' && t[1] == ' ' && IsbnCore(t[2..]))
  }

  /** `(?:-1[03])?:? ` then the number */
  predicate AfterIsbnWord(t: string) {
    AfterIsbnColon(t) ||
    (|t| >= 3 && t[0] == '-' && t[1] == '1' && (t[2] == '0' || t[2] == '3') && AfterIsbnColon(t[3..]))
  }

  /** `isbnRegex.test(s)` */
  predicate IsbnLayout(s: string) {
    IsbnCore(s) ||
    (|s| >= 4 && s[..4] == "ISBN" && AfterIsbnWord(s[4..]))
  }

  /** The length lookahead bounds every accepted text: 10, 13 or 17
      characters of number after a prefix of at most 9. */
  lemma IsbnLayoutLength(s: string)
    ensures IsbnLayout(s) ==> 10 <= |s| <= 26
  {
    if IsbnLayout(s) && !IsbnCore(s) {
      var t := s[4..];
      if AfterIsbnColon(t) {
        assert 11 <= |t| <= 19;
      } else {
        assert AfterIsbnColon(t[3..]);
      }
    }
  }

  // ---------------------------------------------------------------------
  // parseInt

  function DigitValue(c: char): (v: nat)
    requires IsDigit(c)
    ensures v < 10
  {
    (c as int) - ('0' as int)
  }

  predicate IsHexDigit(c: char) {
    IsDigit(c) || ('a' <= c <= 'f') || ('A' <= c <= 'F')
  }

  function HexValue(c: char): (v: nat)
    requires IsHexDigit(c)
    ensures v < 16
  {
    if IsDigit(c) then DigitValue(c)
    else if 'a' <= c <= 'f' then (c as int) - ('a' as int) + 10
    else (c as int) - ('A' as int) + 10
  }

  function HexRun(s: string): (n: nat)
    ensures n <= |s|
    ensures forall i :: 0 <= i < n ==> IsHexDigit(s[i])
  {
    if |s| > 0 && IsHexDigit(s[0]) then 1 + HexRun(s[1..]) else 0
  }

  /** Value of a string of decimal digits, most significant first. */
  function DecimalValue(ds: string): nat
    requires forall i :: 0 <= i < |ds| ==> IsDigit(ds[i])
  {
    if ds == [] then 0 else 10 * DecimalValue(ds[..|ds| - 1]) + DigitValue(ds[|ds| - 1])
  }

  function HexadecimalValue(ds: string): nat
    requires forall i :: 0 <= i < |ds| ==> IsHexDigit(ds[i])
  {
    if ds == [] then 0 else 16 * HexadecimalValue(ds[..|ds| - 1]) + HexValue(ds[|ds| - 1])
  }

  /** The sign `parseInt` reads, and what follows it. */
  function SplitSign(t: string): (int, string) {
    if |t| > 0 && t[0] == '-' then (-1, t[1..])
    else if |t| > 0 && t[0] == '+' then (1, t[1..])
    else (1, t)
  }

  predicate HasHexMarker(u: string) {
    |u| >= 2 && u[0] == '0' && (u[1] == 'x' || u[1] == 'X')
  }

  /** `parseInt(s)` with the radix left to the function: leading whitespace
      is skipped, one sign is read, "0x"/"0X" selects base 16, and the
      longest run of digits that follows is the value; no digit at all is
      NaN, here `None`. */
  function ParseInt(s: string): (r: Option<int>)
    ensures r.Some? <==>
            var u := SplitSign(TrimStart(s)).1;
            if HasHexMarker(u) then HexRun(u[2..]) > 0 else DigitRun(u) > 0
  {
    var (sign, u) := SplitSign(TrimStart(s));
    if HasHexMarker(u) then
      var n := HexRun(u[2..]);
      if n == 0 then None else Some(sign * HexadecimalValue(u[2..][..n]))
    else
      var n := DigitRun(u);
      if n == 0 then None else Some(sign * DecimalValue(u[..n]))
  }

  /** A plain run of decimal digits, as a number input yields for a whole
      number, parses to its decimal value. */
  lemma ParseDecimalDigits(s: string)
    requires s != [] && AllIn(s, Digits)
    ensures ParseInt(s) == Some(DecimalValue(s))
  {
    assert TrimStart(s) == s;
    assert SplitSign(s).1 == s;
    assert !HasHexMarker(s);
    DigitRunAll(s);
    assert s[..|s|] == s;
  }

  lemma {:induction false} DigitRunAll(s: string)
    requires AllIn(s, Digits)
    ensures DigitRun(s) == |s|
  {
    if s != [] {
      assert AllIn(s[1..], Digits);
      DigitRunAll(s[1..]);
    }
  }
}
