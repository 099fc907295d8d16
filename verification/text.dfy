/** The few Python string operations the chat client relies on: `strip`, `lower`,
    `str.join`, `startswith`/`endswith`, `isdigit` and formatting of integers. */
module Text {

  /** Python's `c.isspace()`: the ASCII controls 9-13 and 28-31, the space, and the
      Unicode separators Python counts as whitespace. */
  predicate IsSpace(c: char) {
    '\t' <= c <= '\r' || '\U{1C}' <= c <= ' ' || c == '\U{85}' || c == '\U{A0}' || c == '\U{1680}'
    || '\U{2000}' <= c <= '\U{200A}' || c == '\U{2028}' || c == '\U{2029}' || c == '\U{202F}'
    || c == '\U{205F}' || c == '\U{3000}'
  }

  /** The characters `str.strip()` removes. */
  const Whitespace: set<char> := set c: char | IsSpace(c)

  /** Drops the leading characters that belong to `cs`. */
  function TrimStart(s: string, cs: set<char>): string {
    if |s| > 0 && s[0] in cs then TrimStart(s[1..], cs) else s
  }

  /** Drops the trailing characters that belong to `cs`. */
  function TrimEnd(s: string, cs: set<char>): string {
    if |s| > 0 && s[|s| - 1] in cs then TrimEnd(s[..|s| - 1], cs) else s
  }

  /** `TrimStart` removes a prefix made of characters of `cs`, and all of it: what is
      left is empty or starts outside `cs`. */
  lemma {:induction false} TrimStartSpec(s: string, cs: set<char>)
    ensures var r := TrimStart(s, cs);
      |r| <= |s| && r == s[|s| - |r|..] && (r == [] || r[0] !in cs)
      && forall k :: 0 <= k < |s| - |r| ==> s[k] in cs
    decreases |s|
  {
    if |s| > 0 && s[0] in cs {
      TrimStartSpec(s[1..], cs);
    }
  }

  /** `TrimEnd` removes a suffix made of characters of `cs`, and all of it: what is
      left is empty or ends outside `cs`. */
  lemma {:induction false} TrimEndSpec(s: string, cs: set<char>)
    ensures var r := TrimEnd(s, cs);
      |r| <= |s| && r == s[..|r|] && (r == [] || r[|r| - 1] !in cs)
      && forall k :: |r| <= k < |s| ==> s[k] in cs
    decreases |s|
  {
    if |s| > 0 && s[|s| - 1] in cs {
      TrimEndSpec(s[..|s| - 1], cs);
    }
  }

  /** Python's `s.strip(chars)`: both ends lose their characters of `cs` (the
      order in which the two ends are trimmed does not matter). */
  function StripChars(s: string, cs: set<char>): string {
    TrimStart(TrimEnd(s, cs), cs)
  }

  /** Python's `s.strip()`. */
  function Strip(s: string): string {
    StripChars(s, Whitespace)
  }

  /** What `StripChars` returns neither starts nor ends with a character of `cs`. */
  lemma StripCharsEnds(s: string, cs: set<char>)
    ensures var r := StripChars(s, cs); r == [] || (r[0] !in cs && r[|r| - 1] !in cs)
  {
    var e := TrimEnd(s, cs);
    var r := TrimStart(e, cs);
    TrimEndSpec(s, cs);
    TrimStartSpec(e, cs);
    if r != [] {
      assert r == e[|e| - |r|..];
      assert r[|r| - 1] == e[|e| - 1];
    }
  }

  /** `r` is what `s.strip(chars)` leaves when `cs` are the chars: a slice of `s` with
      only characters of `cs` cut from its two ends, and neither end of `r` in `cs`. */
  ghost predicate IsStripOf(r: string, s: string, cs: set<char>) {
    (r == [] || (r[0] !in cs && r[|r| - 1] !in cs))
    && exists i, j :: IsCut(r, s, cs, i, j)
  }

  /** `r` is `s[i..j]`, and every character of `s` outside it is in `cs`. */
  ghost predicate IsCut(r: string, s: string, cs: set<char>, i: int, j: int) {
    0 <= i <= j <= |s| && r == s[i..j]
    && forall k :: 0 <= k < |s| && !(i <= k < j) ==> s[k] in cs
  }

  /** `StripChars` leaves the strip of `s`. */
  lemma StripCharsSpec(s: string, cs: set<char>)
    ensures IsStripOf(StripChars(s, cs), s, cs)
  {
    var e := TrimEnd(s, cs);
    var r := TrimStart(e, cs);
    TrimEndSpec(s, cs);
    TrimStartSpec(e, cs);
    StripCharsEnds(s, cs);
    var i, j := |e| - |r|, |e|;
    assert r == s[i..j];
    forall k | 0 <= k < |s| && !(i <= k < j) ensures s[k] in cs {
      if k < i {
        assert s[k] == e[k];
      }
    }
    assert IsCut(r, s, cs, i, j);
  }

  /** The strip of `s` is unique: anything that is one is what `StripChars` returns. */
  lemma StripOfUnique(r: string, s: string, cs: set<char>)
    requires IsStripOf(r, s, cs)
    ensures r == StripChars(s, cs)
  {
    var i, j :| IsCut(r, s, cs, i, j);
    StripCharsSpec(s, cs);
    var t := StripChars(s, cs);
    var i', j' :| IsCut(t, s, cs, i', j');
    assert i < j ==> s[i] == r[0] && s[j - 1] == r[|r| - 1];
    assert i' < j' ==> s[i'] == t[0] && s[j' - 1] == t[|t| - 1];
    CutsAgree(s, cs, i, j, i', j');
    if i == j {
      assert r == [] == t;
    }
  }

  /** Two cuts of `s` that each remove only characters of `cs` and keep a first and
      last character outside `cs` are the same cut, or both keep nothing. */
  lemma CutsAgree(s: string, cs: set<char>, i: int, j: int, i': int, j': int)
    requires 0 <= i <= j <= |s| && 0 <= i' <= j' <= |s|
    requires i < j ==> s[i] !in cs && s[j - 1] !in cs
    requires i' < j' ==> s[i'] !in cs && s[j' - 1] !in cs
    requires forall k :: 0 <= k < |s| && !(i <= k < j) ==> s[k] in cs
    requires forall k :: 0 <= k < |s| && !(i' <= k < j') ==> s[k] in cs
    ensures (i == j && i' == j') || (i == i' && j == j')
  {
  }

  /** Stripping twice is stripping once. */
  lemma StripCharsIdempotent(s: string, cs: set<char>)
    ensures StripChars(StripChars(s, cs), cs) == StripChars(s, cs)
  {
    StripCharsEnds(s, cs);
  }

  /** A string whose first and last characters are outside `cs` is left as it is. */
  lemma StripCharsKeeps(s: string, cs: set<char>)
    requires s != [] && s[0] !in cs && s[|s| - 1] !in cs
    ensures StripChars(s, cs) == s
  {
  }

  /** Trailing characters of `cs` after a character outside `cs` are all that
      `TrimEnd` removes from `a + b`. */
  lemma {:induction false} TrimEndAppend(a: string, b: string, cs: set<char>)
    requires TrimEnd(b, cs) != []
    ensures TrimEnd(a + b, cs) == a + TrimEnd(b, cs)
    decreases |b|
  {
    if |b| > 0 && b[|b| - 1] in cs {
      assert (a + b)[..|a + b| - 1] == a + b[..|b| - 1];
      TrimEndAppend(a, b[..|b| - 1], cs);
    }
  }

  /** When `b` holds a character outside `cs`, `StripChars(a + b)` ends as `StripChars(b)` ends. */
  lemma StripCharsAppendEnd(a: string, b: string, cs: set<char>)
    requires StripChars(b, cs) != []
    ensures var r := StripChars(a + b, cs); var t := StripChars(b, cs);
      r != [] && r[|r| - 1] == t[|t| - 1]
  {
    var eb := TrimEnd(b, cs);
    TrimEndSpec(b, cs);
    TrimStartSpec(eb, cs);
    assert eb != [];
    TrimEndAppend(a, b, cs);
    var e := TrimEnd(a + b, cs);
    TrimEndSpec(a + b, cs);
    TrimStartSpec(e, cs);
    assert e[|e| - 1] == eb[|eb| - 1];
    StripCharsEnds(b, cs);
    var t := StripChars(b, cs);
    assert t == eb[|eb| - |t|..];
    assert t[|t| - 1] == eb[|eb| - 1];
    StripCharsEnds(a + b, cs);
    var r := StripChars(a + b, cs);
    assert r != [] by {
      assert e[|e| - 1] !in cs;
    }
    assert r == e[|e| - |r|..];
  }

  /** ASCII `A`–`Z` lowered, everything else kept. */
  function LowerChar(c: char): char {
    if 'A' <= c <= 'Z' then (c as int - 'A' as int + 'a' as int) as char else c
  }

  /** Python's `s.lower()` on the ASCII letters. */
  function Lower(s: string): string {
    seq(|s|, i requires 0 <= i < |s| => LowerChar(s[i]))
  }

  /** Python's `c.isdigit()` on the ASCII digits. */
  predicate IsDigit(c: char) {
    '0' <= c <= '9'
  }

  predicate StartsWith(s: string, prefix: string) {
    |prefix| <= |s| && s[..|prefix|] == prefix
  }

  predicate EndsWith(s: string, suffix: string) {
    |suffix| <= |s| && s[|s| - |suffix|..] == suffix
  }

  /** Python's `sep.join(xs)`. */
  function Join(sep: string, xs: seq<string>): string {
    if xs == [] then ""
    else if |xs| == 1 then xs[0]
    else xs[0] + sep + Join(sep, xs[1..])
  }

  /** Python's `"".join(xs)`, or a string built by `+=` over `xs`. */
  function Concat(xs: seq<string>): string {
    if xs == [] then "" else Concat(xs[..|xs| - 1]) + xs[|xs| - 1]
  }

  lemma {:induction false} ConcatAppend(xs: seq<string>, ys: seq<string>)
    ensures Concat(xs + ys) == Concat(xs) + Concat(ys)
    decreases |ys|
  {
    if ys == [] {
      assert xs + ys == xs;
    } else {
      var init, y := ys[..|ys| - 1], ys[|ys| - 1];
      var zs := xs + ys;
      assert zs[..|zs| - 1] == xs + init && zs[|zs| - 1] == y;
      assert Concat(zs) == Concat(xs + init) + y;
      ConcatAppend(xs, init);
      assert Concat(ys) == Concat(init) + y;
    }
  }

  function DigitChar(d: nat): (c: char)
    requires d < 10
    ensures IsDigit(c)
  {
    ('0' as int + d) as char
  }

  /** The decimal digits of `n`, as Python's `str(n)` writes a non-negative integer. */
  function NatToString(n: nat): (r: string)
    ensures r != [] && forall k :: 0 <= k < |r| ==> IsDigit(r[k])
  {
    if n < 10 then [DigitChar(n)] else NatToString(n / 10) + [DigitChar(n % 10)]
  }

  /** Python's `str(n)` / `f"{n}"` for an integer. */
  function IntToString(n: int): (r: string)
    ensures r != [] && IsDigit(r[|r| - 1])
    ensures n >= 0 ==> r == NatToString(n)
    ensures n < 0 ==> r[0] == '-' && r[1..] == NatToString(-n)
  {
    if n < 0 then "-" + NatToString(-n) else NatToString(n)
  }

  /** The number a string of decimal digits denotes, most significant digit first. */
  function DecimalValue(s: string): int
    requires forall k :: 0 <= k < |s| ==> IsDigit(s[k])
  {
    if s == [] then 0 else DecimalValue(s[..|s| - 1]) * 10 + (s[|s| - 1] as int - '0' as int)
  }

  /** The digits `NatToString` writes denote `n`. */
  lemma {:induction false} NatToStringValue(n: nat)
    ensures DecimalValue(NatToString(n)) == n
  {
    if n >= 10 {
      NatToStringValue(n / 10);
      var r := NatToString(n);
      assert r[..|r| - 1] == NatToString(n / 10);
    }
  }

  /** Different integers are written differently. */
  lemma IntToStringInjective(a: int, b: int)
    requires IntToString(a) == IntToString(b)
    ensures a == b
  {
    var r := IntToString(a);
    if a >= 0 && b >= 0 {
      NatToStringValue(a);
      NatToStringValue(b);
    } else if a < 0 && b < 0 {
      NatToStringValue(-a);
      NatToStringValue(-b);
    } else {
      assert false;
    }
  }
}
