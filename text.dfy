/**
 * String helpers with the meaning of the Rust standard-library operations that the
 * checks use: `trim`, `starts_with`, `strip_prefix`, `contains`, `find`, `lines`,
 * `trim_matches`, `trim_start_matches`, ASCII case mapping, `parse::<u32>` and the
 * decimal rendering of `format!("{}", n)`. Strings are sequences of Unicode scalar values.
 */
module Text {
  import opened Options

  /** Rust's `char::is_whitespace`: the characters with the Unicode White_Space property. */
  predicate IsWhitespace(c: char) {
    c == ' ' || ('\t' <= c <= '\r') || c == '\U{85}' || c == '\U{A0}' || c == '\U{1680}'
    || ('\U{2000}' <= c <= '\U{200A}') || c == '\U{2028}' || c == '\U{2029}'
    || c == '\U{202F}' || c == '\U{205F}' || c == '\U{3000}'
  }

  /** The index of the first non-whitespace character at or after `i`, or `|s|`. */
  function LeadingEnd(s: string, i: nat): (j: nat)
    requires i <= |s|
    ensures i <= j <= |s|
    ensures forall k :: i <= k < j ==> IsWhitespace(s[k])
    ensures j < |s| ==> !IsWhitespace(s[j])
    decreases |s| - i
  {
    if i < |s| && IsWhitespace(s[i]) then LeadingEnd(s, i + 1) else i
  }

  /** The index just after the last non-whitespace character before `j`, or 0. */
  function TrailingStart(s: string, j: nat): (i: nat)
    requires j <= |s|
    ensures i <= j
    ensures forall k :: i <= k < j ==> IsWhitespace(s[k])
    ensures i > 0 ==> !IsWhitespace(s[i - 1])
  {
    if j > 0 && IsWhitespace(s[j - 1]) then TrailingStart(s, j - 1) else j
  }

  /** `str::trim_start`. */
  function TrimStart(s: string): string {
    s[LeadingEnd(s, 0)..]
  }

  /** `str::trim_end`. */
  function TrimEnd(s: string): string {
    s[..TrailingStart(s, |s|)]
  }

  /** `str::trim`: whitespace is dropped from both ends. */
  function Trim(s: string): string {
    TrimEnd(TrimStart(s))
  }

  /**
   * `trim` returns the infix of `s` left after dropping whitespace, and only whitespace,
   * from both ends; what remains starts and ends with a non-whitespace character.
   */
  lemma TrimSpec(s: string)
    ensures Trim(s) == [] || (!IsWhitespace(Trim(s)[0]) && !IsWhitespace(Trim(s)[|Trim(s)| - 1]))
    ensures exists a ::
      0 <= a <= |s| - |Trim(s)| && OccursAt(s, Trim(s), a)
      && (forall k :: 0 <= k < a ==> IsWhitespace(s[k]))
      && (forall k :: a + |Trim(s)| <= k < |s| ==> IsWhitespace(s[k]))
  {
    var a := LeadingEnd(s, 0);
    var u := s[a..];
    var b := TrailingStart(u, |u|);
    assert Trim(s) == u[..b] == s[a..a + b];
    assert OccursAt(s, Trim(s), a);
    forall k | a + b <= k < |s|
      ensures IsWhitespace(s[k])
    {
      assert s[k] == u[k - a];
    }
  }

  /** Every line with `str::trim` applied, as the line scanners see them. */
  function TrimAll(lines: seq<string>): (r: seq<string>)
    ensures |r| == |lines|
  {
    if lines == [] then [] else [Trim(lines[0])] + TrimAll(lines[1..])
  }

  /** The k-th trimmed line is the k-th line, trimmed. */
  lemma {:induction false} TrimAllAt(lines: seq<string>, k: nat)
    requires k < |lines|
    ensures TrimAll(lines)[k] == Trim(lines[k])
  {
    if k > 0 {
      TrimAllAt(lines[1..], k - 1);
    }
  }

  /** `str::starts_with` with a string pattern. */
  predicate StartsWith(s: string, prefix: string) {
    |prefix| <= |s| && s[..|prefix|] == prefix
  }

  lemma StartsWithConcat(a: string, b: string)
    ensures StartsWith(a + b, a)
  {
    assert (a + b)[..|a|] == a;
  }

  /** What a string starts with, it still starts with after more is appended. */
  lemma StartsWithExtend(s: string, p: string, t: string)
    requires StartsWith(s, p)
    ensures StartsWith(s + t, p)
  {
    assert (s + t)[..|p|] == s[..|p|];
  }

  /** `str::ends_with` with a string pattern. */
  predicate EndsWith(s: string, suffix: string) {
    |suffix| <= |s| && s[|s| - |suffix|..] == suffix
  }

  /** `str::strip_prefix(p).unwrap_or("")` where the caller has checked `starts_with(p)`. */
  function StripPrefix(s: string, prefix: string): (r: string)
    requires StartsWith(s, prefix)
    ensures prefix + r == s
  {
    s[|prefix|..]
  }

  /** `sub` occurs in `s` starting at index `i`. */
  predicate OccursAt(s: string, sub: string, i: int) {
    0 <= i && i + |sub| <= |s| && s[i..i + |sub|] == sub
  }

  /** `str::contains` with a string pattern; every string contains the empty one. */
  predicate Contains(s: string, sub: string) {
    exists i :: 0 <= i <= |s| - |sub| && OccursAt(s, sub, i)
  }

  /** `str::find` with a char pattern: the index of the first occurrence. */
  function Find(s: string, c: char): (r: Option<nat>)
    ensures r.None? <==> c !in s
    ensures r.Some? ==> r.value < |s| && s[r.value] == c && c !in s[..r.value]
  {
    if s == [] then None
    else if s[0] == c then Some(0)
    else match Find(s[1..], c)
      case None => None
      case Some(i) => Some(i + 1)
  }

  /** `char::to_ascii_lowercase`. */
  function LowerChar(c: char): char {
    if 'A' <= c <= 'Z' then (c as int + 32) as char else c
  }

  /** `char::to_ascii_uppercase`. */
  function UpperChar(c: char): char {
    if 'a' <= c <= 'z' then (c as int - 32) as char else c
  }

  /** Lower-casing, restricted to ASCII letters. */
  function ToLower(s: string): (r: string)
    ensures |r| == |s| && forall k :: 0 <= k < |s| ==> r[k] == LowerChar(s[k])
  {
    seq(|s|, k requires 0 <= k < |s| => LowerChar(s[k]))
  }

  /** Upper-casing, restricted to ASCII letters. */
  function ToUpper(s: string): (r: string)
    ensures |r| == |s| && forall k :: 0 <= k < |s| ==> r[k] == UpperChar(s[k])
  {
    seq(|s|, k requires 0 <= k < |s| => UpperChar(s[k]))
  }

  /** `str::eq_ignore_ascii_case`. */
  predicate EqIgnoreAsciiCase(a: string, b: string) {
    ToLower(a) == ToLower(b)
  }

  /** The index of the first character other than `c` at or after `i`, or `|s|`. */
  function MatchesEnd(s: string, c: char, i: nat): (j: nat)
    requires i <= |s|
    ensures i <= j <= |s|
    decreases |s| - i
  {
    if i < |s| && s[i] == c then MatchesEnd(s, c, i + 1) else i
  }

  /** The index just after the last character other than `c` before `j`, or 0. */
  function MatchesStart(s: string, c: char, j: nat): (i: nat)
    requires j <= |s|
    ensures i <= j
  {
    if j > 0 && s[j - 1] == c then MatchesStart(s, c, j - 1) else j
  }

  /** `str::trim_matches(c)` with a char pattern: strips every leading and trailing `c`. */
  function TrimMatches(s: string, c: char): string {
    var u := s[MatchesEnd(s, c, 0)..];
    u[..MatchesStart(u, c, |u|)]
  }

  /** Nothing `trim_matches` returns begins or ends with `c`. */
  lemma TrimMatchesEnds(s: string, c: char)
    ensures var r := TrimMatches(s, c); r == [] || (r[0] != c && r[|r| - 1] != c)
  {
    var a := MatchesEnd(s, c, 0);
    var u := s[a..];
    var b := MatchesStart(u, c, |u|);
    MatchesEndStops(s, c, 0);
    MatchesStartStops(u, c, |u|);
    if b > 0 {
      assert u[0] == s[a];
    }
  }

  lemma {:induction false} MatchesEndStops(s: string, c: char, i: nat)
    requires i <= |s|
    ensures MatchesEnd(s, c, i) < |s| ==> s[MatchesEnd(s, c, i)] != c
    decreases |s| - i
  {
    if i < |s| && s[i] == c {
      MatchesEndStops(s, c, i + 1);
    }
  }

  lemma {:induction false} MatchesStartStops(s: string, c: char, j: nat)
    requires j <= |s|
    ensures MatchesStart(s, c, j) > 0 ==> s[MatchesStart(s, c, j) - 1] != c
  {
    if j > 0 && s[j - 1] == c {
      MatchesStartStops(s, c, j - 1);
    }
  }

  /** A value quoted once with `c` on both sides, itself neither starting nor ending with `c`, is unquoted exactly. */
  lemma {:induction false} TrimMatchesQuoted(v: string, c: char)
    requires v == [] || (v[0] != c && v[|v| - 1] != c)
    ensures TrimMatches([c] + v + [c], c) == v
  {
    var s := [c] + v + [c];
    if v == [] {
      assert MatchesEnd(s, c, 0) == MatchesEnd(s, c, 1) == 2;
    } else {
      assert MatchesEnd(s, c, 0) == MatchesEnd(s, c, 1) == 1;
      var u := s[1..];
      assert u == v + [c];
      assert MatchesStart(u, c, |u|) == MatchesStart(u, c, |v|) == |v|;
      assert u[..|v|] == v;
    }
  }

  /** `str::trim_start_matches(p)` with a string pattern: strips `p` repeatedly from the front. */
  function TrimStartMatches(s: string, p: string): (r: string)
    ensures |r| <= |s| && r == s[|s| - |r|..]
    ensures p != [] ==> !StartsWith(r, p)
    decreases |s|
  {
    if p != [] && StartsWith(s, p) then TrimStartMatches(s[|p|..], p) else s
  }

  /** `str::lines`: split at "\n", drop one "\r" before each "\n", no empty last line. */
  function Lines(s: string): (r: seq<string>)
    ensures forall k :: 0 <= k < |r| ==> '\n' !in r[k]
    ensures r == [] <==> s == []
    decreases |s|
  {
    if s == [] then []
    else match Find(s, '\n')
      case None => [s]
      case Some(i) =>
        var line := if i > 0 && s[i - 1] == '\r' then s[..i - 1] else s[..i];
        assert line == s[..i][..|line|];
        [line] + Lines(s[i + 1..])
  }

  /** The index of the first line that starts with `prefix` (`lines().find(...)`). */
  function FindLine(lines: seq<string>, prefix: string): (r: Option<nat>)
    ensures r.None? <==> forall k :: 0 <= k < |lines| ==> !StartsWith(lines[k], prefix)
    ensures r.Some? ==>
      r.value < |lines| && StartsWith(lines[r.value], prefix)
      && (forall k :: 0 <= k < r.value ==> !StartsWith(lines[k], prefix))
  {
    if lines == [] then None
    else if StartsWith(lines[0], prefix) then Some(0)
    else match FindLine(lines[1..], prefix)
      case None => None
      case Some(i) => Some(i + 1)
  }

  /** The first line with the prefix is the one `FindLine` returns. */
  lemma FindLineIsFirst(lines: seq<string>, prefix: string, i: nat)
    requires i < |lines| && StartsWith(lines[i], prefix)
    requires forall k :: 0 <= k < i ==> !StartsWith(lines[k], prefix)
    ensures FindLine(lines, prefix) == Some(i)
  {
    var r := FindLine(lines, prefix);
    assert r.Some? && r.value <= i;
  }

  /** `Iterator::take(n)` on the characters of a string. */
  function Take(s: string, n: nat): (r: string)
    ensures |r| <= n && |r| <= |s| && r == s[..|r|]
    ensures |s| <= n ==> r == s
  {
    if |s| <= n then s else s[..n]
  }

  /** `[String]::join(sep)`. */
  function Join(parts: seq<string>, sep: string): string {
    if parts == [] then ""
    else if |parts| == 1 then parts[0]
    else parts[0] + sep + Join(parts[1..], sep)
  }

  /** `char::is_ascii_digit`. */
  predicate IsDigit(c: char) {
    '0' <= c <= '9'
  }

  predicate AllDigits(s: string) {
    forall k :: 0 <= k < |s| ==> IsDigit(s[k])
  }

  /** The value of a run of decimal digits, most significant first. */
  function DigitsValue(s: string): nat
    requires AllDigits(s)
  {
    if s == [] then 0 else DigitsValue(s[..|s| - 1]) * 10 + (s[|s| - 1] as int - '0' as int)
  }

  const U32_LIMIT: nat := 0x1_0000_0000

  /**
   * `str::parse::<u32>()`: an optional '+', then one or more ASCII digits, and a value
   * that fits in 32 bits; anything else is an error (`None`).
   */
  function ParseU32(s: string): (r: Option<nat>)
    ensures r.Some? ==> r.value < U32_LIMIT
  {
    var digits := if s != [] && s[0] == '+' then s[1..] else s;
    if digits != [] && AllDigits(digits) && DigitsValue(digits) < U32_LIMIT
    then Some(DigitsValue(digits))
    else None
  }

  /** A plain run of digits whose value fits in 32 bits parses to that value; nothing else does without a sign or digits. */
  lemma ParseU32Digits(s: string)
    ensures AllDigits(s) && s != [] && DigitsValue(s) < U32_LIMIT ==> ParseU32(s) == Some(DigitsValue(s))
    ensures s == [] ==> ParseU32(s) == None
  {
  }

  function DigitChar(d: nat): (c: char)
    requires d < 10
    ensures IsDigit(c)
  {
    ('0' as int + d) as char
  }

  /** `format!("{}", n)` for an unsigned integer. */
  function NatToString(n: nat): (r: string)
    ensures r != [] && AllDigits(r)
  {
    if n < 10 then [DigitChar(n)] else NatToString(n / 10) + [DigitChar(n % 10)]
  }

  /** Reading back the decimal rendering of a count gives the count. */
  lemma {:induction false} NatToStringRoundTrip(n: nat)
    ensures DigitsValue(NatToString(n)) == n
  {
    var r := NatToString(n);
    if n >= 10 {
      NatToStringRoundTrip(n / 10);
      assert r[..|r| - 1] == NatToString(n / 10);
    }
  }

  /** Distinct counts are rendered as distinct strings. */
  lemma NatToStringInjective(m: nat, n: nat)
    requires NatToString(m) == NatToString(n)
    ensures m == n
  {
    NatToStringRoundTrip(m);
    NatToStringRoundTrip(n);
  }

  lemma ContainsInfix(a: string, b: string, c: string)
    ensures Contains(a + b + c, b)
  {
    assert OccursAt(a + b + c, b, |a|);
  }

  lemma ContainsPrefix(s: string, p: string)
    requires StartsWith(s, p)
    ensures Contains(s, p)
  {
    assert OccursAt(s, p, 0);
  }

  /** `contains` is transitive: an infix of an infix is an infix. */
  lemma ContainsWithin(s: string, t: string, sub: string)
    requires Contains(s, t) && Contains(t, sub)
    ensures Contains(s, sub)
  {
    var i :| 0 <= i <= |s| - |t| && OccursAt(s, t, i);
    var j :| 0 <= j <= |t| - |sub| && OccursAt(t, sub, j);
    var u := s[i + j..i + j + |sub|];
    assert |u| == |sub|;
    forall k | 0 <= k < |sub| ensures u[k] == sub[k] {
      assert u[k] == s[i + j + k] == t[j + k];
    }
    assert OccursAt(s, sub, i + j);
  }

  /** The line contains at least one of the keys. */
  predicate ContainsAny(line: string, keys: seq<string>) {
    exists k :: 0 <= k < |keys| && Contains(line, keys[k])
  }

  /** `lines.filter(|l| keys.any(|k| l.contains(k)))`: the lines mentioning a key, in order. */
  function LinesContainingAny(lines: seq<string>, keys: seq<string>): (r: seq<string>)
    ensures |r| <= |lines|
    ensures forall k :: 0 <= k < |r| ==> ContainsAny(r[k], keys) && r[k] in lines
  {
    if lines == [] then []
    else if ContainsAny(lines[0], keys) then [lines[0]] + LinesContainingAny(lines[1..], keys)
    else LinesContainingAny(lines[1..], keys)
  }
}
