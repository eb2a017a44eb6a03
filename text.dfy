/**
 * String primitives of JavaScript and Python that the modelled code relies on:
 * `trim`, `strip`, `toLowerCase` (ASCII letters only), `includes`, `startsWith`,
 * `split`, `join`, `padStart(2, '0')`, number-to-decimal conversion and the
 * runs of characters that the regular expressions `\w+`, `\d+` and Python's
 * `str.split()` pick out.
 */
module Text {

  /** The characters JavaScript's `\s` matches and `String.prototype.trim` removes. */
  predicate IsJsSpace(c: char) {
    || c == ' ' || c == '\t' || c == '\n' || c == '\r' || c == '\U{000B}' || c == '\U{000C}'
    || c == '\U{00A0}' || c == '\U{1680}' || ('\U{2000}' <= c <= '\U{200A}')
    || c == '\U{2028}' || c == '\U{2029}' || c == '\U{202F}' || c == '\U{205F}'
    || c == '\U{3000}' || c == '\U{FEFF}'
  }

  /** The characters for which Python's `str.isspace()` holds (used by `strip()` and `split()`). */
  predicate IsPySpace(c: char) {
    || c == ' ' || c == '\t' || c == '\n' || c == '\r' || c == '\U{000B}' || c == '\U{000C}'
    || ('\U{001C}' <= c <= '\U{001F}') || c == '\U{0085}' || c == '\U{00A0}' || c == '\U{1680}'
    || ('\U{2000}' <= c <= '\U{200A}') || c == '\U{2028}' || c == '\U{2029}' || c == '\U{202F}'
    || c == '\U{205F}' || c == '\U{3000}'
  }

  predicate IsAsciiDigit(c: char) { '0' <= c <= '9' }

  /** JavaScript's `\w` without the `u` flag: ASCII letters, digits and `_`. */
  predicate IsWordChar(c: char) {
    ('a' <= c <= 'z') || ('A' <= c <= 'Z') || IsAsciiDigit(c) || c == '_'
  }

  predicate AllChars(s: string, p: char -> bool) {
    forall i :: 0 <= i < |s| ==> p(s[i])
  }

  // ---------------------------------------------------------------- trimming

  /** Drops the leading characters that satisfy `p`. */
  function TrimStart(s: string, p: char -> bool): (r: string)
    ensures |r| <= |s|
    decreases |s|
  {
    if s != [] && p(s[0]) then TrimStart(s[1..], p) else s
  }

  /** What `TrimStart` removes is a prefix of `p` characters, and what it keeps does not open with one. */
  lemma {:induction false} TrimStartFacts(s: string, p: char -> bool)
    ensures var r := TrimStart(s, p);
      && r == s[|s| - |r|..]
      && (r == [] || !p(r[0]))
      && forall i :: 0 <= i < |s| - |r| ==> p(s[i])
    decreases |s|
  {
    if s != [] && p(s[0]) {
      TrimStartFacts(s[1..], p);
    }
  }

  /** Drops the trailing characters that satisfy `p`. */
  function TrimEnd(s: string, p: char -> bool): (r: string)
    ensures |r| <= |s|
    decreases |s|
  {
    if s != [] && p(s[|s| - 1]) then TrimEnd(s[..|s| - 1], p) else s
  }

  /** What `TrimEnd` removes is a suffix of `p` characters, and what it keeps does not close with one. */
  lemma {:induction false} TrimEndFacts(s: string, p: char -> bool)
    ensures var r := TrimEnd(s, p);
      && r == s[..|r|]
      && (r == [] || !p(r[|r| - 1]))
      && forall i :: |r| <= i < |s| ==> p(s[i])
    decreases |s|
  {
    if s != [] && p(s[|s| - 1]) {
      TrimEndFacts(s[..|s| - 1], p);
    }
  }

  /** Both ends. */
  function Trim(s: string, p: char -> bool): (r: string)
    ensures |r| <= |s|
  {
    TrimEnd(TrimStart(s, p), p)
  }

  /** The trim is the middle part of `s` with no `p` at either end. */
  lemma TrimFacts(s: string, p: char -> bool)
    ensures exists k :: OccursAt(s, Trim(s, p), k)
    ensures Trim(s, p) == [] || (!p(Trim(s, p)[0]) && !p(Trim(s, p)[|Trim(s, p)| - 1]))
  {
    var t := TrimStart(s, p);
    var r := TrimEnd(t, p);
    TrimStartFacts(s, p);
    TrimEndFacts(t, p);
    assert r == s[|s| - |t|..][..|r|] == s[|s| - |t|..|s| - |t| + |r|];
    assert OccursAt(s, r, |s| - |t|);
    assert Trim(s, p) == r;
    if r != [] {
      assert r[0] == t[0] && !p(t[0]);
    }
  }

  /** `String.prototype.trim`. */
  function JsTrim(s: string): string { Trim(s, IsJsSpace) }

  /** Python's `str.strip()` with no argument. */
  function PyStrip(s: string): string { Trim(s, IsPySpace) }

  /** Trimming twice is trimming once. */
  lemma TrimIdempotent(s: string, p: char -> bool)
    ensures Trim(Trim(s, p), p) == Trim(s, p)
  {
    var r := Trim(s, p);
    TrimFacts(s, p);
    assert TrimStart(r, p) == r;
    assert TrimEnd(r, p) == r;
  }

  /** A string that does not open with a trimmed character keeps its first character. */
  lemma TrimKeepsFirst(s: string, p: char -> bool)
    requires |s| > 0 && !p(s[0])
    ensures |Trim(s, p)| > 0 && Trim(s, p)[0] == s[0]
  {
    assert TrimStart(s, p) == s;
    TrimEndFacts(s, p);
  }

  /** A string with no trimmed character at either end is its own trim. */
  lemma TrimUnchanged(s: string, p: char -> bool)
    requires |s| > 0 && !p(s[0]) && !p(s[|s| - 1])
    ensures Trim(s, p) == s
  {
    assert TrimStart(s, p) == s;
    assert TrimEnd(s, p) == s;
  }

  // ---------------------------------------------------------------- case

  /** `toLowerCase` on one character, for the ASCII letters the modelled inputs use. */
  function LowerChar(c: char): char {
    if 'A' <= c <= 'Z' then (c as int + 32) as char else c
  }

  function ToLower(s: string): (r: string)
    ensures |r| == |s| && forall i :: 0 <= i < |s| ==> r[i] == LowerChar(s[i])
  {
    seq(|s|, i requires 0 <= i < |s| => LowerChar(s[i]))
  }

  /** `toUpperCase` on one character, for ASCII letters. */
  function UpperChar(c: char): char {
    if 'a' <= c <= 'z' then (c as int - 32) as char else c
  }

  function ToUpper(s: string): (r: string)
    ensures |r| == |s| && forall i :: 0 <= i < |s| ==> r[i] == UpperChar(s[i])
  {
    seq(|s|, i requires 0 <= i < |s| => UpperChar(s[i]))
  }

  lemma LowerCharFacts(c: char)
    ensures LowerChar(LowerChar(c)) == LowerChar(c)
    ensures IsJsSpace(LowerChar(c)) <==> IsJsSpace(c)
  {
  }

  // ---------------------------------------------------------------- search

  predicate StartsWith(s: string, prefix: string) {
    |prefix| <= |s| && s[..|prefix|] == prefix
  }

  lemma StartsWithAppend(s: string, t: string)
    ensures StartsWith(s + t, s)
  {
    assert (s + t)[..|s|] == s;
  }

  /** `sub` stands in `s` at index `i`. */
  predicate OccursAt(s: string, sub: string, i: int) {
    0 <= i && i + |sub| <= |s| && s[i..i + |sub|] == sub
  }

  /** `s.includes(sub)` (and Python's `sub in s`). */
  predicate Contains(s: string, sub: string) {
    exists i | 0 <= i <= |s| - |sub| :: OccursAt(s, sub, i)
  }

  lemma ContainsAt(s: string, sub: string, i: nat)
    requires OccursAt(s, sub, i)
    ensures Contains(s, sub)
  {
  }

  /** A string never contains what starts with a character it lacks. */
  lemma MissingFirstChar(s: string, sub: string)
    requires |sub| > 0 && sub[0] !in s
    ensures !Contains(s, sub)
  {
    forall i | 0 <= i <= |s| - |sub|
      ensures !OccursAt(s, sub, i)
    {
      assert s[i..i + |sub|][0] == s[i];
    }
  }

  /** A string never contains a longer one. */
  lemma NotContainsLonger(s: string, sub: string)
    requires |s| < |sub|
    ensures !Contains(s, sub)
  {
  }

  /** Index of the first `c` in `s`, or `|s|` when there is none. */
  function IndexOfChar(s: string, c: char): (k: nat)
    ensures k <= |s| && c !in s[..k] && (k < |s| ==> s[k] == c)
    decreases |s|
  {
    if s == [] then 0 else if s[0] == c then 0 else 1 + IndexOfChar(s[1..], c)
  }

  // ---------------------------------------------------------------- split / join

  /** `s.split(sep)` for a one-character separator. */
  function Split(s: string, sep: char): (parts: seq<string>)
    ensures |parts| >= 1
    ensures forall i :: 0 <= i < |parts| ==> sep !in parts[i]
    decreases |s|
  {
    var k := IndexOfChar(s, sep);
    if k == |s| then [s] else [s[..k]] + Split(s[k + 1..], sep)
  }

  lemma AppendAssoc(a: string, b: string, c: string)
    ensures a + b + c == a + (b + c)
  {
  }

  /** `parts.join(sep)`. */
  function Join(parts: seq<string>, sep: string): string
    decreases |parts|
  {
    if |parts| == 0 then ""
    else if |parts| == 1 then parts[0]
    else parts[0] + sep + Join(parts[1..], sep)
  }

  /** Splitting and joining again with the same separator gives back the string. */
  lemma {:induction false} JoinSplit(s: string, sep: char)
    ensures Join(Split(s, sep), [sep]) == s
    decreases |s|
  {
    var k := IndexOfChar(s, sep);
    if k < |s| {
      JoinSplit(s[k + 1..], sep);
      assert s == s[..k] + [sep] + s[k + 1..];
    }
  }

  // ---------------------------------------------------------------- runs

  /** Length of the longest prefix of `s` whose characters all satisfy `p`. */
  function RunLength(s: string, p: char -> bool): (n: nat)
    ensures n <= |s| && AllChars(s[..n], p) && (n < |s| ==> !p(s[n]))
    decreases |s|
  {
    if s == [] || !p(s[0]) then 0 else 1 + RunLength(s[1..], p)
  }

  /** A run that ends where the string stops satisfying `p` has that length. */
  lemma RunLengthPrefix(s: string, t: string, p: char -> bool)
    requires AllChars(s, p) && (t == [] || !p(t[0]))
    ensures RunLength(s + t, p) == |s|
  {
    assert (s + t)[..|s|] == s;
    if t != [] {
      assert (s + t)[|s|] == t[0];
    }
  }

  /**
   * The maximal runs of characters satisfying `p`, left to right: the matches of
   * the global regular expressions `\w+` (equivalently `\b\w+\b`) and `\d+`, and
   * the words of Python's `str.split()` when `p` is "not a space".
   */
  function Runs(s: string, p: char -> bool): (rs: seq<string>)
    ensures forall i :: 0 <= i < |rs| ==> |rs[i]| > 0 && AllChars(rs[i], p)
    decreases |s|
  {
    if s == [] then []
    else if !p(s[0]) then Runs(s[1..], p)
    else
      var n := RunLength(s, p);
      [s[..n]] + Runs(s[n..], p)
  }

  /** Python's `str.split()`: the runs of non-space characters. */
  predicate NotPySpace(c: char) {
    !IsPySpace(c)
  }

  function PyWords(s: string): seq<string> {
    Runs(s, NotPySpace)
  }

  // ---------------------------------------------------------------- numbers

  function DigitChar(d: nat): (c: char)
    requires d < 10
    ensures IsAsciiDigit(c)
  {
    ('0' as int + d) as char
  }

  function DigitValue(c: char): (d: nat)
    requires IsAsciiDigit(c)
    ensures d < 10
  {
    c as int - '0' as int
  }

  /** The decimal digits of `n`, as `String(n)` and `n.toString()` write them. */
  function NatToString(n: nat): (r: string)
    ensures |r| >= 1 && AllChars(r, IsAsciiDigit)
    ensures |r| > 1 ==> r[0] != '0'
    decreases n
  {
    if n < 10 then [DigitChar(n)] else NatToString(n / 10) + [DigitChar(n % 10)]
  }

  /** The value of a string of decimal digits. */
  function ParseNat(s: string): nat
    requires AllChars(s, IsAsciiDigit)
    decreases |s|
  {
    if s == [] then 0 else 10 * ParseNat(s[..|s| - 1]) + DigitValue(s[|s| - 1])
  }

  /** Reading back the digits `NatToString` writes gives the number. */
  lemma {:induction false} ParseNatToString(n: nat)
    ensures ParseNat(NatToString(n)) == n
    decreases n
  {
    var r := NatToString(n);
    if n >= 10 {
      ParseNatToString(n / 10);
      assert r[..|r| - 1] == NatToString(n / 10);
    }
  }

  /** A leading zero does not change the value of a digit string. */
  lemma {:induction false} ParseLeadingZero(s: string)
    requires AllChars(s, IsAsciiDigit)
    ensures AllChars("0" + s, IsAsciiDigit) && ParseNat("0" + s) == ParseNat(s)
    decreases |s|
  {
    assert AllChars("0" + s, IsAsciiDigit) by {
      forall i | 0 <= i < |"0" + s|
        ensures IsAsciiDigit(("0" + s)[i])
      {
        if i > 0 {
          assert ("0" + s)[i] == s[i - 1];
        }
      }
    }
    if s != [] {
      var t := s[..|s| - 1];
      assert ("0" + s)[..|s|] == "0" + t;
      ParseLeadingZero(t);
    }
  }

  /** `String(i)` for an integer. */
  function IntToString(i: int): string {
    if i < 0 then "-" + NatToString(-i) else NatToString(i)
  }

  /** `s.padStart(2, '0')`. */
  function PadStart2(s: string): (r: string)
    ensures |r| == if |s| < 2 then 2 else |s|
    ensures r[|r| - |s|..] == s && forall i :: 0 <= i < |r| - |s| ==> r[i] == '0'
  {
    if |s| == 0 then "00" else if |s| == 1 then "0" + s else s
  }
}
