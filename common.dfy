/** Failure-compatible wrappers used across the model. */
module Wrappers {

  datatype Option<+T> = None | Some(value: T) {
    /** Python's `d.get(key, default)` once the key lookup has produced this option. */
    function GetOr(default: T): T {
      match this
      case Some(v) => v
      case None => default
    }
  }

  datatype Result<+T, +E> = Ok(value: T) | Err(error: E)
}

/** Character and string helpers standing in for the Python string methods the core calls. */
module Text {

  /** Python's `str.isspace()` for one character (the Unicode White_Space set Python uses). */
  predicate IsSpace(c: char) {
    c == '\t' || c == '\n' || c == '\U{0B}' || c == '\U{0C}' || c == '\r'
    || ('\U{1C}' <= c <= '\U{1F}') || c == ' '
    || c == '\U{85}' || c == '\U{A0}' || c == '\U{1680}'
    || ('\U{2000}' <= c <= '\U{200A}')
    || c == '\U{2028}' || c == '\U{2029}' || c == '\U{202F}' || c == '\U{205F}' || c == '\U{3000}'
  }

  function LowerChar(c: char): char {
    if 'A' <= c <= 'Z' then (c as int + 32) as char else c
  }

  /**
   * ASCII lower-casing. Python's `str.lower()` is Unicode-wide, but no character outside
   * A..Z lower-cases to a single ASCII letter used in the names this model compares with,
   * so for those membership tests the two agree.
   */
  function Lower(s: string): string {
    if s == [] then [] else [LowerChar(s[0])] + Lower(s[1..])
  }

  /** Lower-casing keeps the length and maps every character. */
  lemma {:induction false} LowerFacts(s: string)
    ensures |Lower(s)| == |s|
    ensures forall i :: 0 <= i < |s| ==> Lower(s)[i] == LowerChar(s[i])
    decreases |s|
  {
    if s != [] {
      LowerFacts(s[1..]);
    }
  }

  function TrimLeft(s: string): string {
    if s != [] && IsSpace(s[0]) then TrimLeft(s[1..]) else s
  }

  /** Trimming on the left keeps a suffix that does not start with whitespace. */
  lemma {:induction false} TrimLeftFacts(s: string)
    ensures |TrimLeft(s)| <= |s| && TrimLeft(s) == s[|s| - |TrimLeft(s)|..]
    ensures TrimLeft(s) == [] || !IsSpace(TrimLeft(s)[0])
    decreases |s|
  {
    if s != [] && IsSpace(s[0]) {
      TrimLeftFacts(s[1..]);
    }
  }

  function TrimRight(s: string): string {
    if s != [] && IsSpace(s[|s| - 1]) then TrimRight(s[..|s| - 1]) else s
  }

  /** Trimming on the right keeps a prefix that does not end with whitespace. */
  lemma {:induction false} TrimRightFacts(s: string)
    ensures |TrimRight(s)| <= |s| && TrimRight(s) == s[..|TrimRight(s)|]
    ensures TrimRight(s) == [] || !IsSpace(TrimRight(s)[|TrimRight(s)| - 1])
    decreases |s|
  {
    if s != [] && IsSpace(s[|s| - 1]) {
      TrimRightFacts(s[..|s| - 1]);
    }
  }

  /** Python's `str.strip()` with no argument: no leading or trailing whitespace remains. */
  function Strip(s: string): (r: string)
    ensures r == [] || (!IsSpace(r[0]) && !IsSpace(r[|r| - 1]))
  {
    var l := TrimLeft(s);
    TrimLeftFacts(s);
    TrimRightFacts(l);
    TrimRight(l)
  }

  function DigitChar(d: nat): char
    requires d < 10
  {
    ('0' as int + d) as char
  }

  predicate IsDigitChar(c: char) {
    '0' <= c <= '9'
  }

  /** Python's `str(n)` for a non-negative integer. */
  function NatToString(n: nat): (r: string)
    ensures |r| > 0
    ensures forall i :: 0 <= i < |r| ==> IsDigitChar(r[i])
    decreases n
  {
    if n < 10 then [DigitChar(n)] else NatToString(n / 10) + [DigitChar(n % 10)]
  }

  lemma NatToStringLong(n: nat)
    requires n >= 10
    ensures |NatToString(n)| >= 2
  {
  }

  /** Different numbers print differently. */
  lemma {:induction false} NatToStringInjective(a: nat, b: nat)
    requires NatToString(a) == NatToString(b)
    ensures a == b
    decreases a
  {
    if a < 10 && b < 10 {
      assert NatToString(a)[0] == NatToString(b)[0];
    } else if a < 10 {
      NatToStringLong(b);
    } else if b < 10 {
      NatToStringLong(a);
    } else {
      var sa := NatToString(a);
      var sb := NatToString(b);
      assert sa[|sa| - 1] == sb[|sb| - 1];
      assert DigitChar(a % 10) == DigitChar(b % 10);
      assert sa[..|sa| - 1] == NatToString(a / 10);
      assert sb[..|sb| - 1] == NatToString(b / 10);
      NatToStringInjective(a / 10, b / 10);
    }
  }

  /** Python's `a <= b` on strings: code point by code point, a proper prefix first. */
  predicate StrLe(a: string, b: string) {
    if a == [] then true
    else if b == [] then false
    else if a[0] != b[0] then a[0] < b[0]
    else StrLe(a[1..], b[1..])
  }

  /** Any two strings are ordered one way or the other. */
  lemma {:induction false} StrLeTotal(a: string, b: string)
    ensures StrLe(a, b) || StrLe(b, a)
    decreases |a|
  {
    if a != [] && b != [] && a[0] == b[0] {
      StrLeTotal(a[1..], b[1..]);
    }
  }

  lemma {:induction false} StrLeTransitive(a: string, b: string, c: string)
    requires StrLe(a, b) && StrLe(b, c)
    ensures StrLe(a, c)
    decreases |a|
  {
    if a != [] && b != [] && c != [] && a[0] == b[0] && b[0] == c[0] {
      StrLeTransitive(a[1..], b[1..], c[1..]);
    }
  }

  predicate StartsWith(s: string, prefix: string) {
    |prefix| <= |s| && s[..|prefix|] == prefix
  }

  /** Python's `str.replace(',', '.')`. */
  function ReplaceComma(s: string): (r: string)
    ensures |r| == |s|
    ensures forall i :: 0 <= i < |s| ==> r[i] == (if s[i] == ',' then '.' else s[i])
  {
    if s == [] then [] else [if s[0] == ',' then '.' else s[0]] + ReplaceComma(s[1..])
  }

  /** After the replacement no comma is left, and a string without commas is unchanged. */
  lemma ReplaceCommaFacts(s: string)
    ensures ',' !in ReplaceComma(s)
    ensures ',' !in s ==> ReplaceComma(s) == s
  {
    var r := ReplaceComma(s);
    assert forall i :: 0 <= i < |r| ==> r[i] != ',';
    assert ',' !in s ==> forall i :: 0 <= i < |s| ==> s[i] != ',';
  }
}
