/**
 * The JavaScript string operations the chat widget relies on:
 * `String.prototype.trim`, `toLowerCase`, `includes`, and the decimal
 * rendering of a non-negative integer in a template literal.
 * Strings are sequences of Unicode scalar values.
 */
module JsString {

  // ---------------------------------------------------------------------------
  // trim()
  // ---------------------------------------------------------------------------

  /** The code points that `trim()` removes: ECMAScript WhiteSpace and LineTerminator. */
  predicate IsWhitespace(c: char) {
    c == '\t' || c == '\n' || c == '\U{000B}' || c == '\U{000C}' || c == '\r' || c == ' '
    || c == '\U{00A0}' || c == '\U{1680}' || ('\U{2000}' <= c <= '\U{200A}')
    || c == '\U{2028}' || c == '\U{2029}' || c == '\U{202F}' || c == '\U{205F}'
    || c == '\U{3000}' || c == '\U{FEFF}'
  }

  predicate AllWhitespace(s: string) {
    forall i :: 0 <= i < |s| ==> IsWhitespace(s[i])
  }

  /** `t` is `s[a..a + |t|]`, everything around it is whitespace, and `t` neither starts nor ends with whitespace. */
  predicate IsTrimOf(s: string, a: int, t: string) {
    && 0 <= a && a + |t| <= |s|
    && t == s[a..a + |t|]
    && AllWhitespace(s[..a])
    && AllWhitespace(s[a + |t|..])
    && (t != [] ==> !IsWhitespace(t[0]) && !IsWhitespace(t[|t| - 1]))
  }

  /** Drops leading whitespace. */
  function TrimStart(s: string): string {
    if s != [] && IsWhitespace(s[0]) then TrimStart(s[1..]) else s
  }

  /** Drops trailing whitespace. */
  function TrimEnd(s: string): string {
    if s != [] && IsWhitespace(s[|s| - 1]) then TrimEnd(s[..|s| - 1]) else s
  }

  /** `s.trim()`: whitespace removed from both ends. */
  function Trim(s: string): string {
    TrimEnd(TrimStart(s))
  }

  /** TrimStart removes exactly the leading run of whitespace. */
  lemma {:induction false} TrimStartSpec(s: string)
    ensures var r := TrimStart(s);
            && |r| <= |s| && r == s[|s| - |r|..]
            && AllWhitespace(s[..|s| - |r|])
            && (r != [] ==> !IsWhitespace(r[0]))
  {
    if s != [] && IsWhitespace(s[0]) {
      var t := s[1..];
      TrimStartSpec(t);
      var r := TrimStart(t);
      assert forall k :: 1 <= k < |s| - |r| ==> t[..|t| - |r|][k - 1] == s[k];
    }
  }

  /** TrimEnd removes exactly the trailing run of whitespace. */
  lemma {:induction false} TrimEndSpec(s: string)
    ensures var r := TrimEnd(s);
            && |r| <= |s| && r == s[..|r|]
            && AllWhitespace(s[|r|..])
            && (r != [] ==> !IsWhitespace(r[|r| - 1]))
  {
    if s != [] && IsWhitespace(s[|s| - 1]) {
      var t := s[..|s| - 1];
      TrimEndSpec(t);
      var r := TrimEnd(t);
      assert forall k :: |r| <= k < |s| - 1 ==> t[|r|..][k - |r|] == s[k];
    }
  }

  /**
   * `s.trim()` is an infix of `s` with only whitespace around it and no
   * whitespace at its ends; it is empty exactly when `s` is all whitespace.
   */
  lemma TrimSpec(s: string)
    ensures exists a :: IsTrimOf(s, a, Trim(s))
    ensures Trim(s) == [] <==> AllWhitespace(s)
  {
    var m := TrimStart(s);
    var r := TrimEnd(m);
    TrimStartSpec(s);
    TrimEndSpec(m);
    var a := |s| - |m|;
    assert r == s[a..a + |r|];
    assert s[a + |r|..] == m[|r|..];
    assert r == Trim(s);
    assert IsTrimOf(s, a, Trim(s));
    if r == [] {
      assert s == s[..a] + m;
    }
  }

  /** The trimmed text is determined by the shape IsTrimOf describes: any such infix is `Trim(s)`. */
  lemma TrimUnique(s: string, a: int, t: string)
    requires IsTrimOf(s, a, t)
    ensures t == Trim(s)
  {
    TrimSpec(s);
    var b :| IsTrimOf(s, b, Trim(s));
    SameTrim(s, a, t, b, Trim(s));
  }

  /** Two infixes of the trimmed shape coincide. */
  lemma SameTrim(s: string, a: int, t: string, b: int, u: string)
    requires IsTrimOf(s, a, t) && IsTrimOf(s, b, u)
    ensures t == u
  {
  }

  // ---------------------------------------------------------------------------
  // toLowerCase() and includes()
  // ---------------------------------------------------------------------------

  /**
   * Lower-casing of one code point, as far as it can create an ASCII letter:
   * A-Z and the KELVIN SIGN (U+212A, lower-cased to 'k'). Every other code
   * point is kept: no other case mapping can complete the word `thinking`
   * (U+0130 lowers to 'i' followed by a combining dot, never by 'n').
   */
  function Lower(c: char): char {
    if 'A' <= c <= 'Z' then (c as int + 32) as char
    else if c == '\U{212A}' then 'k'
    else c
  }

  /** `s.toLowerCase()`, restricted as described at Lower. */
  function ToLower(s: string): string {
    seq(|s|, i requires 0 <= i < |s| => Lower(s[i]))
  }

  /** `pat` occurs in `s` starting at index `i`. */
  predicate OccursAt(s: string, pat: string, i: int) {
    0 <= i && i + |pat| <= |s| && s[i..i + |pat|] == pat
  }

  /** `s.includes(pat)`: `pat` occurs somewhere in `s`. */
  predicate Includes(s: string, pat: string) {
    exists i | 0 <= i <= |s| - |pat| :: OccursAt(s, pat, i)
  }

  // ---------------------------------------------------------------------------
  // Decimal rendering of a number in a template literal
  // ---------------------------------------------------------------------------

  predicate IsDigit(c: char) { '0' <= c <= '9' }

  predicate AllDigits(s: string) {
    forall i :: 0 <= i < |s| ==> IsDigit(s[i])
  }

  function DigitChar(d: nat): (c: char)
    requires d < 10
  {
    (d + '0' as int) as char
  }

  /** `${n}` for a non-negative integer `n`: its decimal digits, most significant first. */
  function NumberToString(n: nat): (r: string)
    ensures r != [] && AllDigits(r)
    ensures r[0] == '0' ==> n == 0
    decreases n
  {
    if n < 10 then [DigitChar(n)] else NumberToString(n / 10) + [DigitChar(n % 10)]
  }

  /** The number a string of decimal digits denotes. */
  function DecimalValue(s: string): nat
    requires AllDigits(s)
  {
    if s == [] then 0 else 10 * DecimalValue(s[..|s| - 1]) + (s[|s| - 1] as int - '0' as int)
  }

  /** Reading back the digits of `${n}` gives `n`. */
  lemma {:induction false} DecimalRoundTrip(n: nat)
    ensures DecimalValue(NumberToString(n)) == n
    decreases n
  {
    var r := NumberToString(n);
    if n >= 10 {
      DecimalRoundTrip(n / 10);
      assert r[..|r| - 1] == NumberToString(n / 10);
    }
  }
}
