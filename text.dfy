/**
 * The string operations the Kotlin code relies on: `isBlank`, `trim`,
 * `isEmpty`, ASCII case folding for `lowercase()` and `equals(ignoreCase = true)`,
 * and decimal rendering of integers in string templates.
 */
module Text {

  /**
   * Kotlin's `Char.isWhitespace()` on the JVM: the characters Java calls
   * whitespace together with the Unicode space separators (including the
   * no-break spaces and the ideographic space U+3000).
   */
  predicate IsWhitespace(c: char) {
    || ('\t' <= c <= '\r')
    || ('\U{1C}' <= c <= ' ')
    || c == '\U{A0}' || c == '\U{1680}'
    || ('\U{2000}' <= c <= '\U{200A}')
    || c == '\U{2028}' || c == '\U{2029}' || c == '\U{202F}' || c == '\U{205F}'
    || c == '\U{3000}'
  }

  /** `CharSequence.isBlank()`: empty, or whitespace only. */
  predicate IsBlank(s: string) {
    forall i :: 0 <= i < |s| ==> IsWhitespace(s[i])
  }

  /** The number of whitespace characters at the start of `s`. */
  function LeadingWhitespace(s: string): (k: nat)
    ensures k <= |s|
    ensures IsBlank(s[..k])
    ensures k < |s| ==> !IsWhitespace(s[k])
  {
    if |s| > 0 && IsWhitespace(s[0]) then 1 + LeadingWhitespace(s[1..]) else 0
  }

  /** The number of whitespace characters at the end of `s`. */
  function TrailingWhitespace(s: string): (k: nat)
    ensures k <= |s|
    ensures IsBlank(s[|s| - k..])
    ensures k < |s| ==> !IsWhitespace(s[|s| - k - 1])
  {
    if |s| > 0 && IsWhitespace(s[|s| - 1]) then 1 + TrailingWhitespace(s[..|s| - 1]) else 0
  }

  /** Kotlin's `String.trim()`: drops leading and trailing whitespace. */
  function Trim(s: string): (r: string)
    ensures |r| <= |s|
    ensures |r| > 0 ==> !IsWhitespace(r[0]) && !IsWhitespace(r[|r| - 1])
    ensures r == [] <==> IsBlank(s)
  {
    var i := LeadingWhitespace(s);
    TrailingOfSuffix(s, i);
    var k := TrailingWhitespace(s[i..]);
    TrimCut(s, i, k);
    s[i..|s| - k]
  }

  /** What `trim()` keeps is the part of `s` between a blank prefix and a blank suffix. */
  lemma TrimIsSlice(s: string)
    ensures exists i, j :: 0 <= i <= j <= |s| && Trim(s) == s[i..j] && IsBlank(s[..i]) && IsBlank(s[j..])
  {
    var i := LeadingWhitespace(s);
    TrailingOfSuffix(s, i);
    var j := |s| - TrailingWhitespace(s[i..]);
    assert Trim(s) == s[i..j] && IsBlank(s[..i]) && IsBlank(s[j..]);
  }

  /** The trailing whitespace run of a suffix of `s`, read as positions of `s`. */
  lemma TrailingOfSuffix(s: string, i: nat)
    requires i <= |s|
    ensures var k := TrailingWhitespace(s[i..]);
            k <= |s| - i && IsBlank(s[|s| - k..]) && (k < |s| - i ==> !IsWhitespace(s[|s| - k - 1]))
  {
    var t := s[i..];
    var k := TrailingWhitespace(t);
    assert t[|t| - k..] == s[|s| - k..];
    if k < |t| {
      assert t[|t| - k - 1] == s[|s| - k - 1];
    }
  }

  /** Cutting a leading and a trailing whitespace run off `s` leaves a string that is empty exactly when `s` is blank. */
  lemma TrimCut(s: string, i: nat, k: nat)
    requires i <= |s| && IsBlank(s[..i]) && (i < |s| ==> !IsWhitespace(s[i]))
    requires k <= |s| - i && IsBlank(s[|s| - k..])
    requires k < |s| - i ==> !IsWhitespace(s[|s| - k - 1])
    ensures var r := s[i..|s| - k];
            (|r| > 0 ==> !IsWhitespace(r[0]) && !IsWhitespace(r[|r| - 1])) &&
            (r == [] <==> IsBlank(s))
  {
    if i + k == |s| {
      assert s[..i] == s;
    }
  }

  /** A string without surrounding whitespace is left alone by `trim`. */
  lemma {:induction false} TrimOfTrimmed(s: string)
    requires |s| > 0 ==> !IsWhitespace(s[0]) && !IsWhitespace(s[|s| - 1])
    ensures Trim(s) == s
  {
    if |s| > 0 {
      assert LeadingWhitespace(s) == 0;
      assert s[0..] == s;
      assert TrailingWhitespace(s) == 0;
    }
  }

  /** Trimming twice is trimming once. */
  lemma TrimIdempotent(s: string)
    ensures Trim(Trim(s)) == Trim(s)
  {
    TrimOfTrimmed(Trim(s));
  }

  /** Lower-cases an ASCII letter; every other character is kept. */
  function LowerChar(c: char): (d: char)
    ensures 'A' <= c <= 'Z' ==> 'a' <= d <= 'z' && d as int - c as int == 32
    ensures !('A' <= c <= 'Z') ==> d == c
  {
    if 'A' <= c <= 'Z' then (c as int + 32) as char else c
  }

  /** `String.lowercase()`, for the ASCII letters. */
  function Lowercase(s: string): (r: string)
    ensures |r| == |s|
    ensures forall i :: 0 <= i < |s| ==> r[i] == LowerChar(s[i])
  {
    seq(|s|, i requires 0 <= i < |s| => LowerChar(s[i]))
  }

  /** `String.equals(other, ignoreCase = true)`, for ASCII case differences. */
  predicate EqualsIgnoreCase(a: string, b: string) {
    Lowercase(a) == Lowercase(b)
  }

  /** The character for a decimal digit. */
  function DigitChar(d: nat): (c: char)
    requires d < 10
    ensures '0' <= c <= '9' && c as int - '0' as int == d
  {
    ('0' as int + d) as char
  }

  predicate IsDigits(s: string) {
    forall i :: 0 <= i < |s| ==> '0' <= s[i] <= '9'
  }

  /** The number a string of decimal digits denotes. */
  function DigitsValue(s: string): nat
    requires IsDigits(s)
  {
    if s == [] then 0 else DigitsValue(s[..|s| - 1]) * 10 + (s[|s| - 1] as int - '0' as int)
  }

  /** Decimal rendering of a natural number, as a string template prints it. */
  function NatToString(n: nat): (r: string)
    ensures |r| >= 1 && IsDigits(r)
    ensures r[0] == '0' ==> n == 0 && r == "0"
  {
    if n < 10 then [DigitChar(n)] else NatToString(n / 10) + [DigitChar(n % 10)]
  }

  /** Reading the digits back gives the number: the rendering is faithful. */
  lemma {:induction false} NatToStringValue(n: nat)
    ensures DigitsValue(NatToString(n)) == n
  {
    if n >= 10 {
      var r := NatToString(n);
      assert r[..|r| - 1] == NatToString(n / 10);
      NatToStringValue(n / 10);
    }
  }

  /** Two numbers never render the same. */
  lemma NatToStringInjective(m: nat, n: nat)
    requires NatToString(m) == NatToString(n)
    ensures m == n
  {
    NatToStringValue(m);
    NatToStringValue(n);
  }

  /** Decimal rendering of an integer, with a leading minus sign when negative. */
  function IntToString(i: int): (r: string)
    ensures |r| >= 1
    ensures i >= 0 ==> r == NatToString(i)
    ensures i < 0 ==> r[0] == '-' && r[1..] == NatToString(-i)
  {
    if i < 0 then "-" + NatToString(-i) else NatToString(i)
  }
}
