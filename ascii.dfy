/**
 * Character classes and case mapping as the X10 module relies on them:
 * the character classes `[a-zA-Z]` and `[0-9]` of its address pattern,
 * `str.upper()` on command names and house letters, and `int()` on a run
 * of decimal digits. Case mapping is ASCII-only.
 */
module Ascii {

  predicate IsLetter(c: char) {
    'A' <= c <= 'Z' || 'a' <= c <= 'z'
  }

  predicate IsDigit(c: char) {
    '0' <= c <= '9'
  }

  predicate AllDigits(s: string) {
    forall i | 0 <= i < |s| :: IsDigit(s[i])
  }

  function UpperChar(c: char): char {
    if 'a' <= c <= 'z' then (c as int - 32) as char else c
  }

  function LowerChar(c: char): char {
    if 'A' <= c <= 'Z' then (c as int + 32) as char else c
  }

  function Upper(s: string): (u: string)
    ensures |u| == |s|
  {
    seq(|s|, i requires 0 <= i < |s| => UpperChar(s[i]))
  }

  function Lower(s: string): (l: string)
    ensures |l| == |s|
  {
    seq(|s|, i requires 0 <= i < |s| => LowerChar(s[i]))
  }

  /** Lower-casing forgets a previous upper-casing, and vice versa. */
  lemma LowerOfUpper(s: string)
    ensures Lower(Upper(s)) == Lower(s)
    ensures Upper(Lower(s)) == Upper(s)
  {
  }

  /**
   * The longest prefix of `t` made of digits: what the greedy group
   * `([0-9]*)` captures when matching starts at the front of `t`.
   */
  function DigitPrefix(t: string): (d: string)
    ensures |d| <= |t| && d == t[..|d|] && AllDigits(d)
    ensures |d| < |t| ==> !IsDigit(t[|d|])
  {
    if t != [] && IsDigit(t[0]) then [t[0]] + DigitPrefix(t[1..]) else []
  }

  /** The digit run is empty exactly when `t` does not start with a digit. */
  lemma DigitPrefixEmpty(t: string)
    ensures DigitPrefix(t) == [] <==> t == [] || !IsDigit(t[0])
  {
  }

  function DigitValue(c: char): (v: nat)
    requires IsDigit(c)
    ensures v < 10
  {
    c as int - '0' as int
  }

  /** Python's `int(ds)` for a non-empty run of decimal digits (and 0 for the empty run). */
  function DecimalValue(ds: string): nat
    requires AllDigits(ds)
  {
    if ds == [] then 0 else DecimalValue(ds[..|ds| - 1]) * 10 + DigitValue(ds[|ds| - 1])
  }

  function DigitChar(v: nat): (c: char)
    requires v < 10
    ensures IsDigit(c) && DigitValue(c) == v
  {
    ('0' as int + v) as char
  }

  /** Python's `str(n)` for a natural number: its decimal digits, without leading zeros. */
  function DecimalString(n: nat): (s: string)
    ensures s != [] && AllDigits(s)
  {
    if n < 10 then [DigitChar(n)] else DecimalString(n / 10) + [DigitChar(n % 10)]
  }

  /** `int(str(n)) == n`. */
  lemma {:induction false} DecimalRoundTrip(n: nat)
    ensures DecimalValue(DecimalString(n)) == n
  {
    var s := DecimalString(n);
    if n >= 10 {
      DecimalRoundTrip(n / 10);
      assert s[..|s| - 1] == DecimalString(n / 10);
    }
  }
}
