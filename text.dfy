/**
 * The few pieces of Rust string handling the scoring code relies on:
 * substring search (`str::contains`), decimal rendering of integers
 * (`{}` in `format!`), ASCII digit tests and ASCII lower-casing.
 */
module Text {

  /** Rust's `char::is_ascii_digit`. */
  predicate IsAsciiDigit(c: char) {
    '0' <= c <= '9'
  }

  /** The digit character for `d`. */
  function DigitChar(d: nat): (c: char)
    requires d < 10
    ensures IsAsciiDigit(c)
  {
    (48 + d) as char
  }

  /** The value of an ASCII digit character. */
  function DigitValue(c: char): (d: nat)
    requires IsAsciiDigit(c)
    ensures d < 10
  {
    c as int - 48
  }

  /** `s` begins with `prefix` (Rust's `str::starts_with`). */
  predicate StartsWith(s: string, prefix: string) {
    |prefix| <= |s| && s[..|prefix|] == prefix
  }

  /** Executable substring test, the model of Rust's `str::contains(&str)`. */
  predicate Contains(s: string, needle: string)
    decreases |s|
  {
    StartsWith(s, needle) || (|s| > 0 && Contains(s[1..], needle))
  }

  /** Reference definition: `needle` occurs in `s` starting at index `i`. */
  ghost predicate OccursAt(s: string, needle: string, i: int) {
    0 <= i && i + |needle| <= |s| && s[i..i + |needle|] == needle
  }

  /** The executable test agrees with the reference definition, in both directions. */
  lemma {:induction false} ContainsIff(s: string, needle: string)
    ensures Contains(s, needle) <==> exists i :: OccursAt(s, needle, i)
    decreases |s|
  {
    if StartsWith(s, needle) {
      assert OccursAt(s, needle, 0);
    } else if |s| > 0 {
      ContainsIff(s[1..], needle);
      if Contains(s[1..], needle) {
        var i :| OccursAt(s[1..], needle, i);
        assert s[i + 1..i + 1 + |needle|] == s[1..][i..i + |needle|];
        assert OccursAt(s, needle, i + 1);
      }
      if exists i :: OccursAt(s, needle, i) {
        var i :| OccursAt(s, needle, i);
        assert i != 0;
        assert s[1..][i - 1..i - 1 + |needle|] == s[i..i + |needle|];
        assert OccursAt(s[1..], needle, i - 1);
      }
    }
  }

  /** Decimal rendering of a natural number. */
  function NatToString(n: nat): (s: string)
    decreases n
  {
    if n < 10 then [DigitChar(n)] else NatToString(n / 10) + [DigitChar(n % 10)]
  }

  /** Decimal rendering of an integer, as Rust's `Display` for `i32` writes it. */
  function IntToString(n: int): (s: string) {
    if n < 0 then "-" + NatToString(-n) else NatToString(n)
  }

  /** Every character is a digit. */
  predicate AllDigits(s: string) {
    forall i :: 0 <= i < |s| ==> IsAsciiDigit(s[i])
  }

  /** The value of a string of decimal digits, read left to right. */
  function DecimalValue(s: string): nat
    requires AllDigits(s)
    decreases |s|
  {
    if s == [] then 0 else DecimalValue(s[..|s| - 1]) * 10 + DigitValue(s[|s| - 1])
  }

  /** The rendering of a natural number is a non-empty string of digits. */
  lemma {:induction false} NatToStringDigits(n: nat)
    ensures |NatToString(n)| > 0 && AllDigits(NatToString(n))
    decreases n
  {
    if n >= 10 {
      NatToStringDigits(n / 10);
    }
  }

  /** Reading back the decimal rendering gives the number: the rendering loses nothing. */
  lemma {:induction false} NatToStringRoundTrip(n: nat)
    ensures AllDigits(NatToString(n)) && DecimalValue(NatToString(n)) == n
    decreases n
  {
    NatToStringDigits(n);
    var s := NatToString(n);
    if n >= 10 {
      NatToStringRoundTrip(n / 10);
      assert s[..|s| - 1] == NatToString(n / 10);
      assert s[|s| - 1] == DigitChar(n % 10);
    }
  }

  /** An integer's rendering uses only digits and a leading minus sign. */
  lemma IntToStringAlphabet(n: int)
    ensures |IntToString(n)| > 0
    ensures IsAsciiDigit(IntToString(n)[0]) || IntToString(n)[0] == '-'
    ensures forall i :: 0 <= i < |IntToString(n)| ==>
              IsAsciiDigit(IntToString(n)[i]) || IntToString(n)[i] == '-'
  {
    if n < 0 {
      NatToStringDigits(-n);
    } else {
      NatToStringDigits(n);
    }
  }

  /** ASCII lower-casing of one character. */
  function AsciiLower(c: char): char {
    if 'A' <= c <= 'Z' then (c as int + 32) as char else c
  }

  /** An ASCII capital letter. */
  predicate IsAsciiUpper(c: char) {
    'A' <= c <= 'Z'
  }

  /**
   * ASCII lower-casing of a string: no capital is left, every capital
   * becomes the letter 32 code points above it, and everything else is kept.
   */
  function Lower(s: string): (r: string)
    ensures |r| == |s|
    ensures forall i :: 0 <= i < |r| ==> !IsAsciiUpper(r[i])
    ensures forall i :: 0 <= i < |s| && !IsAsciiUpper(s[i]) ==> r[i] == s[i]
    ensures forall i :: 0 <= i < |s| && IsAsciiUpper(s[i]) ==> r[i] as int == s[i] as int + 32
  {
    seq(|s|, i requires 0 <= i < |s| => AsciiLower(s[i]))
  }

  /** Two characters that are equal, or the same letter in the two ASCII cases. */
  predicate SameCharUpToCase(c: char, d: char) {
    c == d || (IsAsciiUpper(c) && d as int == c as int + 32) || (IsAsciiUpper(d) && c as int == d as int + 32)
  }

  /** Two strings that differ at most in the ASCII case of their letters. */
  predicate SameUpToCase(s: string, t: string) {
    |s| == |t| && forall i :: 0 <= i < |s| ==> SameCharUpToCase(s[i], t[i])
  }

  /** Two strings lower-case alike exactly when they differ at most in ASCII case. */
  lemma LowerEqualIff(s: string, t: string)
    ensures Lower(s) == Lower(t) <==> SameUpToCase(s, t)
  {
    if Lower(s) == Lower(t) {
      forall i | 0 <= i < |s|
        ensures SameCharUpToCase(s[i], t[i])
      {
        assert Lower(s)[i] == Lower(t)[i];
      }
    }
    if SameUpToCase(s, t) {
      forall i | 0 <= i < |s|
        ensures Lower(s)[i] == Lower(t)[i]
      {
        assert SameCharUpToCase(s[i], t[i]);
      }
    }
  }

  /** The larger of two indices (Rust's `usize::max`). */
  function Max(a: nat, b: nat): nat {
    if a >= b then a else b
  }

  /**
   * The remainder of Rust's `%` on signed integers: truncating division, so
   * the remainder takes the sign of the dividend.
   */
  function TruncatedRem(a: int, m: int): (r: int)
    requires m > 0
    ensures -m < r < m
    ensures (a - r) % m == 0
    ensures a >= 0 ==> r == a % m
    ensures a < 0 ==> r <= 0
  {
    if a >= 0 then
      ModUnique(a - a % m, m, a / m, 0);
      a % m
    else
      ModUnique(a + (-a) % m, m, -((-a) / m), 0);
      -((-a) % m)
  }

  /** The Euclidean remainder is the only one in range: x = m*q + r with 0 <= r < m fixes r. */
  lemma ModUnique(x: int, m: int, q: int, r: int)
    requires m > 0 && 0 <= r < m && x == m * q + r
    ensures x % m == r
  {
    var d := q - x / m;
    assert m * d == x % m - r;
  }

  /** Rust's `%` on a few signed operands: -3 % 2 is -1, -4 % 2 is 0, 3 % 2 is 1. */
  lemma TruncatedRemExamples()
    ensures TruncatedRem(-3, 2) == -1
    ensures TruncatedRem(-4, 2) == 0
    ensures TruncatedRem(3, 2) == 1
  {
  }
}
