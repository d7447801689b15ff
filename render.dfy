/**
  Decimal rendering of integers as Python's f-strings produce it: `str(n)`
  (a minus sign for negatives only) and the format `{n:+}` (a sign always).
  Each rendering is paired with a reader that recovers the number.
 */
module Render {

  predicate IsDigit(c: char) {
    '0' <= c <= '9'
  }

  predicate AllDigits(s: string) {
    forall i :: 0 <= i < |s| ==> IsDigit(s[i])
  }

  function DigitChar(d: nat): (c: char)
    requires d < 10
    ensures IsDigit(c) && c as int - '0' as int == d
  {
    "0123456789"[d]
  }

  /** The decimal digits of `n`, without leading zeros. */
  function NatToString(n: nat): (r: string)
    ensures |r| >= 1 && AllDigits(r)
    ensures r[0] == '0' ==> n == 0 && r == "0"
    decreases n
  {
    if n < 10 then [DigitChar(n)] else NatToString(n / 10) + [DigitChar(n % 10)]
  }

  /** The number a string of decimal digits denotes. */
  function DigitsValue(s: string): nat
    requires AllDigits(s)
  {
    if s == [] then 0
    else DigitsValue(s[..|s| - 1]) * 10 + (s[|s| - 1] as int - '0' as int)
  }

  lemma {:induction false} NatToStringRoundTrip(n: nat)
    ensures DigitsValue(NatToString(n)) == n
    decreases n
  {
    if n >= 10 {
      var r := NatToString(n);
      assert r[..|r| - 1] == NatToString(n / 10);
      NatToStringRoundTrip(n / 10);
    }
  }

  /** Python's `str(n)` for an integer. */
  function IntToString(n: int): (r: string)
  {
    if n < 0 then "-" + NatToString(-n) else NatToString(n)
  }

  /** Python's `f"{n:+}"` for an integer: `+` before zero and positives, `-` before negatives. */
  function SignedToString(n: int): (r: string)
  {
    (if n < 0 then "-" else "+") + NatToString(if n < 0 then -n else n)
  }

  /** Reads an optional sign followed by at least one digit. */
  function ParseInt(s: string): (r: int)
    requires |s| >= 1
    requires AllDigits(if s[0] == '-' || s[0] == '+' then s[1..] else s)
  {
    if s[0] == '-' then -(DigitsValue(s[1..]) as int)
    else if s[0] == '+' then DigitsValue(s[1..])
    else DigitsValue(s)
  }

  /** A minus sign followed by the digits of `m` reads back as `-m`. */
  lemma NegativeRoundTrip(m: nat)
    ensures var r := "-" + NatToString(m);
      && r[0] == '-' && AllDigits(r[1..]) && ParseInt(r) == -(m as int)
  {
    var digits := NatToString(m);
    var r := "-" + digits;
    assert r[1..] == digits;
    NatToStringRoundTrip(m);
  }

  /** The digits of `m` read back as `m`. */
  lemma DigitsRoundTrip(m: nat)
    ensures var r := NatToString(m);
      && IsDigit(r[0]) && ParseInt(r) == m
  {
    NatToStringRoundTrip(m);
  }

  /** `str(n)` loses nothing: it is a minus sign exactly for negatives, then digits, and reads back as `n`. */
  lemma IntToStringRoundTrip(n: int)
    ensures var r := IntToString(n);
      && (r[0] == '-' <==> n < 0)
      && AllDigits(if n < 0 then r[1..] else r)
      && ParseInt(r) == n
  {
    if n < 0 {
      NegativeRoundTrip(-n);
    } else {
      DigitsRoundTrip(n);
    }
  }

  /** `{n:+}` always starts with a sign that tells whether `n` is negative, and reads back as `n`. */
  lemma SignedToStringRoundTrip(n: int)
    ensures var r := SignedToString(n);
      && |r| >= 2
      && (r[0] == '+' <==> n >= 0)
      && (r[0] == '-' <==> n < 0)
      && AllDigits(r[1..])
      && ParseInt(r) == n
  {
    var r := SignedToString(n);
    assert r[1..] == NatToString(if n < 0 then -n else n);
    NatToStringRoundTrip(if n < 0 then -n else n);
  }
}
