/**
 * Decimal text of integers as `Long.toString` / `Integer.toString` (and string
 * concatenation of a long) write it, and its inverse.
 */
module Decimal {
  import opened Results

  predicate IsDigit(c: char) { '0' <= c <= '9' }

  predicate AllDigits(s: string) {
    forall i :: 0 <= i < |s| ==> IsDigit(s[i])
  }

  function DigitChar(d: nat): char
    requires d < 10
  {
    ('0' as int + d) as char
  }

  function DigitValue(c: char): nat
    requires IsDigit(c)
  {
    c as int - '0' as int
  }

  function Pow10(k: nat): (p: nat)
    ensures p >= 1
  {
    if k == 0 then 1 else 10 * Pow10(k - 1)
  }

  /** The digits of `n`, most significant first, without leading zeros. */
  function NatToString(n: nat): string
    decreases n
  {
    if n < 10 then [DigitChar(n)] else NatToString(n / 10) + [DigitChar(n % 10)]
  }

  /** `Long.toString`: a minus sign for negative values, then the digits of the magnitude. */
  function IntToString(n: int): string {
    if n < 0 then "-" + NatToString(-n) else NatToString(n)
  }

  /** The value of a string of decimal digits. */
  function ParseDigits(s: string): nat
    requires AllDigits(s)
  {
    if s == [] then 0 else 10 * ParseDigits(s[..|s| - 1]) + DigitValue(s[|s| - 1])
  }

  /** Reads back what IntToString writes: an optional minus sign and at least one digit. */
  function ParseInt(s: string): Option<int> {
    if |s| > 0 && AllDigits(s) then Some(ParseDigits(s))
    else if |s| > 1 && s[0] == '-' && AllDigits(s[1..]) then Some(0 - ParseDigits(s[1..]))
    else None
  }

  lemma DigitRoundTrip(d: nat)
    requires d < 10
    ensures IsDigit(DigitChar(d)) && DigitValue(DigitChar(d)) == d
  {
  }

  /** NatToString writes only digits, at least one, and they read back as `n`. */
  lemma {:induction false} NatToStringRoundTrip(n: nat)
    ensures |NatToString(n)| >= 1 && AllDigits(NatToString(n))
    ensures ParseDigits(NatToString(n)) == n
    decreases n
  {
    var s := NatToString(n);
    if n < 10 {
      DigitRoundTrip(n);
      assert s[..0] == [];
    } else {
      NatToStringRoundTrip(n / 10);
      DigitRoundTrip(n % 10);
      assert s[..|s| - 1] == NatToString(n / 10);
    }
  }

  /** `n` has exactly k + 1 digits when 10^k <= n < 10^(k+1). */
  lemma {:induction false} NatToStringLength(n: nat, k: nat)
    requires Pow10(k) <= n < Pow10(k + 1) || (n == 0 && k == 0)
    ensures |NatToString(n)| == k + 1
    decreases n
  {
    if k == 0 {
      if n >= 10 {
        assert false;
      }
    } else {
      if n < 10 {
        assert false;
      }
      NatToStringLength(n / 10, k - 1);
    }
  }

  /** A digit string of length k is worth less than 10^k. */
  lemma {:induction false} ParseDigitsBound(s: string)
    requires AllDigits(s)
    ensures ParseDigits(s) < Pow10(|s|)
  {
    if s != [] {
      ParseDigitsBound(s[..|s| - 1]);
    }
  }

  /** Reading the leading digit separately: s = d · 10^(|s|-1) + rest. */
  lemma ScaleLeading(a: int, q: int, x: int, last: int)
    ensures 10 * (a * q + x) + last == a * (10 * q) + (10 * x + last)
  {
    assert 10 * (a * q) == a * (10 * q);
  }

  lemma {:induction false} ParseDigitsFirst(s: string)
    requires AllDigits(s) && |s| >= 1
    ensures ParseDigits(s) == DigitValue(s[0]) * Pow10(|s| - 1) + ParseDigits(s[1..])
  {
    var p := s[..|s| - 1];
    if |p| == 0 {
      assert s[1..] == [];
      assert ParseDigits(p) == 0;
    } else {
      ParseDigitsFirst(p);
      var r := s[1..];
      assert r[..|r| - 1] == p[1..] && r[|r| - 1] == s[|s| - 1];
      assert p[0] == s[0];
      var a := DigitValue(s[0]);
      var q := Pow10(|p| - 1);
      var x := ParseDigits(p[1..]);
      var last := DigitValue(s[|s| - 1]);
      assert ParseDigits(s) == 10 * (a * q + x) + last;
      assert ParseDigits(r) == 10 * x + last;
      assert Pow10(|s| - 1) == 10 * q;
      ScaleLeading(a, q, x, last);
    }
  }

  /** Leading zeros do not change the value. */
  lemma LeadingZero(s: string)
    requires AllDigits(s)
    ensures AllDigits("0" + s) && ParseDigits("0" + s) == ParseDigits(s)
  {
    ParseDigitsFirst("0" + s);
    assert ("0" + s)[1..] == s;
  }

  /** ParseInt inverts IntToString on every integer. */
  lemma IntToStringRoundTrip(n: int)
    ensures ParseInt(IntToString(n)) == Some(n)
  {
    if n < 0 {
      NatToStringRoundTrip(-n);
      var s := IntToString(n);
      assert s[1..] == NatToString(-n);
      assert !IsDigit(s[0]);
    } else {
      NatToStringRoundTrip(n);
    }
  }
}
