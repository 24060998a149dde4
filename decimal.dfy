/**
  Decimal text of integers, as the score line shows it (`str(score)`), with a
  parser as its partner: printing then parsing gives the number back, and
  parsing then printing gives back any canonical numeral.
*/
module Decimal {

  predicate IsDigit(c: char) { '0' <= c <= '9' }

  predicate AllDigits(s: string) {
    forall i | 0 <= i < |s| :: IsDigit(s[i])
  }

  /** A numeral as `str` writes it: non-empty digits, no leading zero unless it is "0". */
  predicate Canonical(s: string) {
    |s| >= 1 && AllDigits(s) && (s[0] == '0' ==> |s| == 1)
  }

  function DigitValue(c: char): (d: nat)
    requires IsDigit(c)
    ensures d < 10
  {
    (c as int) - ('0' as int)
  }

  function DigitChar(d: nat): (c: char)
    requires d < 10
    ensures IsDigit(c) && DigitValue(c) == d
  {
    (('0' as int) + d) as char
  }

  /** The decimal numeral of a natural number, most significant digit first. */
  function NatToDecimal(n: nat): (s: string)
    ensures Canonical(s)
    ensures (s[0] == '0') <==> n == 0
    ensures n < 10 <==> |s| == 1
    decreases n
  {
    if n < 10 then [DigitChar(n)] else NatToDecimal(n / 10) + [DigitChar(n % 10)]
  }

  /** The value of a string of digits, read most significant digit first. */
  function DecimalValue(s: string): nat
    requires AllDigits(s)
    decreases |s|
  {
    if s == [] then 0 else 10 * DecimalValue(s[..|s| - 1]) + DigitValue(s[|s| - 1])
  }

  /** Reading back the numeral of `n` gives `n`. */
  lemma {:induction false} NatRoundTrip(n: nat)
    ensures DecimalValue(NatToDecimal(n)) == n
  {
    if n >= 10 {
      var s := NatToDecimal(n / 10);
      var t := s + [DigitChar(n % 10)];
      assert t[..|t| - 1] == s;
      NatRoundTrip(n / 10);
    }
  }

  /** A canonical numeral of two or more digits has a value of at least ten. */
  lemma {:induction false} LongNumeralValue(s: string)
    requires Canonical(s) && |s| >= 2
    ensures DecimalValue(s) >= 10
  {
    var p := s[..|s| - 1];
    assert p[0] == s[0];
    if |p| >= 2 {
      LongNumeralValue(p);
    } else {
      assert DigitValue(p[0]) >= 1;
    }
  }

  /** Printing the value of a canonical numeral gives the numeral back. */
  lemma {:induction false} CanonicalRoundTrip(s: string)
    requires Canonical(s)
    ensures NatToDecimal(DecimalValue(s)) == s
  {
    if |s| == 1 {
      assert s[..0] == [];
      assert s == [DigitChar(DigitValue(s[0]))];
    } else {
      var p := s[..|s| - 1];
      assert p[0] == s[0];
      assert Canonical(p);
      CanonicalRoundTrip(p);
      LongNumeralValue(s);
      var n := DecimalValue(s);
      assert n / 10 == DecimalValue(p) && n % 10 == DigitValue(s[|s| - 1]);
      assert s == p + [s[|s| - 1]];
    }
  }

  /** `str(n)` for any integer: a minus sign before the digits of a negative number. */
  function IntToDecimal(n: int): (s: string)
    ensures |s| >= 1
    ensures (s[0] == '-') <==> n < 0
    ensures n >= 0 ==> Canonical(s)
  {
    if n < 0 then "-" + NatToDecimal(-n) else NatToDecimal(n)
  }

  /** The signed numerals `IntToDecimal` writes. */
  predicate SignedNumeral(s: string) {
    |s| >= 1 && (if s[0] == '-' then |s| >= 2 && AllDigits(s[1..]) else AllDigits(s))
  }

  /** The value of a signed numeral. */
  function DecimalToInt(s: string): int
    requires SignedNumeral(s)
  {
    if s[0] == '-' then -(DecimalValue(s[1..]) as int) else DecimalValue(s)
  }

  /** Parsing the text of any integer gives that integer back. */
  lemma IntRoundTrip(n: int)
    ensures SignedNumeral(IntToDecimal(n)) && DecimalToInt(IntToDecimal(n)) == n
  {
    if n < 0 {
      var t := NatToDecimal(-n);
      var s := "-" + t;
      assert s[1..] == t;
      assert s[0] == '-' && |s| >= 2 && AllDigits(t);
      NatRoundTrip(-n);
      assert DecimalToInt(s) == -(DecimalValue(t) as int);
    } else {
      var s := NatToDecimal(n);
      assert IsDigit(s[0]);
      NatRoundTrip(n);
    }
  }

  /** Hence different integers are written differently. */
  lemma IntToDecimalInjective(a: int, b: int)
    requires IntToDecimal(a) == IntToDecimal(b)
    ensures a == b
  {
    IntRoundTrip(a);
    IntRoundTrip(b);
  }
}
