/**
 * Decimal text for the integer sample values that the ThingSpeak upload
 * splices into its request line. The source concatenates numbers into
 * strings; for integral values of magnitude at most 2^53 that is plain
 * base-10 notation with a leading '-' for negatives, which is what
 * IntToString produces.
 */
module Decimal {

  /** The character of one decimal digit. */
  function DigitChar(d: nat): char
    requires d < 10
  {
    (('0' as int) + d) as char
  }

  predicate IsDigit(c: char) {
    '0' <= c <= '9'
  }

  predicate AllDigits(s: string) {
    forall i :: 0 <= i < |s| ==> IsDigit(s[i])
  }

  /** Canonical digits: non-empty, all digits, no leading zero unless the numeral is "0". */
  predicate IsNaturalNumeral(s: string) {
    |s| > 0 && AllDigits(s) && (|s| > 1 ==> s[0] != '0')
  }

  /** Canonical integer numeral: a natural numeral, or '-' followed by a non-zero natural numeral. */
  predicate IsNumeral(s: string) {
    IsNaturalNumeral(s) || (|s| > 1 && s[0] == '-' && IsNaturalNumeral(s[1..]) && s[1..] != "0")
  }

  /** The value that a string of digits denotes (most significant digit first). */
  function DigitsValue(s: string): nat
    requires AllDigits(s)
  {
    if s == [] then 0
    else 10 * DigitsValue(s[..|s| - 1]) + ((s[|s| - 1] as int) - ('0' as int))
  }

  /** The value of a canonical integer numeral. */
  function NumeralValue(s: string): int
    requires IsNumeral(s)
  {
    if IsNaturalNumeral(s) then DigitsValue(s) else -(DigitsValue(s[1..]) as int)
  }

  /**
   * The decimal text of a natural sample: one digit exactly when n < 10,
   * starting with a digit that is '0' only for "0", ending with the digit n % 10.
   */
  function NatToString(n: nat): (s: string)
    ensures |s| >= 1 && (|s| == 1 <==> n < 10)
    ensures IsDigit(s[0]) && (|s| > 1 ==> s[0] != '0')
    ensures s[|s| - 1] == DigitChar(n % 10)
    decreases n
  {
    if n < 10 then [DigitChar(n)] else NatToString(n / 10) + [DigitChar(n % 10)]
  }

  /**
   * The decimal text of an integer sample: a leading '-' exactly when n is
   * negative, a digit otherwise.
   */
  function IntToString(n: int): (s: string)
    ensures |s| >= 1 && (s[0] == '-' <==> n < 0)
  {
    if n < 0 then "-" + NatToString(-n) else NatToString(n)
  }

  /** NatToString writes a canonical numeral that reads back as n. */
  lemma {:induction false} NatToStringRoundTrip(n: nat)
    ensures IsNaturalNumeral(NatToString(n))
    ensures DigitsValue(NatToString(n)) == n
    decreases n
  {
    if n >= 10 {
      NatToStringRoundTrip(n / 10);
      var s := NatToString(n);
      var p := NatToString(n / 10);
      assert s == p + [DigitChar(n % 10)];
      assert s[..|s| - 1] == p;
    }
  }

  /** IntToString writes a canonical numeral that reads back as n. */
  lemma IntToStringRoundTrip(n: int)
    ensures IsNumeral(IntToString(n))
    ensures NumeralValue(IntToString(n)) == n
  {
    var s := IntToString(n);
    if n < 0 {
      NatToStringRoundTrip(-n);
      assert s[1..] == NatToString(-n);
      assert !IsNaturalNumeral(s) by { assert !IsDigit(s[0]); }
      assert s[1..] != "0";
    } else {
      NatToStringRoundTrip(n);
    }
  }

  /** A digit string whose first digit is not '0' denotes a positive number. */
  lemma {:induction false} LeadingNonZeroIsPositive(s: string)
    requires |s| > 0 && AllDigits(s) && s[0] != '0'
    ensures DigitsValue(s) > 0
    decreases |s|
  {
    if |s| > 1 {
      var p := s[..|s| - 1];
      assert p[0] == s[0];
      LeadingNonZeroIsPositive(p);
    }
  }

  /** Every canonical natural numeral is what NatToString writes for its value. */
  lemma {:induction false} NaturalNumeralIsWritten(s: string)
    requires IsNaturalNumeral(s)
    ensures NatToString(DigitsValue(s)) == s
    decreases |s|
  {
    var v := DigitsValue(s);
    var c := s[|s| - 1];
    if |s| == 1 {
      assert s == [c] && s[..|s| - 1] == [];
      assert v == 10 * DigitsValue(s[..|s| - 1]) + ((c as int) - ('0' as int));
      assert DigitChar(v) == c;
    } else {
      var p := s[..|s| - 1];
      assert p[0] == s[0];
      NaturalNumeralIsWritten(p);
      LeadingNonZeroIsPositive(p);
      var d := (c as int) - ('0' as int);
      assert v == 10 * DigitsValue(p) + d;
      assert v / 10 == DigitsValue(p) && v % 10 == d;
      assert DigitChar(d) == c;
      assert s == p + [c];
    }
  }

  /** Every canonical numeral is what IntToString writes for its value. */
  lemma NumeralIsWritten(s: string)
    requires IsNumeral(s)
    ensures IntToString(NumeralValue(s)) == s
  {
    if IsNaturalNumeral(s) {
      NaturalNumeralIsWritten(s);
    } else {
      var t := s[1..];
      NaturalNumeralIsWritten(t);
      LeadingNonZeroIsPositive(t);
      assert s == "-" + t;
    }
  }

  /** Distinct values are written as distinct numerals. */
  lemma IntToStringInjective(a: int, b: int)
    requires IntToString(a) == IntToString(b)
    ensures a == b
  {
    IntToStringRoundTrip(a);
    IntToStringRoundTrip(b);
  }
}
