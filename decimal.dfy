/** Decimal text of integers, as produced by Java's `String.valueOf(int)` and by
    JavaScript template literals for integer numbers, together with the parser
    that inverts it. */
module Decimal {

  predicate IsDigit(c: char) {
    '0' <= c <= '9'
  }

  predicate IsDigits(s: string) {
    forall i :: 0 <= i < |s| ==> IsDigit(s[i])
  }

  /** Text that `ParseInt` reads: an optional minus sign followed by at least one digit. */
  predicate IsIntegerText(s: string) {
    s != [] && if s[0] == '-' then |s| > 1 && IsDigits(s[1..]) else IsDigits(s)
  }

  /** The text `IntToDecimal` produces: integer text with no leading zero, where
      zero is written "0" and never "-0". */
  predicate IsCanonicalIntegerText(s: string) {
    && IsIntegerText(s)
    && (s[0] == '0' ==> s == "0")
    && (s[0] == '-' ==> s[1] != '0')
  }

  function DigitChar(d: nat): (c: char)
    requires d < 10
    ensures IsDigit(c)
  {
    ('0' as int + d) as char
  }

  function DigitValue(c: char): (d: nat)
    requires IsDigit(c)
    ensures d < 10 && DigitChar(d) == c
  {
    c as int - '0' as int
  }

  /** The digits of `n`, most significant first, without leading zeros. */
  function NatToDecimal(n: nat): (s: string)
    ensures s != [] && IsDigits(s)
    ensures s[0] == '0' ==> n == 0
    decreases n
  {
    if n < 10 then [DigitChar(n)] else NatToDecimal(n / 10) + [DigitChar(n % 10)]
  }

  /** `String.valueOf(n)`: a minus sign for negative values, then the digits of |n|. */
  function IntToDecimal(n: int): (s: string)
    ensures IsCanonicalIntegerText(s)
    ensures s[0] == '-' <==> n < 0
  {
    if n < 0 then "-" + NatToDecimal(-n) else NatToDecimal(n)
  }

  /** The value of a string of digits (the empty string has value 0). */
  function ParseDigits(s: string): nat
    requires IsDigits(s)
    decreases |s|
  {
    if s == [] then 0 else ParseDigits(s[..|s| - 1]) * 10 + DigitValue(s[|s| - 1])
  }

  /** The integer an `IsIntegerText` string denotes. */
  function ParseInt(s: string): int
    requires IsIntegerText(s)
  {
    if s[0] == '-' then 0 - ParseDigits(s[1..]) as int else ParseDigits(s)
  }

  lemma {:induction false} ParseNatToDecimal(n: nat)
    ensures ParseDigits(NatToDecimal(n)) == n
    decreases n
  {
    if n >= 10 {
      var s := NatToDecimal(n / 10);
      ParseNatToDecimal(n / 10);
      assert (s + [DigitChar(n % 10)])[..|s|] == s;
    }
  }

  /** Parsing the text of any integer gives back that integer. */
  lemma ParseIntToDecimal(n: int)
    ensures ParseInt(IntToDecimal(n)) == n
  {
    if n < 0 {
      assert IntToDecimal(n)[1..] == NatToDecimal(-n);
      ParseNatToDecimal(-n);
    } else {
      ParseNatToDecimal(n);
    }
  }

  /** A digit string without a leading zero is the text of its own value. */
  lemma {:induction false} CanonicalDigits(s: string)
    requires s != [] && IsDigits(s) && (s[0] == '0' ==> |s| == 1)
    ensures NatToDecimal(ParseDigits(s)) == s
    decreases |s|
  {
    if |s| > 1 {
      var init := s[..|s| - 1];
      CanonicalDigits(init);
      assert init[0] == s[0];
      var n := ParseDigits(s);
      assert ParseDigits(init) != 0;
      assert n / 10 == ParseDigits(init) && n % 10 == DigitValue(s[|s| - 1]);
      assert s == init + [s[|s| - 1]];
    }
  }

  /** Canonical text is exactly the text of the integer it denotes, so an integer
      has no other canonical spelling. */
  lemma CanonicalTextUnique(s: string)
    requires IsCanonicalIntegerText(s)
    ensures IntToDecimal(ParseInt(s)) == s
  {
    if s[0] == '-' {
      CanonicalDigits(s[1..]);
      assert ParseDigits(s[1..]) != 0;
      assert s == "-" + s[1..];
    } else {
      CanonicalDigits(s);
    }
  }

  /** Distinct natural numbers have distinct digit strings. */
  lemma NatToDecimalInjective(a: nat, b: nat)
    ensures NatToDecimal(a) == NatToDecimal(b) ==> a == b
  {
    ParseNatToDecimal(a);
    ParseNatToDecimal(b);
  }
}
