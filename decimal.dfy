/**
 * The decimal rendering of a non-negative integer, as a Kotlin string
 * template (`"${n}"`) produces it, with the parser that inverts it.
 * The slot label of a card ("Slot 1", "Slot 2", ...) is built from it.
 */
module Decimal {

  predicate IsDigit(c: char) {
    '0' <= c <= '9'
  }

  predicate AllDigits(s: string) {
    forall i :: 0 <= i < |s| ==> IsDigit(s[i])
  }

  function DigitChar(d: nat): (c: char)
    requires d < 10
    ensures IsDigit(c)
  {
    ['0', '1', '2', '3', '4', '5', '6', '7', '8', '9'][d]
  }

  function DigitValue(c: char): (d: nat)
    requires IsDigit(c)
    ensures d < 10
    ensures DigitChar(d) == c
  {
    c as int - '0' as int
  }

  /** The shortest decimal numeral of `n`: digits only, no leading zero. */
  function DecimalString(n: nat): (s: string)
    ensures |s| >= 1 && AllDigits(s)
    ensures |s| > 1 ==> s[0] != '0'
    ensures n < 10 <==> |s| == 1
  {
    if n < 10 then [DigitChar(n)] else DecimalString(n / 10) + [DigitChar(n % 10)]
  }

  /** Reads a string of digits as a decimal numeral (the empty string reads as 0). */
  function ParseDecimal(s: string): (n: nat)
    requires AllDigits(s)
  {
    if s == [] then 0 else ParseDecimal(s[..|s| - 1]) * 10 + DigitValue(s[|s| - 1])
  }

  lemma {:induction false} ParseDecimalOfDecimal(n: nat)
    ensures ParseDecimal(DecimalString(n)) == n
  {
    var s := DecimalString(n);
    if n < 10 {
      assert s[..|s| - 1] == [];
    } else {
      ParseDecimalOfDecimal(n / 10);
      assert s[..|s| - 1] == DecimalString(n / 10);
      assert s[|s| - 1] == DigitChar(n % 10);
    }
  }

  /** Two different numbers never print the same. */
  lemma DecimalInjective(m: nat, n: nat)
    ensures DecimalString(m) == DecimalString(n) ==> m == n
  {
    ParseDecimalOfDecimal(m);
    ParseDecimalOfDecimal(n);
  }
}
