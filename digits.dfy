/**
 * Decimal digit strings: the printer used for generated identifier suffixes
 * (`_loopCounter2`) and the parser used for line numbers read out of stack
 * traces (`parseInt(digits, 10)`).
 */
module Digits {

  predicate IsDigit(c: char) {
    '0' <= c <= '9'
  }

  predicate AllDigits(s: string) {
    forall i :: 0 <= i < |s| ==> IsDigit(s[i])
  }

  function DigitValue(c: char): (d: nat)
    requires IsDigit(c)
    ensures d < 10
  {
    c as int - '0' as int
  }

  function DigitChar(d: nat): (c: char)
    requires d < 10
    ensures IsDigit(c) && DigitValue(c) == d
  {
    ('0' as int + d) as char
  }

  function Pow10(k: nat): (p: nat)
    ensures p >= 1
  {
    if k == 0 then 1 else 10 * Pow10(k - 1)
  }

  /** The shortest decimal spelling of `n`, most significant digit first. */
  function Decimal(n: nat): (s: string)
    ensures |s| >= 1 && AllDigits(s)
  {
    if n < 10 then [DigitChar(n)] else Decimal(n / 10) + [DigitChar(n % 10)]
  }

  /**
   * The value of a digit string read in base 10; leading zeros are allowed.
   * A string of k digits denotes a number below 10^k.
   */
  function ParseDecimal(s: string): (n: nat)
    requires AllDigits(s)
    ensures n < Pow10(|s|)
  {
    if s == [] then 0 else 10 * ParseDecimal(s[..|s| - 1]) + DigitValue(s[|s| - 1])
  }

  /** Reading back a printed number gives the number. */
  lemma {:induction false} ParseDecimalOfDecimal(n: nat)
    ensures ParseDecimal(Decimal(n)) == n
  {
    var s := Decimal(n);
    if n >= 10 {
      ParseDecimalOfDecimal(n / 10);
      assert s[..|s| - 1] == Decimal(n / 10);
    }
  }

  /** 10^k is spelled with exactly k + 1 digits. */
  lemma {:induction false} DecimalOfPow10Length(k: nat)
    ensures |Decimal(Pow10(k))| == k + 1
  {
    if k > 0 {
      DecimalOfPow10Length(k - 1);
      var p := Pow10(k - 1);
      assert Pow10(k) == 10 * p;
      assert (10 * p) / 10 == p && (10 * p) % 10 == 0;
    }
  }
}
