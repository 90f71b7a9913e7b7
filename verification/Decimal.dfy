/** Decimal printing of integers (`str(n)`) and reading it back. */
module Decimal {

  predicate IsDigit(c: char) {
    '0' <= c <= '9'
  }

  predicate AllDigits(s: string) {
    forall i :: 0 <= i < |s| ==> IsDigit(s[i])
  }

  function DigitOf(c: char): (d: nat)
    requires IsDigit(c)
  {
    c as int - '0' as int
  }

  function CharOf(d: nat): (c: char)
    requires d < 10
    ensures IsDigit(c) && DigitOf(c) == d
  {
    ('0' as int + d) as char
  }

  /** The ten digits in order. */
  lemma Digits(d: nat)
    requires d < 10
    ensures CharOf(d) == "0123456789"[d] && DigitOf("0123456789"[d]) == d
  {
  }

  function PrintNat(n: nat): (s: string)
    ensures s != "" && AllDigits(s)
    ensures n < 10 <==> |s| == 1
  {
    if n < 10 then [CharOf(n)] else PrintNat(n / 10) + [CharOf(n % 10)]
  }

  function Print(n: int): (s: string)
    ensures s != ""
  {
    if n < 0 then "-" + PrintNat(-n) else PrintNat(n)
  }

  /** The number a string of digits denotes. */
  function Value(s: string): nat
    requires AllDigits(s)
  {
    if s == "" then 0 else 10 * Value(s[..|s| - 1]) + DigitOf(s[|s| - 1])
  }

  lemma {:induction false} ValuePrintNat(n: nat)
    ensures Value(PrintNat(n)) == n
  {
    if n >= 10 {
      ValuePrintNat(n / 10);
      assert PrintNat(n)[..|PrintNat(n)| - 1] == PrintNat(n / 10);
    }
  }

  /** Printed numbers have no leading zero, so every number has one decimal form. */
  lemma {:induction false} NoLeadingZero(n: nat)
    ensures PrintNat(n)[0] == '0' <==> n == 0
  {
    if n >= 10 {
      NoLeadingZero(n / 10);
    }
  }

  /** Larger numbers never print shorter. */
  lemma {:induction false} PrintNatLength(n: nat, m: nat)
    requires n <= m
    ensures |PrintNat(n)| <= |PrintNat(m)|
  {
    if n >= 10 {
      PrintNatLength(n / 10, m / 10);
    }
  }

  function Pow10(k: nat): (p: nat)
    ensures p > 0
  {
    if k == 0 then 1 else 10 * Pow10(k - 1)
  }

  lemma {:induction false} PrintPow10(k: nat)
    ensures |PrintNat(Pow10(k))| == k + 1
  {
    if k > 0 {
      PrintPow10(k - 1);
    }
  }
}
