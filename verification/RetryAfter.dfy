/** `parse_retry_after`: the sanitised delay-seconds form of section 10.2.3 of RFC 9110.

    Python's `int()` accepts every Unicode decimal digit.  Which characters these are is left to a
    table `dv` (-1 for "not a digit"); everything below holds for every table that agrees with ASCII. */
module RetryAfter {
  import opened Results
  import opened Decimal
  import Text

  const DEFAULT := 1
  const MIN := 1
  const MAX := 60

  /** Longer digit strings make `int()` raise ValueError (Python 3.11 and later). */
  const MAX_STR_DIGITS := 4300

  ghost predicate DigitTable(dv: char -> int) {
    && (forall c: char :: -1 <= dv(c) <= 9)
    && (forall c: char :: IsDigit(c) ==> dv(c) == DigitOf(c))
    && dv('_') == dv('+') == dv('-') == -1
  }

  /** Digits with single underscores between them. */
  predicate IsDigitString(dv: char -> int, s: string) {
    && s != "" && dv(s[0]) >= 0 && dv(s[|s| - 1]) >= 0
    && forall i :: 0 < i < |s| ==> dv(s[i]) >= 0 || (s[i] == '_' && dv(s[i - 1]) >= 0)
  }

  /** Number of digits and denoted value of a digit string. */
  function Fold(dv: char -> int, s: string): (r: (nat, int)) {
    if s == "" then (0, 0)
    else
      var (n, v) := Fold(dv, s[..|s| - 1]);
      var d := dv(s[|s| - 1]);
      if d < 0 then (n, v) else (n + 1, 10 * v + d)
  }

  function ParseDigits(dv: char -> int, s: string): Option<int> {
    if !IsDigitString(dv, s) then None
    else
      var (n, v) := Fold(dv, s);
      if n > MAX_STR_DIGITS then None else Some(v)
  }

  /** `int(s)` for a stripped `s`; None stands for ValueError. */
  function ParseInt(dv: char -> int, s: string): Option<int> {
    if s != "" && s[0] == '+' then ParseDigits(dv, s[1..])
    else if s != "" && s[0] == '-' then
      var r := ParseDigits(dv, s[1..]);
      if r.Some? then Some(-r.value) else None
    else ParseDigits(dv, s)
  }

  function Clamp(n: int): int {
    var least := if n < MAX then n else MAX;
    if least < MIN then MIN else least
  }

  function ParseRetryAfter(dv: char -> int, header: Option<string>): (r: int)
    ensures 1 <= r <= 60
  {
    if header.None? || header.value == "" then DEFAULT
    else
      var parsed := ParseInt(dv, Text.Strip(header.value));
      if parsed.None? || parsed.value < 0 then DEFAULT else Clamp(parsed.value)
  }

  lemma {:induction false} FoldDigits(dv: char -> int, s: string)
    requires DigitTable(dv) && AllDigits(s)
    ensures Fold(dv, s) == (|s|, Value(s))
  {
    if s != "" {
      FoldDigits(dv, s[..|s| - 1]);
    }
  }

  /** `int()` reads a printed natural number, if it is short enough. */
  lemma ParsePrintedDigits(dv: char -> int, n: nat)
    requires DigitTable(dv)
    ensures ParseDigits(dv, PrintNat(n)) == if |PrintNat(n)| <= MAX_STR_DIGITS then Some(n) else None
  {
    FoldDigits(dv, PrintNat(n));
    ValuePrintNat(n);
  }

  /** Printed numbers contain no white space. */
  lemma StripPrinted(n: int)
    ensures Text.Strip(Print(n)) == Print(n)
  {
    var digits := PrintNat(if n < 0 then -n else n);
    assert IsDigit(digits[0]) && IsDigit(digits[|digits| - 1]);
    assert Text.Stripped(Print(n));
  }

  /** A printed number is read back exactly, up to the clamp, as long as `int()` accepts its length. */
  lemma ParsePrinted(dv: char -> int, n: nat)
    requires DigitTable(dv)
    ensures ParseRetryAfter(dv, Some(PrintNat(n)))
         == if |PrintNat(n)| <= MAX_STR_DIGITS then Clamp(n) else DEFAULT
  {
    StripPrinted(n);
    ParsePrintedDigits(dv, n);
    assert IsDigit(PrintNat(n)[0]);
    hide ParseDigits, Text.Strip, PrintNat, DigitTable;
  }

  lemma LongIsLarge(n: nat)
    requires |PrintNat(n)| > MAX_STR_DIGITS
    ensures n > MAX
  {
    assert |PrintNat(60)| == |PrintNat(6)| + 1;
    if n <= MAX {
      PrintNatLength(n, MAX);
    }
  }

  /** A printed delay from 1 to 60 is honoured as it is, zero is one second, more is a minute, and a number too long for
      `int()` is one second again. */
  lemma PrintedDelay(dv: char -> int, n: nat)
    requires DigitTable(dv)
    ensures 1 <= n <= 60 ==> ParseRetryAfter(dv, Some(PrintNat(n))) == n
    ensures n == 0 ==> ParseRetryAfter(dv, Some(PrintNat(n))) == 1
    ensures n > 60 && |PrintNat(n)| <= 4300 ==> ParseRetryAfter(dv, Some(PrintNat(n))) == 60
    ensures |PrintNat(n)| > 4300 ==> ParseRetryAfter(dv, Some(PrintNat(n))) == 1
  {
    ParsePrinted(dv, n);
    if n <= 60 {
      PrintNatLength(n, 60);
      assert |PrintNat(60)| == |PrintNat(6)| + 1;
    }
  }

  /** The header value is honoured, up to one minute and from one second, exactly when its printed form is short enough
      for `int()`. */
  lemma PrintedIsHonouredIff(dv: char -> int, n: nat)
    requires DigitTable(dv)
    ensures ParseRetryAfter(dv, Some(PrintNat(n))) == (if n == 0 then 1 else if n <= 60 then n else 60)
       <==> |PrintNat(n)| <= 4300
  {
    ParsePrinted(dv, n);
    if |PrintNat(n)| > MAX_STR_DIGITS {
      LongIsLarge(n);
    }
  }

  /** Exactly when a longer requested delay is not answered by a shorter one. */
  lemma MonotoneIff(dv: char -> int, n: nat, m: nat)
    requires DigitTable(dv) && n <= m
    ensures ParseRetryAfter(dv, Some(PrintNat(n))) <= ParseRetryAfter(dv, Some(PrintNat(m)))
       <==> |PrintNat(m)| <= 4300 || n <= 1 || |PrintNat(n)| > 4300
  {
    ParsePrinted(dv, n);
    ParsePrinted(dv, m);
    PrintNatLength(n, m);
  }

  /** The monotonicity one would expect fails: ten to the power 4300 is answered by 1, sixty by 60. */
  lemma NotMonotone(dv: char -> int)
    requires DigitTable(dv)
    ensures 60 < Pow10(4300)
    ensures ParseRetryAfter(dv, Some(PrintNat(60))) == 60
    ensures ParseRetryAfter(dv, Some(PrintNat(Pow10(4300)))) == 1
  {
    PrintPow10(MAX_STR_DIGITS);
    LongIsLarge(Pow10(MAX_STR_DIGITS));
    ParsePrinted(dv, 60);
    ParsePrinted(dv, Pow10(MAX_STR_DIGITS));
    assert |PrintNat(60)| == |PrintNat(6)| + 1;
  }

  /** Reading back the sanitised value prints the same value: a second hop changes nothing. */
  lemma FixedPoint(dv: char -> int, header: Option<string>)
    requires DigitTable(dv)
    ensures ParseRetryAfter(dv, Some(PrintNat(ParseRetryAfter(dv, header)))) == ParseRetryAfter(dv, header)
  {
    var r := ParseRetryAfter(dv, header);
    ParsePrinted(dv, r);
    PrintNatLength(r, MAX);
    assert |PrintNat(60)| == |PrintNat(6)| + 1;
  }

  /** A negative delay is not honoured. */
  lemma NegativeIsDefault(dv: char -> int, n: int)
    requires DigitTable(dv) && n < 0
    ensures ParseRetryAfter(dv, Some(Print(n))) == 1
  {
    StripPrinted(n);
    ParsePrintedDigits(dv, -n);
    assert Print(n)[0] == '-' && Print(n)[1..] == PrintNat(-n);
    hide ParseDigits, Text.Strip, Print, PrintNat, DigitTable;
  }

  /** White space around a number makes no difference. */
  lemma PaddedDelay(dv: char -> int, n: nat, front: string, back: string)
    requires Text.Dropped(Text.IsSpace, front) && Text.Dropped(Text.IsSpace, back)
    ensures ParseRetryAfter(dv, Some(front + PrintNat(n) + back)) == ParseRetryAfter(dv, Some(PrintNat(n)))
  {
    var s := PrintNat(n);
    var padded := front + s + back;
    StripPrinted(n);
    assert Text.StripsTo(padded, s) by {
      assert Text.TrimmedOf(Text.IsSpace, s);
    }
    Text.StripIff(padded, s);
    hide PrintNat, ParseInt, Text.Strip, Text.StripsTo, Text.CutTo;
  }

  /** Nor does a plus sign before it. */
  lemma SignedDelay(dv: char -> int, n: nat)
    ensures ParseRetryAfter(dv, Some("+" + PrintNat(n))) == ParseRetryAfter(dv, Some(PrintNat(n)))
  {
    var s := PrintNat(n);
    StripPrinted(n);
    SignedIsStripped(n);
    assert ("+" + s)[1..] == s && IsDigit(s[0]);
    hide PrintNat, ParseDigits, Text.Strip;
  }

  lemma SignedIsStripped(n: nat)
    ensures Text.Strip("+" + PrintNat(n)) == "+" + PrintNat(n)
  {
    var digits := PrintNat(n);
    assert IsDigit(digits[0]) && IsDigit(digits[|digits| - 1]);
    assert Text.Stripped("+" + digits);
  }

  /** Single underscores between digits are skipped. */
  lemma UnderscoreSkipped(dv: char -> int)
    requires DigitTable(dv)
    ensures ParseRetryAfter(dv, Some("1_2")) == 12
  {
    var s := "1_2";
    assert Text.Strip(s) == s;
    assert s[..2] == "1_" && "1_"[..1] == "1" && "1"[..0] == "";
    assert Fold(dv, "1") == (1, 1) && Fold(dv, "1_") == (1, 1);
    hide Text.Strip;
  }

  /** In any other place an underscore makes the text no number. */
  lemma UnderscoreMisplaced(dv: char -> int, s: string, i: nat)
    requires DigitTable(dv) && i < |s| && s[i] == '_'
    requires i == 0 || i == |s| - 1 || s[i - 1] == '_'
    ensures !IsDigitString(dv, s)
  {
  }

  /** Text without a digit, such as a date word or white space, is not honoured. */
  lemma NoDigitIsDefault(dv: char -> int, s: string)
    requires forall i :: 0 <= i < |s| ==> dv(s[i]) < 0
    ensures ParseRetryAfter(dv, Some(s)) == 1
  {
    var t := Text.Strip(s);
    forall i | 0 <= i < |t|
      ensures t[i] in s
    {
      Text.TrimWithin(Text.IsSpace, s, t[i]);
    }
  }
}
