/** Decimal rendering of integers, as Go's fmt `%v` / `%d` verbs print an `int`. */
module Decimal {

  predicate IsDigit(c: char) {
    '0' <= c <= '9'
  }

  function DigitChar(d: nat): (c: char)
    requires d < 10
    ensures IsDigit(c)
  {
    ('0' as int + d) as char
  }

  function DigitValue(c: char): (d: nat)
    requires IsDigit(c)
    ensures d < 10
  {
    c as int - '0' as int
  }

  /** Digits of `n`, most significant first, no leading zero. */
  function FormatNat(n: nat): (s: string)
    ensures |s| > 0 && forall i :: 0 <= i < |s| ==> IsDigit(s[i])
    ensures |s| > 1 ==> s[0] != '0'
  {
    if n < 10 then [DigitChar(n)] else FormatNat(n / 10) + [DigitChar(n % 10)]
  }

  /** The decimal text of `n`: a '-' sign for negative values, then its digits. */
  function Format(n: int): string {
    if n < 0 then "-" + FormatNat(-n) else FormatNat(n)
  }

  predicate AllDigits(s: string) {
    forall i :: 0 <= i < |s| ==> IsDigit(s[i])
  }

  function ParseNat(s: string): nat
    requires AllDigits(s)
  {
    if |s| == 0 then 0 else ParseNat(s[..|s| - 1]) * 10 + DigitValue(s[|s| - 1])
  }

  /** Reads back a decimal text: an optional '-' followed by digits; 0 for anything else. */
  function Parse(s: string): int {
    if |s| > 0 && s[0] == '-' && AllDigits(s[1..]) then -(ParseNat(s[1..]) as int)
    else if AllDigits(s) then ParseNat(s)
    else 0
  }

  lemma {:induction false} ParseFormatNat(n: nat)
    ensures ParseNat(FormatNat(n)) == n
  {
    if n >= 10 {
      var s := FormatNat(n);
      ParseFormatNat(n / 10);
      assert s[..|s| - 1] == FormatNat(n / 10);
    }
  }

  /** Printing an integer and reading it back gives the integer. */
  lemma ParseFormat(n: int)
    ensures Parse(Format(n)) == n
  {
    ParseFormatNat(if n < 0 then -n else n);
    if n < 0 {
      assert Format(n)[1..] == FormatNat(-n);
    }
  }
}
