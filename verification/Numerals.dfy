/** Decimal text of whole numbers, and reading it back. */
module Numerals {

  predicate IsDigit(c: char) { '0' <= c <= '9' }

  predicate AllDigits(s: string) {
    forall i :: 0 <= i < |s| ==> IsDigit(s[i])
  }

  function DigitChar(d: nat): char
    requires d < 10
  {
    ('0' as int + d) as char
  }

  function DigitValue(c: char): nat
    requires IsDigit(c)
  {
    c as int - '0' as int
  }

  function Digits(n: nat): (s: string)
    ensures |s| > 0 && AllDigits(s)
  {
    if n < 10 then [DigitChar(n)] else Digits(n / 10) + [DigitChar(n % 10)]
  }

  function Value(s: string): nat
    requires AllDigits(s)
  {
    if s == [] then 0 else Value(s[..|s| - 1]) * 10 + DigitValue(s[|s| - 1])
  }

  lemma {:induction false} DigitsReadBack(n: nat)
    ensures Value(Digits(n)) == n
  {
    if n >= 10 {
      DigitsReadBack(n / 10);
      assert Digits(n)[..|Digits(n)| - 1] == Digits(n / 10);
    } else {
      assert Digits(n)[..0] == [];
    }
  }

  lemma {:induction false} NoLeadingZero(n: nat)
    requires n > 0
    ensures Digits(n)[0] != '0'
  {
    if n >= 10 { NoLeadingZero(n / 10); }
  }

  function Zeros(count: nat): (s: string)
    ensures |s| == count && AllDigits(s)
  {
    seq(count, _ => '0')
  }

  /** Padding on the left with zeros up to a width, as padStart does. */
  function PadLeft(s: string, width: nat): (padded: string)
    requires AllDigits(s)
    ensures AllDigits(padded)
  {
    if |s| >= width then s else Zeros(width - |s|) + s
  }

  lemma {:induction false} LeadingZerosAreWorthless(count: nat, s: string)
    requires AllDigits(s)
    ensures AllDigits(Zeros(count) + s) && Value(Zeros(count) + s) == Value(s)
    decreases |s|, count
  {
    var whole := Zeros(count) + s;
    if s != [] {
      assert whole[..|whole| - 1] == Zeros(count) + s[..|s| - 1];
      LeadingZerosAreWorthless(count, s[..|s| - 1]);
    } else if count > 0 {
      assert whole[..|whole| - 1] == Zeros(count - 1) + s;
      LeadingZerosAreWorthless(count - 1, s);
    }
  }

  lemma PaddingReadsBack(n: nat, width: nat)
    ensures Value(PadLeft(Digits(n), width)) == n
  {
    DigitsReadBack(n);
    if |Digits(n)| < width { LeadingZerosAreWorthless(width - |Digits(n)|, Digits(n)); }
  }

  /** Text of a signed number, as Int64 prints it. */
  function Signed(n: int): (s: string)
    ensures |s| > 0
    ensures forall i :: 0 <= i < |s| ==> IsDigit(s[i]) || s[i] == '-'
  {
    if n < 0 then "-" + Digits(0 - n) else Digits(n)
  }

  function SignedValue(s: string): int {
    if |s| > 1 && s[0] == '-' && AllDigits(s[1..]) then 0 - Value(s[1..])
    else if AllDigits(s) then Value(s)
    else 0
  }

  lemma SignedReadsBack(n: int)
    ensures SignedValue(Signed(n)) == n
  {
    if n < 0 {
      DigitsReadBack(-n);
      assert Signed(n)[1..] == Digits(-n);
    } else {
      DigitsReadBack(n);
      assert IsDigit(Signed(n)[0]);
    }
  }
}
