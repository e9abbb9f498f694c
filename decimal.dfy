/** Decimal text: the digit characters that `str(random.randint(0, 9))`
    yields, and Python's `str` of an integer, with the parsers that invert
    them. */
module Decimal {

  /** A value `random.randint(0, 9)` can return. */
  type Digit = d: int | 0 <= d <= 9

  predicate IsDigitChar(c: char) {
    '0' <= c <= '9'
  }

  /** All characters of `s` are decimal digits. */
  predicate IsDigits(s: string) {
    forall i :: 0 <= i < |s| ==> IsDigitChar(s[i])
  }

  /** `str(d)` for a single digit. */
  function DigitChar(d: Digit): (c: char)
    ensures IsDigitChar(c)
  {
    ('0' as int + d) as char
  }

  /** The digit a digit character stands for; inverts DigitChar. */
  function DigitValue(c: char): (d: Digit)
    requires IsDigitChar(c)
    ensures DigitChar(d) == c
  {
    c as int - '0' as int
  }

  /** `''.join([str(d) for d in ds])`: one character per digit, in order. */
  function DigitsToString(ds: seq<Digit>): (s: string)
    ensures |s| == |ds| && IsDigits(s)
    ensures forall i :: 0 <= i < |ds| ==> DigitValue(s[i]) == ds[i]
  {
    seq(|ds|, i requires 0 <= i < |ds| => DigitChar(ds[i]))
  }

  /** Reads a digit string back as its digits; inverts DigitsToString. */
  function StringToDigits(s: string): (ds: seq<Digit>)
    requires IsDigits(s)
    ensures |ds| == |s| && DigitsToString(ds) == s
  {
    seq(|s|, i requires 0 <= i < |s| => DigitValue(s[i]))
  }

  /** Python's `str(n)` for a non-negative integer: decimal, no leading zero. */
  function NatToString(n: nat): (s: string)
    ensures |s| >= 1 && IsDigits(s)
    ensures |s| > 1 ==> s[0] != '0'
    decreases n
  {
    if n < 10 then [DigitChar(n)] else NatToString(n / 10) + [DigitChar(n % 10)]
  }

  /** `int(s)` for a string of digits (the empty string reads as 0). */
  function ParseNat(s: string): nat
    requires IsDigits(s)
    decreases |s|
  {
    if s == [] then 0 else ParseNat(s[..|s| - 1]) * 10 + DigitValue(s[|s| - 1])
  }

  /** Python's `str(i)` for any integer: a minus sign before negatives. */
  function IntToString(i: int): (s: string)
    ensures |s| >= 1 && (IsDigitChar(s[0]) || s[0] == '-')
    ensures s[0] == '-' <==> i < 0
    ensures IsDigits(s[1..])
  {
    if i < 0 then "-" + NatToString(-i) else NatToString(i)
  }

  /** `int(s)` for the strings IntToString produces. */
  function ParseInt(s: string): int
    requires |s| >= 1 && (IsDigitChar(s[0]) || s[0] == '-') && IsDigits(s[1..])
  {
    if s[0] == '-' then 0 - ParseNat(s[1..]) as int else ParseNat(s)
  }

  /** Parsing the decimal text of `n` gives back `n`. */
  lemma {:induction false} ParseNatToString(n: nat)
    ensures ParseNat(NatToString(n)) == n
    decreases n
  {
    if n >= 10 {
      var s := NatToString(n / 10);
      ParseNatToString(n / 10);
      assert (s + [DigitChar(n % 10)])[..|s|] == s;
    }
  }

  /** Parsing `str(i)` gives back `i`. */
  lemma ParseIntToString(i: int)
    ensures ParseInt(IntToString(i)) == i
  {
    if i < 0 {
      ParseNatToString(-i);
      assert IntToString(i)[1..] == NatToString(-i);
    } else {
      ParseNatToString(i);
    }
  }

  /** Distinct integers have distinct decimal text. */
  lemma IntToStringInjective(i: int, j: int)
    ensures IntToString(i) == IntToString(j) <==> i == j
  {
    ParseIntToString(i);
    ParseIntToString(j);
  }
}
