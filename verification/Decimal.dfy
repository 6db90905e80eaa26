/** Decimal text of integers: printing, and parsing into the range of a 64-bit signed integer. */
module Decimal {
  import opened Arith
  import opened Wrappers

  const MIN_INT64 := -0x8000_0000_0000_0000
  const MAX_INT64 := 0x7fff_ffff_ffff_ffff

  function Digit(d: int): char
    requires 0 <= d < 10
  {
    ('0' as int + d) as char
  }

  predicate IsDigit(c: char) {
    '0' <= c <= '9'
  }

  function FormatNat(n: nat): (s: string)
    ensures s != "" && AllDigits(s)
  {
    if n < 10 then [Digit(n)] else FormatNat(n / 10) + [Digit(n % 10)]
  }

  function Format(n: int): (s: string)
    ensures s != "" && forall i | 0 <= i < |s| :: IsDigit(s[i]) || s[i] == '-'
  {
    if n < 0 then "-" + FormatNat(-n) else FormatNat(n)
  }

  function DigitOf(c: char): (d: nat)
    requires IsDigit(c)
    ensures d < 10 && Digit(d) == c
  {
    c as int - '0' as int
  }

  predicate AllDigits(s: string) {
    forall i | 0 <= i < |s| :: IsDigit(s[i])
  }

  function DigitsValue(s: string): nat
    requires AllDigits(s)
  {
    if s == "" then 0 else 10 * DigitsValue(s[..|s| - 1]) + DigitOf(s[|s| - 1])
  }

  /** An optional sign and at least one digit, within 64 bits. */
  function ParseInt(s: string): Option<int> {
    var signed := s != "" && (s[0] == '-' || s[0] == '+');
    var digits := if signed then s[1..] else s;
    if digits == "" || !AllDigits(digits) then None
    else
      var v: int := DigitsValue(digits);
      var n := if signed && s[0] == '-' then -v else v;
      if MIN_INT64 <= n <= MAX_INT64 then Some(n) else None
  }

  lemma {:induction false} FormatNatValue(n: nat)
    ensures DigitsValue(FormatNat(n)) == n
  {
    if n >= 10 {
      var s := FormatNat(n);
      FormatNatValue(n / 10);
      assert s[..|s| - 1] == FormatNat(n / 10);
    } else {
      assert FormatNat(n)[..0] == "";
    }
  }

  /** Printing and parsing are inverse on every 64-bit integer, and nothing else parses back. */
  lemma RoundTrip(n: int)
    ensures ParseInt(Format(n)) == Some(n) <==> MIN_INT64 <= n <= MAX_INT64
  {
    var s := Format(n);
    var digits := FormatNat(if n < 0 then -n else n);
    FormatNatValue(if n < 0 then -n else n);
    if n < 0 {
      assert s[1..] == digits;
    } else {
      assert IsDigit(s[0]);
    }
  }

  /** Ordinary decimal text: the most significant digit first, a minus sign before a negative number. */
  lemma Examples()
    ensures Format(1705) == "1705" && Format(-42) == "-42" && Format(0) == "0"
    ensures ParseInt("1705") == Some(1705) && ParseInt("+42") == Some(42) && ParseInt("-") == None
  {
    RoundTrip(1705);
    RoundTrip(42);
    assert FormatNat(17) == "17" && FormatNat(170) == "170" && FormatNat(1705) == "1705" && FormatNat(42) == "42";
    FormatNatValue(42);
    assert "+42"[1..] == "42";
  }
}
