/** Decimal notation of integers and the value of a run of digits in a radix:
    what JavaScript's number-to-string, Kotlin's string templates and the
    integer parsers of both languages agree on for plain ASCII digits. */
module Numerals {

  /** The value of `c` as a digit in radix 36 ('0'..'9', then 'a'..'z' or
      'A'..'Z' for 10..35), or -1 when it is neither a digit nor a letter. */
  function DigitOf(c: char): (d: int)
    ensures -1 <= d < 36
  {
    if '0' <= c <= '9' then c as int - '0' as int
    else if 'a' <= c <= 'z' then c as int - 'a' as int + 10
    else if 'A' <= c <= 'Z' then c as int - 'A' as int + 10
    else -1
  }

  predicate IsDigitIn(c: char, radix: nat) {
    0 <= DigitOf(c) < radix
  }

  /** The text after an optional leading '+' or '-'. */
  function Unsigned(s: string): string {
    if s != [] && (s[0] == '-' || s[0] == '+') then s[1..] else s
  }

  /** A digit of radix 10 or less is one of '0'..'9'. */
  lemma SmallRadixDigit(c: char, radix: nat)
    requires radix <= 10 && IsDigitIn(c, radix)
    ensures '0' <= c <= '9'
  {
  }

  predicate AllDigitsIn(s: string, radix: nat) {
    forall i :: 0 <= i < |s| ==> IsDigitIn(s[i], radix)
  }

  /** The value of the digit string `s` read most significant digit first. */
  function ValueOf(s: string, radix: nat): nat
    requires AllDigitsIn(s, radix)
  {
    if s == [] then 0
    else ValueOf(s[..|s| - 1], radix) * radix + DigitOf(s[|s| - 1])
  }

  function DigitChar(d: nat): (c: char)
    requires d < 10
    ensures IsDigitIn(c, 10) && DigitOf(c) == d
  {
    ('0' as int + d) as char
  }

  /** Shortest decimal notation of `n`: digits only, no leading zero. */
  function NatToDecimal(n: nat): (s: string)
    ensures |s| >= 1 && AllDigitsIn(s, 10)
    ensures s[0] == '0' <==> n == 0
    ensures n == 0 ==> s == "0"
  {
    if n < 10 then [DigitChar(n)]
    else NatToDecimal(n / 10) + [DigitChar(n % 10)]
  }

  /** Decimal notation of `i`, with a '-' in front when it is negative. */
  function IntToDecimal(i: int): string
  {
    if i < 0 then "-" + NatToDecimal(-i) else NatToDecimal(i)
  }

  /** Reading back the decimal notation gives the number. */
  lemma {:induction false} DecimalRoundTrip(n: nat)
    ensures ValueOf(NatToDecimal(n), 10) == n
  {
    if n >= 10 {
      var s := NatToDecimal(n);
      assert s[..|s| - 1] == NatToDecimal(n / 10);
      DecimalRoundTrip(n / 10);
    }
  }
}
