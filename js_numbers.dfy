/** The part of JavaScript's number semantics the client relies on:
    `parseInt` with no radix argument (ECMAScript 2023, section 19.2.5), and
    the `x < limit` comparison of a number that may be NaN. Numbers are kept
    as unbounded integers; see the README for what that leaves out. */
module JsNumbers {
  import opened Numerals

  /** A JavaScript number as the client sees it: an integer or NaN. */
  datatype Number = Finite(value: int) | NaN {

    /** `this < bound`; every comparison with NaN is false. */
    predicate Below(bound: int) {
      Finite? && value < bound
    }
  }

  /** StrWhiteSpaceChar: white space (tab, vertical tab, form feed, the
      zero-width no-break space and every Unicode "Zs" space) and the four
      line terminators. */
  predicate IsStrWhiteSpace(c: char) {
    var n := c as int;
    n == 0x09 || n == 0x0A || n == 0x0B || n == 0x0C || n == 0x0D
    || n == 0x20 || n == 0xA0 || n == 0x1680 || 0x2000 <= n <= 0x200A
    || n == 0x2028 || n == 0x2029 || n == 0x202F || n == 0x205F
    || n == 0x3000 || n == 0xFEFF
  }

  /** The number of white-space characters `s` starts with. */
  function LeadingSpace(s: string): (n: nat)
    ensures n <= |s|
    ensures forall i :: 0 <= i < n ==> IsStrWhiteSpace(s[i])
    ensures n < |s| ==> !IsStrWhiteSpace(s[n])
  {
    if s != [] && IsStrWhiteSpace(s[0]) then
      var n := 1 + LeadingSpace(s[1..]);
      assert forall i :: 1 <= i < n ==> s[i] == s[1..][i - 1];
      n
    else 0
  }

  /** The string with its leading white space removed. */
  function TrimStart(s: string): (r: string)
    ensures |r| <= |s| && r == s[|s| - |r|..]
    ensures forall i :: 0 <= i < |s| - |r| ==> IsStrWhiteSpace(s[i])
    ensures r == [] || !IsStrWhiteSpace(r[0])
  {
    s[LeadingSpace(s)..]
  }

  /** Length of the longest prefix of `s` made of digits of `radix`. */
  function DigitRun(s: string, radix: nat): (n: nat)
    ensures n <= |s| && AllDigitsIn(s[..n], radix)
    ensures n < |s| ==> !IsDigitIn(s[n], radix)
  {
    if s != [] && IsDigitIn(s[0], radix) then
      var n := 1 + DigitRun(s[1..], radix);
      assert s[..n] == [s[0]] + s[1..][..n - 1];
      n
    else 0
  }

  predicate HasHexPrefix(u: string) {
    |u| >= 2 && u[0] == '0' && (u[1] == 'x' || u[1] == 'X')
  }

  /** The value of an unsigned numeral: radix 16 after "0x" or "0X", radix 10
      otherwise, read up to the first character that is not a digit; NaN when
      no digit is read. */
  function Magnitude(u: string): (r: Number)
    ensures r.Finite? ==> r.value >= 0
  {
    if HasHexPrefix(u) then ReadDigits(u[2..], 16) else ReadDigits(u, 10)
  }

  /** The value of the leading digits of `body` in `radix`; NaN when there
      are none. */
  function ReadDigits(body: string, radix: nat): (r: Number)
    ensures r.Finite? ==> r.value >= 0
  {
    var n := DigitRun(body, radix);
    if n == 0 then NaN else Finite(ValueOf(body[..n], radix))
  }

  /** `parseInt(s)` with no radix: skip leading white space, read an optional
      sign, then the magnitude. */
  function ParseInt(s: string): Number
  {
    ParseTrimmed(TrimStart(s))
  }

  /** What `parseInt` reads once the white space is gone: an optional sign,
      then the magnitude, negated after '-'. */
  function ParseTrimmed(t: string): Number
  {
    var m := Magnitude(Unsigned(t));
    if t != [] && t[0] == '-' && m.Finite? then Finite(-m.value) else m
  }

  /** Text with no digit after its leading white space and optional sign
      reads as NaN. */
  lemma NoDigitIsNaN(s: string)
    requires var u := Unsigned(TrimStart(s)); u == [] || !IsDigitIn(u[0], 10)
    ensures ParseInt(s).NaN?
  {
    var u := Unsigned(TrimStart(s));
    assert !HasHexPrefix(u);
    assert DigitRun(u, 10) == 0;
  }

  /** A run of digits followed by a non-digit is read up to the non-digit. */
  lemma {:induction false} DigitRunOfPrefix(digits: string, rest: string, radix: nat)
    requires AllDigitsIn(digits, radix)
    requires rest == [] || !IsDigitIn(rest[0], radix)
    ensures DigitRun(digits + rest, radix) == |digits|
  {
    if digits == [] {
      assert digits + rest == rest;
    } else {
      assert (digits + rest)[1..] == digits[1..] + rest;
      DigitRunOfPrefix(digits[1..], rest, radix);
    }
  }

  /** A decimal numeral is read up to its first non-digit; what follows is
      ignored ("7abc" reads as 7). */
  lemma MagnitudeReadsDecimalPrefix(digits: string, rest: string)
    requires digits != [] && AllDigitsIn(digits, 10)
    requires rest == [] || !IsDigitIn(rest[0], 10)
    requires !HasHexPrefix(digits + rest)
    ensures Magnitude(digits + rest) == Finite(ValueOf(digits, 10))
  {
    DigitRunOfPrefix(digits, rest, 10);
    assert (digits + rest)[..|digits|] == digits;
  }

  /** After "0x" or "0X" the digits are read in radix 16, up to the first
      character that is not a hexadecimal digit. */
  lemma MagnitudeReadsHexPrefix(x: char, digits: string, rest: string)
    requires x == 'x' || x == 'X'
    requires digits != [] && AllDigitsIn(digits, 16)
    requires rest == [] || !IsDigitIn(rest[0], 16)
    ensures Magnitude(['0', x] + digits + rest) == Finite(ValueOf(digits, 16))
  {
    var u := ['0', x] + digits + rest;
    assert HasHexPrefix(u);
    assert u[2..] == digits + rest;
    DigitRunOfPrefix(digits, rest, 16);
    assert (digits + rest)[..|digits|] == digits;
  }

  /** Leading white space is counted up to the first other character. */
  lemma {:induction false} LeadingSpaceOfPrefix(ws: string, t: string)
    requires forall i :: 0 <= i < |ws| ==> IsStrWhiteSpace(ws[i])
    requires t == [] || !IsStrWhiteSpace(t[0])
    ensures LeadingSpace(ws + t) == |ws|
  {
    if ws == [] {
      assert ws + t == t;
    } else {
      assert (ws + t)[1..] == ws[1..] + t;
      LeadingSpaceOfPrefix(ws[1..], t);
    }
  }

  /** Leading white space is skipped up to the first other character. */
  lemma TrimStartSkips(ws: string, t: string)
    requires forall i :: 0 <= i < |ws| ==> IsStrWhiteSpace(ws[i])
    requires t == [] || !IsStrWhiteSpace(t[0])
    ensures TrimStart(ws + t) == t
  {
    LeadingSpaceOfPrefix(ws, t);
    assert (ws + t)[|ws|..] == t;
  }

  /** Leading white space does not change what `parseInt` reads. */
  lemma ParseIntSkipsWhiteSpace(ws: string, t: string)
    requires forall i :: 0 <= i < |ws| ==> IsStrWhiteSpace(ws[i])
    requires t == [] || !IsStrWhiteSpace(t[0])
    ensures ParseInt(ws + t) == ParseInt(t)
  {
    TrimStartSkips(ws, t);
    TrimStartSkips([], t);
    assert [] + t == t;
  }

  /** `parseInt` of a decimal numeral followed by anything that does not
      start with a digit: the numeral's value ("7abc" gives 7). */
  lemma ParseIntReadsDecimalPrefix(digits: string, rest: string)
    requires digits != [] && AllDigitsIn(digits, 10)
    requires rest == [] || !IsDigitIn(rest[0], 10)
    requires !HasHexPrefix(digits + rest)
    ensures ParseInt(digits + rest) == Finite(ValueOf(digits, 10))
  {
    var t := digits + rest;
    SmallRadixDigit(digits[0], 10);
    assert t[0] == digits[0];
    TrimStartSkips([], t);
    assert [] + t == t;
    assert ParseInt(t) == ParseTrimmed(t);
    assert t[0] != '-' && Unsigned(t) == t;
    MagnitudeReadsDecimalPrefix(digits, rest);
    assert ParseTrimmed(t) == Magnitude(t);
  }

  /** The same after a '+' or '-', which negates the value ("-12px" gives
      -12). */
  lemma ParseIntReadsSignedPrefix(sign: char, digits: string, rest: string)
    requires sign == '-' || sign == '+'
    requires digits != [] && AllDigitsIn(digits, 10)
    requires rest == [] || !IsDigitIn(rest[0], 10)
    requires !HasHexPrefix(digits + rest)
    ensures ParseInt([sign] + (digits + rest))
      == Finite(if sign == '-' then -(ValueOf(digits, 10) as int) else ValueOf(digits, 10))
  {
    var t := [sign] + (digits + rest);
    TrimStartSkips([], t);
    assert [] + t == t;
    assert ParseInt(t) == ParseTrimmed(t);
    assert Unsigned(t) == digits + rest;
    MagnitudeReadsDecimalPrefix(digits, rest);
  }

  /** parseInt reads back every integer from its decimal notation, so a
      numeric string and the number it spells give the same value. */
  lemma DecimalParsesBack(i: int)
    ensures ParseInt(IntToDecimal(i)) == Finite(i)
  {
    var m: nat := if i < 0 then -i else i;
    var s := IntToDecimal(i);
    assert !IsStrWhiteSpace(s[0]);
    assert TrimStart(s) == s;
    assert Unsigned(s) == NatToDecimal(m);
    DecimalMagnitude(m);
  }

  /** The decimal notation of a natural number is read in full, in radix 10. */
  lemma DecimalMagnitude(m: nat)
    ensures Magnitude(NatToDecimal(m)) == Finite(m)
  {
    var digits := NatToDecimal(m);
    assert !HasHexPrefix(digits) by {
      if |digits| >= 2 { assert m != 0; }
    }
    DecimalRoundTrip(m);
    WholeDigitRun(digits, 10);
    assert digits[..|digits|] == digits;
  }

  /** A string of digits is read in full. */
  lemma {:induction false} WholeDigitRun(s: string, radix: nat)
    requires AllDigitsIn(s, radix)
    ensures DigitRun(s, radix) == |s|
  {
    if s != [] {
      WholeDigitRun(s[1..], radix);
    }
  }
}
