/** The two Go integer conversions the controllers apply to a port label:
    `strconv.Atoi` with its error ignored and the `int32(...)` cast, which
    keeps the low 32 bits in two's complement. The parse gives 0 for a
    malformed string and the nearest 64-bit bound for an out-of-range one;
    a run of leading digits too large for 64 bits is a range error even when
    junk follows it, because the parse stops at the first overflowing digit. */
module Strconv {

  const MaxInt64: int := 0x7fff_ffff_ffff_ffff
  const MaxUint64: int := 0xffff_ffff_ffff_ffff
  const MinInt64: int := -0x8000_0000_0000_0000
  const TwoTo32: int := 0x1_0000_0000
  const TwoTo31: int := 0x8000_0000

  predicate IsDigit(c: char) {
    '0' <= c <= '9'
  }

  /** A non-empty run of decimal digits. */
  predicate IsDigits(s: string) {
    |s| > 0 && forall i :: 0 <= i < |s| ==> IsDigit(s[i])
  }

  /** What `strconv.Atoi` accepts in base 10: an optional sign, then digits. */
  predicate IsNumeral(s: string) {
    IsDigits(s) || (|s| > 1 && (s[0] == '+' || s[0] == '-') && IsDigits(s[1..]))
  }

  function DigitValue(c: char): nat
    requires IsDigit(c)
  {
    c as int - '0' as int
  }

  function DigitChar(d: nat): (c: char)
    requires d < 10
    ensures IsDigit(c) && DigitValue(c) == d
  {
    ('0' as int + d) as char
  }

  /** The value of a digit string, most significant digit first. */
  function DigitsValue(s: string): nat
    requires forall i :: 0 <= i < |s| ==> IsDigit(s[i])
  {
    if |s| == 0 then 0 else 10 * DigitsValue(s[..|s| - 1]) + DigitValue(s[|s| - 1])
  }

  /** What `ParseInt` returns alongside a range error: the nearest bound. */
  function Clamp64(v: int): (r: int)
    ensures MinInt64 <= r <= MaxInt64
    ensures MinInt64 <= v <= MaxInt64 ==> r == v
    ensures v > MaxInt64 ==> r == MaxInt64
    ensures v < MinInt64 ==> r == MinInt64
  {
    if v > MaxInt64 then MaxInt64 else if v < MinInt64 then MinInt64 else v
  }

  /** The string without its sign, as `ParseInt` hands it to `ParseUint`. */
  function Unsigned(s: string): string {
    if |s| > 0 && (s[0] == '+' || s[0] == '-') then s[1..] else s
  }

  /** Where `ParseUint`'s loop stands after reading a string: the value so
      far, or the error it stopped at. */
  datatype Parsed = Value(v: nat) | SyntaxError | RangeError

  /** `ParseUint(s, 10, 64)`'s loop after reading all of `s`, left to right:
      a non-digit is a syntax error, a digit that takes the value past
      2^64-1 a range error, and the loop stops at the first error without
      reading further. */
  function ParseUint(s: string): (r: Parsed)
    ensures r.Value? ==> r.v <= MaxUint64
    decreases |s|
  {
    if |s| == 0 then Value(0)
    else
      match ParseUint(s[..|s| - 1])
      case Value(v) =>
        var c := s[|s| - 1];
        if !IsDigit(c) then SyntaxError
        else if 10 * v + DigitValue(c) > MaxUint64 then RangeError
        else Value(10 * v + DigitValue(c))
      case stopped => stopped
  }

  /** `n, _ := strconv.Atoi(s)` on a 64-bit platform: the empty string and a
      sign alone are syntax errors; a syntax error gives 0; a range error
      gives the bound of the sign; a value past the int64 range is clamped
      to that range. */
  function Atoi(s: string): (n: int)
    ensures MinInt64 <= n <= MaxInt64
    ensures Unsigned(s) == "" ==> n == 0
  {
    var u := Unsigned(s);
    var negative := |s| > 0 && s[0] == '-';
    if u == "" then 0
    else
      match ParseUint(u)
      case SyntaxError => 0
      case RangeError => if negative then MinInt64 else MaxInt64
      case Value(v) => Clamp64(if negative then -(v as int) else v)
  }

  /** Go's `int32(x)`: the low 32 bits of `x`, read as a signed number. */
  function ToInt32(x: int): (r: int)
    ensures -TwoTo31 <= r < TwoTo31
    ensures (x - r) % TwoTo32 == 0
    ensures -TwoTo31 <= x < TwoTo31 ==> r == x
  {
    var m := x % TwoTo32;
    if m < TwoTo31 then m else m - TwoTo32
  }

  /** The decimal spelling of a natural number, as `strconv.Itoa` writes it. */
  function Decimal(n: nat): (s: string)
    ensures IsDigits(s)
    decreases n
  {
    if n < 10 then [DigitChar(n)] else Decimal(n / 10) + [DigitChar(n % 10)]
  }

  lemma {:induction false} DigitsValueOfDecimal(n: nat)
    ensures DigitsValue(Decimal(n)) == n
    decreases n
  {
    var s := Decimal(n);
    if n >= 10 {
      assert s[..|s| - 1] == Decimal(n / 10);
      DigitsValueOfDecimal(n / 10);
    }
  }

  /** On digits alone the loop computes their value, or stops at a range
      error once that value passes 2^64-1. */
  lemma {:induction false} ParseUintOfDigits(d: string)
    requires forall i :: 0 <= i < |d| ==> IsDigit(d[i])
    ensures ParseUint(d) == if DigitsValue(d) <= MaxUint64 then Value(DigitsValue(d)) else RangeError
    decreases |d|
  {
    if |d| > 0 {
      ParseUintOfDigits(d[..|d| - 1]);
    }
  }

  /** Once the loop has stopped, nothing after it is read. */
  lemma {:induction false} ParseUintStops(s: string, rest: string)
    requires !ParseUint(s).Value?
    ensures ParseUint(s + rest) == ParseUint(s)
    decreases |rest|
  {
    if |rest| == 0 {
      assert s + rest == s;
    } else {
      assert (s + rest)[..|s + rest| - 1] == s + rest[..|rest| - 1];
      ParseUintStops(s, rest[..|rest| - 1]);
    }
  }

  /** The loop only finishes with a value on a string of digits. */
  lemma {:induction false} ParseUintValueIsDigits(s: string)
    requires ParseUint(s).Value?
    ensures forall i :: 0 <= i < |s| ==> IsDigit(s[i])
    decreases |s|
  {
    if |s| > 0 {
      ParseUintValueIsDigits(s[..|s| - 1]);
      assert forall i :: 0 <= i < |s| - 1 ==> s[i] == s[..|s| - 1][i];
    }
  }

  /** A string that is not an optional sign followed by digits gives 0,
      unless its leading digits already overflow 64 bits. */
  lemma AtoiOfMalformed(s: string)
    requires !IsNumeral(s) && ParseUint(Unsigned(s)) != RangeError
    ensures Atoi(s) == 0
  {
    var u := Unsigned(s);
    if u != "" && ParseUint(u).Value? {
      ParseUintValueIsDigits(u);
      assert IsDigits(u);
      assert false;
    }
  }

  /** Parsing undoes printing for every value in range. */
  lemma AtoiOfDecimal(n: nat)
    requires n <= MaxInt64
    ensures Atoi(Decimal(n)) == n
  {
    DigitsValueOfDecimal(n);
    ParseUintOfDigits(Decimal(n));
  }

  /** A leading minus sign negates the value. */
  lemma AtoiOfNegated(n: nat)
    requires n <= MaxInt64 + 1
    ensures Atoi("-" + Decimal(n)) == -(n as int)
  {
    var s := "-" + Decimal(n);
    assert s[1..] == Decimal(n);
    DigitsValueOfDecimal(n);
    ParseUintOfDigits(Decimal(n));
  }

  /** The ignored range error: a value past the int64 bound parses as that bound. */
  lemma AtoiSaturates(n: nat)
    requires n > MaxInt64
    ensures Atoi(Decimal(n)) == MaxInt64
  {
    DigitsValueOfDecimal(n);
    ParseUintOfDigits(Decimal(n));
  }

  /** Digits too large for 64 bits are a range error whatever follows them:
      "99999999999999999999x" parses as the int64 maximum, not as 0. */
  lemma AtoiOverflowsBeforeJunk(n: nat, rest: string)
    requires n > MaxUint64
    ensures Atoi(Decimal(n) + rest) == MaxInt64
  {
    var d := Decimal(n);
    DigitsValueOfDecimal(n);
    ParseUintOfDigits(d);
    ParseUintStops(d, rest);
    assert (d + rest)[0] == d[0];
    assert Unsigned(d + rest) == d + rest;
  }

  /** With a minus sign such digits parse as the int64 minimum. */
  lemma AtoiOverflowsBeforeJunkNegated(n: nat, rest: string)
    requires n > MaxUint64
    ensures Atoi("-" + Decimal(n) + rest) == MinInt64
  {
    var d := Decimal(n);
    DigitsValueOfDecimal(n);
    ParseUintOfDigits(d);
    ParseUintStops(d, rest);
    assert ("-" + d + rest)[1..] == d + rest;
  }
}
