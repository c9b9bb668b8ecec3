/**
 * Java's 32-bit `int`, the decimal text form used by `Integer.parseInt` and
 * `Integer.toString`, and the bitwise or `|` on two ints.
 */
module JavaInt {
  import opened Wrappers

  const INT_MIN: int := -0x8000_0000
  const INT_MAX: int := 0x7FFF_FFFF

  /** A Java `int`: a 32-bit two's-complement value. */
  newtype int32 = x: int | -0x8000_0000 <= x < 0x8000_0000

  predicate IsDigit(c: char) {
    '0' <= c <= '9'
  }

  predicate AllDigits(s: string) {
    forall i | 0 <= i < |s| :: IsDigit(s[i])
  }

  function DigitValue(c: char): nat
    requires IsDigit(c)
  {
    (c as int) - ('0' as int)
  }

  function DigitChar(d: nat): (c: char)
    requires d < 10
    ensures IsDigit(c) && DigitValue(c) == d
  {
    (('0' as int) + d) as char
  }

  /** The value of a string of decimal digits, most significant digit first. */
  function DigitsValue(s: string): nat
    requires AllDigits(s)
    decreases |s|
  {
    if s == [] then 0 else 10 * DigitsValue(s[..|s| - 1]) + DigitValue(s[|s| - 1])
  }

  /** The shortest decimal digit string of `n`: no leading zero, "0" for zero. */
  function NatDigits(n: nat): (s: string)
    ensures |s| > 0 && AllDigits(s)
    ensures DigitsValue(s) == n
    ensures s[0] == '0' ==> n == 0
    decreases n
  {
    if n < 10 then [DigitChar(n)]
    else
      var front := NatDigits(n / 10);
      var s := front + [DigitChar(n % 10)];
      assert s[..|s| - 1] == front;
      s
  }

  /** `Integer.toString(n)`: a minus sign for negative values, then the digits of |n|. */
  function IntToString(n: int32): string {
    if n < 0 then "-" + NatDigits(-(n as int)) else NatDigits(n as int)
  }

  /**
   * `Integer.parseInt(s)`: an optional '+' or '-', then at least one decimal
   * digit, with a value that fits an int; None is the NumberFormatException.
   * Only the ASCII digits are recognised here.
   */
  function ParseInt(s: string): (r: Option<int32>)
  {
    if |s| == 0 then None
    else
      var signed := s[0] == '-' || s[0] == '+';
      var digits := if signed then s[1..] else s;
      if |digits| == 0 || !AllDigits(digits) then None
      else
        var v: int := if s[0] == '-' then -(DigitsValue(digits) as int) else DigitsValue(digits) as int;
        if INT_MIN <= v <= INT_MAX then Some(v as int32) else None
  }

  /** parseInt undoes toString, for every int. */
  lemma ParseIntToString(n: int32)
    ensures ParseInt(IntToString(n)) == Some(n)
  {
    var s := IntToString(n);
    if n < 0 {
      var d := NatDigits(-(n as int));
      assert s[1..] == d;
    } else {
      assert !(s[0] == '-' || s[0] == '+');
    }
  }

  /** toString gives the canonical text: parseInt accepts it, and no other int has the same text. */
  lemma IntToStringInjective(a: int32, b: int32)
    ensures IntToString(a) == IntToString(b) <==> a == b
  {
    if IntToString(a) == IntToString(b) {
      ParseIntToString(a);
      ParseIntToString(b);
    }
  }

  /** One octet on the wire, as the unsigned value 0..255. */
  newtype uint8 = x: int | 0 <= x < 256

  /** The value Java gives that octet as a (signed) `byte`. */
  function SignedByte(b: uint8): (v: int)
    ensures -128 <= v < 128
    ensures v % 256 == b as int
  {
    if b < 128 then b as int else b as int - 256
  }

  /** Two's-complement bits of an int. */
  function ToBits(x: int32): bv32 {
    (if x < 0 then x as int + 0x1_0000_0000 else x as int) as bv32
  }

  function FromBits(b: bv32): int32 {
    var u := b as int;
    if u >= 0x8000_0000 then (u - 0x1_0000_0000) as int32 else u as int32
  }

  /** Java's `a | b` on two ints. */
  function BitOr(a: int32, b: int32): int32 {
    FromBits(ToBits(a) | ToBits(b))
  }
}
