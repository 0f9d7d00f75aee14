/**
 * Bytes, fixed-width integers in either byte order, two's complement, and the
 * number-to-text conversions that the decompiler uses when it builds names
 * such as `UNKNOWN_NAME_12` or `unk_4f`.
 */
module Bytes {
  type byte = x: int | 0 <= x < 256

  /** 256 to the power n: the number of values an n-byte field can hold. */
  function Pow256(n: nat): (r: nat)
    ensures r >= 1
    ensures n > 0 ==> r >= 256
  {
    if n == 0 then 1 else 256 * Pow256(n - 1)
  }

  /** Unsigned value of bytes stored least significant first. */
  function LE(s: seq<byte>): (r: nat)
    ensures r < Pow256(|s|)
  {
    if s == [] then 0 else s[0] + 256 * LE(s[1..])
  }

  /** Unsigned value of bytes stored most significant first. */
  function BE(s: seq<byte>): (r: nat)
    ensures r < Pow256(|s|)
  {
    if s == [] then 0 else 256 * BE(s[..|s| - 1]) + s[|s| - 1]
  }

  function Reverse<T>(s: seq<T>): (r: seq<T>)
    ensures |r| == |s|
    ensures forall i :: 0 <= i < |s| ==> r[i] == s[|s| - 1 - i]
  {
    if s == [] then [] else Reverse(s[1..]) + [s[0]]
  }

  /** A big-endian field holds the same number as its bytes reversed read little-endian. */
  lemma {:induction false} BEIsReversedLE(s: seq<byte>)
    ensures BE(s) == LE(Reverse(s))
  {
    if s != [] {
      var init := s[..|s| - 1];
      BEIsReversedLE(init);
      var rs := Reverse(s);
      assert rs[0] == s[|s| - 1];
      assert rs[1..] == Reverse(init);
    }
  }

  lemma ThreeBytes(a: int, b: int, c: int)
    requires 0 <= a < 256 && 0 <= b < 256 && 0 <= c < 256
    ensures LE([a, b, c]) == a + b * 0x100 + c * 0x1_0000
    ensures BE([a, b, c]) == a * 0x1_0000 + b * 0x100 + c
  {
    assert [a, b, c][1..] == [b, c];
    assert [b, c][1..] == [c];
    assert [c][1..] == [];
    assert LE([c]) == c;
    assert LE([b, c]) == b + 256 * c;
    assert LE([a, b, c]) == a + 256 * LE([b, c]);
    assert [a, b, c][..2] == [a, b];
    assert [a, b][..1] == [a];
    assert [a][..0] == [];
    assert BE([a]) == a;
    assert BE([a, b]) == 256 * a + b;
    assert BE([a, b, c]) == 256 * BE([a, b]) + c;
  }

  /** The value of an unsigned field in the selected byte order. */
  function Unsigned(s: seq<byte>, littleEndian: bool): (r: nat)
    ensures r < Pow256(|s|)
  {
    if littleEndian then LE(s) else BE(s)
  }

  /** The little-endian encoding of n in exactly `width` bytes. */
  function EncodeLE(n: nat, width: nat): (r: seq<byte>)
    requires n < Pow256(width)
    ensures |r| == width
    ensures LE(r) == n
  {
    if width == 0 then [] else [n % 256] + EncodeLE(n / 256, width - 1)
  }

  /** Decoding is injective: a field's bytes are recovered from its value. */
  lemma {:induction false} EncodeDecodeLE(s: seq<byte>)
    ensures EncodeLE(LE(s), |s|) == s
  {
    if s != [] {
      EncodeDecodeLE(s[1..]);
      assert (s[0] + 256 * LE(s[1..])) % 256 == s[0];
      assert (s[0] + 256 * LE(s[1..])) / 256 == LE(s[1..]);
    }
  }

  /**
   * Two's complement reading of an unsigned value modulo m = 256^width (a C
   * cast from uintN_t to intN_t).
   */
  function Signed(u: nat, m: nat): (r: int)
    requires m >= 2 && m % 2 == 0 && u < m
    ensures -(m / 2) <= r < m / 2
    ensures r % m == u
    ensures (r < 0) == (u >= m / 2)
  {
    if u >= m / 2 then
      assert (u - m) % m == u by { assert u - m + m == u; }
      u - m
    else u
  }

  /** C's conversion of an integer to uint32_t. */
  function U32(x: int): (r: nat)
    ensures r < 0x1_0000_0000
  {
    x % 0x1_0000_0000
  }

  /** A value that fits in a uint32 converts to itself. */
  lemma U32InRange(x: int)
    requires 0 <= x < 0x1_0000_0000
    ensures U32(x) == x
  {
  }

  const UINT32_MAX: nat := 0xFFFF_FFFF

  /** C's conversion of an integer to size_t (64 bits wide). */
  function U64(x: int): (r: nat)
    ensures r < 0x1_0000_0000_0000_0000
    ensures 0 <= x < 0x1_0000_0000_0000_0000 ==> r == x
  {
    x % 0x1_0000_0000_0000_0000
  }

  /** C's conversion of an integer to int32_t: the low 32 bits in two's complement. */
  function I32(x: int): (r: int)
    ensures -0x8000_0000 <= r < 0x8000_0000
    ensures (r - x) % 0x1_0000_0000 == 0
    ensures -0x8000_0000 <= x < 0x8000_0000 ==> r == x
  {
    Signed(U32(x), 0x1_0000_0000)
  }

  /** The sum of two uint32_t values, which wraps around past UINT32_MAX. */
  function Add32(a: nat, b: nat): (r: nat)
    requires a <= UINT32_MAX && b <= UINT32_MAX
    ensures r <= UINT32_MAX
    ensures a + b <= UINT32_MAX ==> r == a + b
  {
    if a + b <= UINT32_MAX then a + b else a + b - 0x1_0000_0000
  }

  /** The wrapped sum is the sum reduced modulo 2^32, as C computes it. */
  lemma Add32IsU32(a: nat, b: nat)
    requires a <= UINT32_MAX && b <= UINT32_MAX
    ensures Add32(a, b) == U32(a + b)
  {
  }

  lemma Pow256Values()
    ensures Pow256(1) == 0x100 && Pow256(2) == 0x1_0000 && Pow256(3) == 0x100_0000
    ensures Pow256(4) == 0x1_0000_0000 && Pow256(8) == 0x1_0000_0000_0000_0000
  {
    assert Pow256(2) == 256 * Pow256(1);
    assert Pow256(3) == 256 * Pow256(2);
    assert Pow256(4) == 256 * Pow256(3);
    assert Pow256(5) == 256 * Pow256(4);
    assert Pow256(6) == 256 * Pow256(5);
    assert Pow256(7) == 256 * Pow256(6);
    assert Pow256(8) == 256 * Pow256(7);
  }

  // ----- text -------------------------------------------------------------

  /** A byte read as a character (one character per byte). */
  function CharOf(b: byte): char { b as char }

  function CharsOf(s: seq<byte>): (r: string)
    ensures |r| == |s|
    ensures forall i :: 0 <= i < |s| ==> r[i] == CharOf(s[i])
  {
    seq(|s|, i requires 0 <= i < |s| => CharOf(s[i]))
  }

  function DigitChar(d: nat, upper: bool): (c: char)
    requires d < 16
  {
    if d < 10 then ('0' as int + d) as char
    else if upper then ('A' as int + d - 10) as char
    else ('a' as int + d - 10) as char
  }

  /** The value of a hexadecimal digit of either case; 16 for any other character. */
  function DigitValue(c: char): (d: nat)
    ensures d <= 16
  {
    if '0' <= c <= '9' then c as int - '0' as int
    else if 'a' <= c <= 'f' then c as int - 'a' as int + 10
    else if 'A' <= c <= 'F' then c as int - 'A' as int + 10
    else 16
  }

  lemma DigitRoundTrip(d: nat, upper: bool)
    requires d < 16
    ensures DigitValue(DigitChar(d, upper)) == d
  {
  }

  /** The digits of n in base 10 or 16, most significant first, no leading zeros (`std::to_string`, JavaScript `toString(16)`). */
  function Digits(n: nat, base: nat, upper: bool): (r: string)
    requires base == 10 || base == 16
    ensures |r| >= 1
    decreases n
  {
    if n < base then [DigitChar(n, upper)]
    else Digits(n / base, base, upper) + [DigitChar(n % base, upper)]
  }

  /** Reads a non-empty string of digits back into a number. */
  function ParseDigits(s: string, base: nat): int
    requires base == 10 || base == 16
  {
    if s == [] then 0 else ParseDigits(s[..|s| - 1], base) * base + DigitValue(s[|s| - 1])
  }

  lemma {:induction false} DigitsRoundTrip(n: nat, base: nat, upper: bool)
    requires base == 10 || base == 16
    ensures ParseDigits(Digits(n, base, upper), base) == n
    decreases n
  {
    var s := Digits(n, base, upper);
    assert n == (n / base) * base + n % base by {
      if base == 10 { assert n == (n / 10) * 10 + n % 10; } else { assert n == (n / 16) * 16 + n % 16; }
    }
    if n < base {
      DigitRoundTrip(n, upper);
      assert s[..0] == [];
    } else {
      DigitsRoundTrip(n / base, base, upper);
      DigitRoundTrip(n % base, upper);
      assert s[..|s| - 1] == Digits(n / base, base, upper);
    }
  }

  /** `std::to_string` of an integer: decimal digits with a leading '-' when negative. */
  function IntToString(i: int): (r: string)
    ensures |r| >= 1
    ensures (r[0] == '-') == (i < 0)
  {
    if i < 0 then "-" + Digits(-i, 10, false)
    else
      DigitsAreDigits(i, 10, false);
      Digits(i, 10, false)
  }

  /** `std::to_string` loses nothing: the number is read back from its text. */
  lemma IntToStringRoundTrip(i: int)
    ensures i >= 0 ==> ParseDigits(IntToString(i), 10) == i
    ensures i < 0 ==> ParseDigits(IntToString(i)[1..], 10) == -i
  {
    if i >= 0 {
      DigitsRoundTrip(i, 10, false);
    } else {
      assert IntToString(i)[1..] == Digits(-i, 10, false);
      DigitsRoundTrip(-i, 10, false);
    }
  }

  lemma {:induction false} DigitsAreDigits(n: nat, base: nat, upper: bool)
    requires base == 10 || base == 16
    ensures forall k :: 0 <= k < |Digits(n, base, upper)| ==> DigitValue(Digits(n, base, upper)[k]) < base
    decreases n
  {
    if n >= base {
      DigitsAreDigits(n / base, base, upper);
      DigitRoundTrip(n % base, upper);
    } else {
      DigitRoundTrip(n, upper);
    }
  }

  /** Two upper-case hexadecimal digits (C `"%02X"`). */
  function Hex2(b: byte): (r: string)
    ensures |r| == 2
    ensures DigitValue(r[0]) * 16 + DigitValue(r[1]) == b
  {
    DigitRoundTrip(b / 16, true);
    DigitRoundTrip(b % 16, true);
    [DigitChar(b / 16, true), DigitChar(b % 16, true)]
  }
}
