/**
 * Fixed-width unsigned integers as subsets of `int`, and the little-endian
 * byte layout shared by every codec of the library (the `Split` lo/hi byte
 * accessors, the SDO payload fields and the data-type serialisation).
 */
module Bytes {

  type u8 = x: int | 0 <= x < 0x100
  type u16 = x: int | 0 <= x < 0x1_0000
  type u32 = x: int | 0 <= x < 0x1_0000_0000
  type u64 = x: int | 0 <= x < 0x1_0000_0000_0000_0000
  type i8 = x: int | -0x80 <= x < 0x80
  type i16 = x: int | -0x8000 <= x < 0x8000
  type i32 = x: int | -0x8000_0000 <= x < 0x8000_0000
  type i64 = x: int | -0x8000_0000_0000_0000 <= x < 0x8000_0000_0000_0000

  /** 256^n, the number of values n bytes can hold. */
  function Pow256(n: nat): (r: nat)
    ensures r >= 1
  {
    if n == 0 then 1 else 256 * Pow256(n - 1)
  }

  /** The low n bytes of x, least significant first. */
  function LeBytes(x: nat, n: nat): (r: seq<u8>)
    ensures |r| == n
  {
    if n == 0 then [] else [x % 256] + LeBytes(x / 256, n - 1)
  }

  /** The number whose little-endian bytes are s. */
  function FromLe(s: seq<u8>): (r: nat)
    ensures r < Pow256(|s|)
  {
    if s == [] then 0 else s[0] + 256 * FromLe(s[1..])
  }

  /** Encoding a value that fits in n bytes and decoding it gives the value back. */
  lemma {:induction false} FromLeLeBytes(x: nat, n: nat)
    requires x < Pow256(n)
    ensures FromLe(LeBytes(x, n)) == x
  {
    if n > 0 {
      assert x / 256 < Pow256(n - 1);
      FromLeLeBytes(x / 256, n - 1);
      assert LeBytes(x, n)[1..] == LeBytes(x / 256, n - 1);
    }
  }

  /** Decoding bytes and encoding them again at the same width gives the bytes back. */
  lemma {:induction false} LeBytesFromLe(s: seq<u8>)
    ensures LeBytes(FromLe(s), |s|) == s
  {
    if s != [] {
      LeBytesFromLe(s[1..]);
      assert FromLe(s) % 256 == s[0];
      assert FromLe(s) / 256 == FromLe(s[1..]);
    }
  }

  /** Reducing x modulo 256^n keeps its low n little-endian bytes. */
  lemma {:induction false} LeBytesMod(x: nat, n: nat)
    ensures LeBytes(x % Pow256(n), n) == LeBytes(x, n)
  {
    if n > 0 {
      var q := x / 256 / Pow256(n - 1);
      var r := x / 256 % Pow256(n - 1);
      DivMod(x, Pow256(n), q, 256 * r + x % 256);
      DivMod(256 * r + x % 256, 256, r, x % 256);
      LeBytesMod(x / 256, n - 1);
    }
  }

  /** A value that fits n bytes gets a zero byte when written to n + 1 bytes. */
  lemma {:induction false} LeBytesPadded(y: nat, n: nat)
    requires y < Pow256(n)
    ensures LeBytes(y, n + 1) == LeBytes(y, n) + [0]
  {
    if n > 0 {
      LeBytesPadded(y / 256, n - 1);
    }
  }

  /** Masking x to its low n bytes and writing n + 1 bytes gives those bytes and a zero. */
  lemma MaskedLeBytes(x: nat, n: nat)
    ensures LeBytes(x % Pow256(n), n + 1) == LeBytes(x, n) + [0]
  {
    LeBytesMod(x, n);
    LeBytesPadded(x % Pow256(n), n);
  }

  /** Quotient and remainder are determined by x == d * q + r with 0 <= r < d. */
  lemma DivMod(x: int, d: int, q: int, r: int)
    requires d > 0 && x == d * q + r && 0 <= r < d
    ensures x / d == q && x % d == r
  {
    if x / d > q {
      MulMono(d, q + 1, x / d);
    } else if x / d < q {
      MulMono(d, x / d + 1, q);
    }
  }

  lemma MulMono(d: int, a: int, b: int)
    requires d > 0 && a <= b
    ensures d * a <= d * b
  {
    assert d * b - d * a == d * (b - a);
  }

  /**
   * A byte built from the command-byte fields c (bits 5-7), t (bit 4),
   * e (bits 1-3) and s (bit 0) reads each field back.
   */
  lemma ComposeByte(c: nat, t: nat, e: nat, s: nat)
    requires c < 8 && t < 2 && e < 8 && s < 2
    ensures var b := c * 32 + t * 16 + e * 2 + s;
      b < 256 && b / 32 == c && b / 16 % 2 == t && b / 2 % 8 == e && b % 2 == s
      && b / 4 % 4 == e / 2 && b / 2 % 2 == e % 2
  {
    var b := c * 32 + t * 16 + e * 2 + s;
    DivMod(b, 32, c, t * 16 + e * 2 + s);
    DivMod(b, 16, c * 2 + t, e * 2 + s);
    DivMod(c * 2 + t, 2, c, t);
    DivMod(b, 2, c * 16 + t * 8 + e, s);
    DivMod(c * 16 + t * 8 + e, 8, c * 2 + t, e);
    DivMod(b, 4, c * 8 + t * 4 + e / 2, (e % 2) * 2 + s);
    DivMod(c * 8 + t * 4 + e / 2, 4, c * 2 + t, e / 2);
    DivMod(c * 16 + t * 8 + e, 2, c * 8 + t * 4 + e / 2, e % 2);
  }

  /** Every byte is the sum of its command-byte fields. */
  lemma DecomposeByte(b: u8)
    ensures b == (b / 32) * 32 + (b / 16 % 2) * 16 + (b / 2 % 8) * 2 + b % 2 && b / 32 < 8
  {
    assert b / 16 == 2 * (b / 32) + b / 16 % 2;
    assert b / 2 == 8 * (b / 16) + b / 2 % 8;
  }
}
