/**
 * Helpers of util.rs: the semicolon-separated payload parser, the range
 * checks of the command-line parsers, the `Split` halves of fixed-width
 * integers and the little-endian buffer writer of `TypeVariant`.
 *
 * The integer parser they call (`parse_int::parse`) is foreign; it is a
 * function parameter here, `None` standing for a string it rejects.
 */
module Util {
  import opened Bytes
  import opened Wrappers

  /** `s.split(sep)`: the pieces between separators, at least one, possibly empty. */
  function SplitOn(s: string, sep: char): (r: seq<string>)
    ensures |r| >= 1
    ensures forall i :: 0 <= i < |r| ==> sep !in r[i]
  {
    if s == [] then [""]
    else
      var rest := SplitOn(s[1..], sep);
      if s[0] == sep then [""] + rest else [[s[0]] + rest[0]] + rest[1..]
  }

  /** The pieces glued back together with the separator between them. */
  function JoinOn(pieces: seq<string>, sep: char): string
    requires |pieces| >= 1
  {
    if |pieces| == 1 then pieces[0] else pieces[0] + [sep] + JoinOn(pieces[1..], sep)
  }

  /** Splitting loses nothing: joining the pieces with the separator gives the string back. */
  lemma {:induction false} SplitJoin(s: string, sep: char)
    ensures JoinOn(SplitOn(s, sep), sep) == s
  {
    if s != [] {
      var rest := SplitOn(s[1..], sep);
      SplitJoin(s[1..], sep);
      if s[0] == sep {
        assert JoinOn(SplitOn(s, sep), sep) == "" + [sep] + JoinOn(rest, sep);
      } else if |rest| == 1 {
        assert JoinOn(SplitOn(s, sep), sep) == [s[0]] + JoinOn(rest, sep);
      } else {
        assert JoinOn(SplitOn(s, sep), sep) == ([s[0]] + rest[0]) + [sep] + JoinOn(rest[1..], sep);
        assert JoinOn(rest, sep) == rest[0] + [sep] + JoinOn(rest[1..], sep);
      }
    }
  }

  /** The number of pieces the payload parser reads: at most the 8 bytes of a CAN frame. */
  function PiecesRead(pieces: seq<string>): (n: nat)
    ensures n <= 8 && n <= |pieces|
    ensures n == |pieces| || n == 8
  {
    if |pieces| < 8 then |pieces| else 8
  }

  /** The payload parser panics (`unwrap`) on a piece it reads that is not a byte. */
  predicate PayloadParsePanics(pieces: seq<string>, parse: string -> Option<u8>)
  {
    exists i :: 0 <= i < PiecesRead(pieces) && parse(pieces[i]).None?
  }

  /** The bytes the payload parser stores: the values of the pieces it reads, in order. */
  function PayloadBytes(pieces: seq<string>, parse: string -> Option<u8>): (r: seq<u8>)
    requires !PayloadParsePanics(pieces, parse)
    ensures |r| == PiecesRead(pieces)
    ensures forall i :: 0 <= i < |r| ==> parse(pieces[i]) == Some(r[i])
  {
    seq(PiecesRead(pieces), i requires 0 <= i < PiecesRead(pieces) => parse(pieces[i]).value)
  }

  /**
   * `parse_payload_as_byte_sequence_semicolon_delimited`: parses the
   * ';'-separated pieces of `s` into an 8-byte buffer from its start and
   * returns it with the number of bytes stored; unused bytes stay 0 and
   * pieces after the eighth are not read.
   */
  method ParsePayload(s: string, parse: string -> Option<u8>) returns (result: array<u8>, index: nat)
    requires !PayloadParsePanics(SplitOn(s, ';'), parse)
    ensures fresh(result) && result.Length == 8
    ensures index == PiecesRead(SplitOn(s, ';'))
    ensures result[..index] == PayloadBytes(SplitOn(s, ';'), parse)
    ensures forall j :: index <= j < 8 ==> result[j] == 0
  {
    var pieces := SplitOn(s, ';');
    result := new u8[8](_ => 0);
    index := 0;
    while index < |pieces|
      invariant index <= PiecesRead(pieces)
      invariant forall j :: 0 <= j < index ==> parse(pieces[j]) == Some(result[j])
      invariant forall j :: index <= j < 8 ==> result[j] == 0
    {
      result[index] := parse(pieces[index]).value;
      index := index + 1;
      if index > 7 {
        break;
      }
    }
    assert result[..index] == PayloadBytes(pieces, parse);
  }

  /** A string without the separator is one piece. */
  lemma {:induction false} SplitWithoutSeparator(a: string, sep: char)
    requires sep !in a
    ensures SplitOn(a, sep) == [a]
  {
    if a != [] {
      SplitWithoutSeparator(a[1..], sep);
      assert [a[0]] + a[1..] == a;
    }
  }

  /** Text before the first separator is the first piece; the rest splits on its own. */
  lemma {:induction false} SplitAtSeparator(a: string, sep: char, b: string)
    requires sep !in a
    ensures SplitOn(a + [sep] + b, sep) == [a] + SplitOn(b, sep)
  {
    if a == [] {
      assert (a + [sep] + b)[1..] == b;
    } else {
      assert (a + [sep] + b)[1..] == a[1..] + [sep] + b;
      SplitAtSeparator(a[1..], sep, b);
      assert [a[0]] + a[1..] == a;
    }
  }

  /** Three separator-free pieces joined by the separator split back into those pieces. */
  lemma SplitThree(a: string, b: string, c: string, sep: char)
    requires sep !in a && sep !in b && sep !in c
    ensures SplitOn(a + [sep] + b + [sep] + c, sep) == [a, b, c]
  {
    SplitWithoutSeparator(c, sep);
    SplitAtSeparator(b, sep, c);
    assert a + [sep] + b + [sep] + c == a + [sep] + (b + [sep] + c);
    SplitAtSeparator(a, sep, b + [sep] + c);
  }

  /** The first test string splits into three pieces. */
  lemma PayloadSplitExample()
    ensures SplitOn("01;0b10;0x0_3", ';') == ["01", "0b10", "0x0_3"]
  {
    var s, a, b, c := "01;0b10;0x0_3", "01", "0b10", "0x0_3";
    assert s == a + [';'] + b + [';'] + c;
    SplitThree(a, b, c, ';');
  }

  /** With the values 1, 2, 3 for its pieces, the first test string fills three bytes. */
  lemma PayloadExample(parse: string -> Option<u8>)
    requires parse("01") == Some(1) && parse("0b10") == Some(2) && parse("0x0_3") == Some(3)
    ensures !PayloadParsePanics(SplitOn("01;0b10;0x0_3", ';'), parse)
    ensures PayloadBytes(SplitOn("01;0b10;0x0_3", ';'), parse) == [1, 2, 3]
  {
    PayloadSplitExample();
    PayloadOfThree(["01", "0b10", "0x0_3"], parse);
  }

  /** Three pieces that all parse give their three values. */
  lemma PayloadOfThree(pieces: seq<string>, parse: string -> Option<u8>)
    requires |pieces| == 3
    requires parse(pieces[0]).Some? && parse(pieces[1]).Some? && parse(pieces[2]).Some?
    ensures !PayloadParsePanics(pieces, parse)
    ensures PayloadBytes(pieces, parse) == [parse(pieces[0]).value, parse(pieces[1]).value, parse(pieces[2]).value]
  {
    assert !PayloadParsePanics(pieces, parse) by {
      forall i | 0 <= i < PiecesRead(pieces)
        ensures parse(pieces[i]).Some?
      {
        assert i == 0 || i == 1 || i == 2;
      }
    }
  }

  /** Why a range parser refused its argument: not an integer, or outside lo..=hi. */
  datatype RangeError = NotAnInteger | OutOfRange(lo: nat, hi: nat)

  const PdoCobIdLo := 0x180
  const PdoCobIdHi := 0x5FF

  /** `pdo_cobid_parser`: an integer in the PDO COB-ID range 0x180..=0x5FF. */
  function PdoCobIdParser(s: string, parse: string -> Option<u32>): (r: Result<u32, RangeError>)
    ensures r.Ok? <==> parse(s).Some? && PdoCobIdLo <= parse(s).value <= PdoCobIdHi
    ensures r.Ok? ==> r.value == parse(s).value
    ensures r.Err? ==> r.error == if parse(s).None? then NotAnInteger else OutOfRange(PdoCobIdLo, PdoCobIdHi)
  {
    match parse(s)
    case None => Err(NotAnInteger)
    case Some(cobId) =>
      if PdoCobIdLo <= cobId <= PdoCobIdHi then Ok(cobId) else Err(OutOfRange(PdoCobIdLo, PdoCobIdHi))
  }

  const NodeIdHi := 0x7F

  /** `nodeid_parser`: an integer in the node-id range 0..=0x7F, narrowed to a byte. */
  function NodeIdParser(s: string, parse: string -> Option<u32>): (r: Result<u8, RangeError>)
    ensures r.Ok? <==> parse(s).Some? && parse(s).value <= NodeIdHi
    ensures r.Ok? ==> r.value == parse(s).value
    ensures r.Err? ==> r.error == if parse(s).None? then NotAnInteger else OutOfRange(0, NodeIdHi)
  {
    match parse(s)
    case None => Err(NotAnInteger)
    case Some(nodeId) =>
      if nodeId <= NodeIdHi then Ok(nodeId) else Err(OutOfRange(0, NodeIdHi))
  }

  /** The three `Split` implementations, named by the width of the value split. */
  datatype SplitWidth = From16 | From32 | From64

  /** The number of values a half can hold: 2^8, 2^16 or 2^32. */
  function HalfModulus(w: SplitWidth): nat
  {
    match w
    case From16 => 0x100
    case From32 => 0x1_0000
    case From64 => 0x1_0000_0000
  }

  /**
   * `Split::lo`: the cast to the half type, which keeps the low half. For a
   * signed value this is the low half of its two's-complement pattern.
   */
  function Lo(x: int, w: SplitWidth): (r: nat)
    ensures r < HalfModulus(w)
  {
    x % HalfModulus(w)
  }

  /**
   * `Split::hi`: an arithmetic shift right by the half's width, then the cast
   * to the half type (`>>` on a negative value rounds down, as `/` does here).
   */
  function Hi(x: int, w: SplitWidth): (r: nat)
    ensures r < HalfModulus(w)
  {
    (x / HalfModulus(w)) % HalfModulus(w)
  }

  /** `Split::split`: (hi, lo), two half-width values that recompose the value's full-width pattern. */
  function SplitHalves(x: int, w: SplitWidth): (r: (int, int))
    ensures 0 <= r.0 < HalfModulus(w) && 0 <= r.1 < HalfModulus(w)
    ensures r.0 * HalfModulus(w) + r.1 == x % (HalfModulus(w) * HalfModulus(w))
  {
    RecomposeAt(x, HalfModulus(w));
    (Hi(x, w), Lo(x, w))
  }

  /** Quotient and remainder of a split at modulus m, and of the whole at m * m. */
  lemma RecomposeAt(x: int, m: int)
    requires m > 0
    ensures m * m > 0
    ensures ((x / m) % m) * m + x % m == x % (m * m)
  {
    var a := x / m;
    var b := x % m;
    var c := a / m;
    var d := a % m;
    assert x == m * a + b;
    assert a == m * c + d;
    assert x == (m * m) * c + (d * m + b) by {
      assert m * a == m * (m * c + d) == (m * m) * c + m * d;
    }
    MulMono(m, d, m - 1);
    DivMod(x, m * m, c, d * m + b);
  }

  /**
   * The halves recompose the value's bit pattern at twice the half width: the
   * value itself when it is unsigned, its two's complement when negative.
   */
  lemma SplitRecompose(x: int, w: SplitWidth)
    ensures var (hi, lo) := SplitHalves(x, w);
      hi * HalfModulus(w) + lo == x % (HalfModulus(w) * HalfModulus(w))
  {
    RecomposeAt(x, HalfModulus(w));
  }

  /** An unsigned value that fits twice the half width is hi * 2^half + lo. */
  lemma SplitUnsigned(x: nat, w: SplitWidth)
    requires x < HalfModulus(w) * HalfModulus(w)
    ensures Hi(x, w) * HalfModulus(w) + Lo(x, w) == x
  {
    SplitRecompose(x, w);
    var m := HalfModulus(w) * HalfModulus(w);
    DivMod(x, m, 0, x);
  }

  /** The `Split` examples of the buffer tests: -256 as i16 is (0xFF, 0x00); -1 as i32 is (0xFFFF, 0xFFFF). */
  lemma SplitExamples()
    ensures SplitHalves(-256, From16) == (0xFF, 0x00)
    ensures SplitHalves(-1, From32) == (0xFFFF, 0xFFFF)
    ensures SplitHalves(0x0102, From16) == (0x01, 0x02)
    ensures SplitHalves(0x0102_0304, From32) == (0x0102, 0x0304)
  {
  }

  /** `TypeVariant` without its floating-point variant. */
  datatype TypeVariant =
    | U8(u8: u8)
    | U16(u16: u16)
    | U32(u32: u32)
    | I8(i8: i8)
    | I32(i32: i32)
    | I16(i16: i16)
    | S(s: string)

  /** The number of bytes `to_little_endian_buffer` writes for a variant. */
  function Width(v: TypeVariant): nat
  {
    match v
    case U8(_) => 1
    case I8(_) => 1
    case U16(_) => 2
    case I16(_) => 2
    case U32(_) => 4
    case I32(_) => 4
    case S(_) => 0
  }

  /**
   * The bit pattern of a numeric variant, as an unsigned value of its width:
   * the value itself, or the two's complement of a negative one.
   */
  function Pattern(v: TypeVariant): (r: nat)
    ensures r < Pow256(Width(v))
  {
    assert Pow256(1) == 0x100 && Pow256(2) == 0x1_0000 && Pow256(4) == 0x1_0000_0000;
    match v
    case U8(n) => n
    case I8(n) => n % 0x100
    case U16(n) => n
    case I16(n) => n % 0x1_0000
    case U32(n) => n
    case I32(n) => n % 0x1_0000_0000
    case S(_) => 0
  }

  /** The value a numeric variant holds, as an integer; 0 for a string. */
  function NumericValue(v: TypeVariant): int
  {
    match v
    case U8(n) => n
    case I8(n) => n
    case U16(n) => n
    case I16(n) => n
    case U32(n) => n
    case I32(n) => n
    case S(_) => 0
  }

  /** A signed variant's pattern is its value modulo 2^(8 * width); an unsigned one's is its value. */
  lemma PatternIsTwosComplement(v: TypeVariant)
    requires !v.S?
    ensures Pattern(v) == NumericValue(v) % Pow256(Width(v))
    ensures NumericValue(v) >= 0 ==> Pattern(v) == NumericValue(v)
    ensures NumericValue(v) < 0 ==> Pattern(v) == NumericValue(v) + Pow256(Width(v))
  {
    assert Pow256(1) == 0x100 && Pow256(2) == 0x1_0000 && Pow256(4) == 0x1_0000_0000;
  }

  /** The bytes `to_little_endian_buffer` stores, computed through `Split` as it does. */
  function WriterBytes(v: TypeVariant): seq<u8>
  {
    match v
    case U8(n) => [n % 0x100]
    case I8(n) => [n % 0x100]
    case U16(n) => [Lo(n, From16), Hi(n, From16)]
    case I16(n) => [Lo(n % 0x1_0000, From16), Hi(n % 0x1_0000, From16)]
    case U32(n) => WordBytes(n)
    case I32(n) => WordBytes(n % 0x1_0000_0000)
    case S(_) => []
  }

  /** A u32's four bytes, taken as `(n as u32).lo().lo()`, `.lo().hi()`, `.hi().lo()`, `.hi().hi()`. */
  function WordBytes(n: u32): seq<u8>
  {
    [Lo(Lo(n, From32), From16), Hi(Lo(n, From32), From16), Lo(Hi(n, From32), From16), Hi(Hi(n, From32), From16)]
  }

  /** The "Buffer to small" panic of `to_little_endian_buffer`: fewer bytes than the variant's width. */
  predicate BufferTooSmallPanics(v: TypeVariant, length: nat)
  {
    length < Width(v)
  }

  /**
   * `to_little_endian_buffer`: writes the variant's value little-endian into
   * the front of `buf` and returns the written prefix. A string writes nothing;
   * a buffer shorter than the width panics. Later bytes are left as they were.
   */
  method ToLittleEndianBuffer(v: TypeVariant, buf: array<u8>) returns (r: seq<u8>)
    requires !BufferTooSmallPanics(v, buf.Length)
    modifies buf
    ensures r == buf[..Width(v)] && r == LeBytes(Pattern(v), Width(v))
    ensures buf[Width(v)..] == old(buf[Width(v)..])
  {
    var bytes := WriterBytes(v);
    match v {
    case U8(n) =>
      buf[0] := n % 0x100;
    case I8(n) =>
      buf[0] := n % 0x100;
    case U16(n) =>
      buf[0] := Lo(n, From16);
      buf[1] := Hi(n, From16);
    case I16(n) =>
      var u := n % 0x1_0000;
      buf[0] := Lo(u, From16);
      buf[1] := Hi(u, From16);
    case U32(n) =>
      buf[0] := Lo(Lo(n, From32), From16);
      buf[1] := Hi(Lo(n, From32), From16);
      buf[2] := Lo(Hi(n, From32), From16);
      buf[3] := Hi(Hi(n, From32), From16);
    case I32(n) =>
      var u := n % 0x1_0000_0000;
      buf[0] := Lo(Lo(u, From32), From16);
      buf[1] := Hi(Lo(u, From32), From16);
      buf[2] := Lo(Hi(u, From32), From16);
      buf[3] := Hi(Hi(u, From32), From16);
    case S(_) =>
    }
    r := buf[..Width(v)];
    assert r == bytes;
    WriterBytesAreLittleEndian(v);
  }

  /** Four bytes read back little-endian, written out. */
  lemma FromLe4(b0: u8, b1: u8, b2: u8, b3: u8)
    ensures FromLe([b0, b1, b2, b3]) == b0 + 0x100 * b1 + 0x1_0000 * b2 + 0x100_0000 * b3
  {
    assert [b0, b1, b2, b3][1..] == [b1, b2, b3];
    assert [b1, b2, b3][1..] == [b2, b3];
    assert [b2, b3][1..] == [b3];
    assert FromLe([b3]) == b3 by {
      assert [b3][1..] == [];
    }
    assert FromLe([b2, b3]) == b2 + 0x100 * b3;
    assert FromLe([b1, b2, b3]) == b1 + 0x100 * b2 + 0x1_0000 * b3;
  }

  /** Two bytes read back little-endian, written out. */
  lemma FromLe2(b0: u8, b1: u8)
    ensures FromLe([b0, b1]) == b0 + 0x100 * b1
  {
    assert [b0, b1][1..] == [b1];
  }

  /** The u32 bytes taken through two levels of `Split` read back as the value. */
  lemma WordBytesValue(n: u32)
    ensures FromLe(WordBytes(n)) == n
  {
    var lo := Lo(n, From32);
    var hi := Hi(n, From32);
    SplitUnsigned(n, From32);
    SplitUnsigned(lo, From16);
    SplitUnsigned(hi, From16);
    FromLe4(Lo(lo, From16), Hi(lo, From16), Lo(hi, From16), Hi(hi, From16));
  }

  /**
   * What the writer stores through `Split` is exactly the little-endian
   * encoding of the variant's bit pattern at its width.
   */
  lemma WriterBytesAreLittleEndian(v: TypeVariant)
    ensures WriterBytes(v) == LeBytes(Pattern(v), Width(v))
  {
    var s := WriterBytes(v);
    match v {
    case U8(n) =>
      assert FromLe(s) == Pattern(v) by {
        assert s[1..] == [];
      }
    case I8(n) =>
      assert FromLe(s) == Pattern(v) by {
        assert s[1..] == [];
      }
    case U16(n) =>
      SplitUnsigned(n, From16);
      FromLe2(s[0], s[1]);
    case I16(n) =>
      SplitUnsigned(n % 0x1_0000, From16);
      FromLe2(s[0], s[1]);
    case U32(n) =>
      WordBytesValue(n);
    case I32(n) =>
      WordBytesValue(n % 0x1_0000_0000);
    case S(_) =>
    }
    LeBytesFromLe(s);
  }

  /** Reading the written bytes back little-endian gives the variant's bit pattern. */
  lemma WrittenBytesDecode(v: TypeVariant)
    ensures FromLe(LeBytes(Pattern(v), Width(v))) == Pattern(v)
  {
    FromLeLeBytes(Pattern(v), Width(v));
  }

  /** The buffer tests: I32(-1), U32(0x01020304), U16(0x0102), I16(-256), U8(1), I8(-1). */
  lemma LittleEndianExamples()
    ensures LeBytes(Pattern(I32(-1)), 4) == [0xFF, 0xFF, 0xFF, 0xFF]
    ensures LeBytes(Pattern(U32(0x0102_0304)), 4) == [0x04, 0x03, 0x02, 0x01]
    ensures LeBytes(Pattern(U16(0x0102)), 2) == [0x02, 0x01]
    ensures LeBytes(Pattern(I16(-256)), 2) == [0x00, 0xFF]
    ensures LeBytes(Pattern(U8(1)), 1) == [0x01]
    ensures LeBytes(Pattern(I8(-1)), 1) == [0xFF]
  {
  }
}
