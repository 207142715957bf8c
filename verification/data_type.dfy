/**
 * The CiA 301 data types of canopen/data_type.rs: the type table indexed by
 * the object-dictionary code of each type, the `Data` values, their
 * little-endian byte serialisation, their narrowing conversions and the
 * parser that reads a value of a given type from text.
 *
 * Text is modelled as its UTF-8 bytes: every operation of the source on a
 * `&str` (`len`, `strip_prefix`, `starts_with`, byte slicing, `as_bytes`) is
 * an operation on those bytes. The digit reader `from_str_radix` and the
 * integer-to-float casts are foreign; they are the fields of `NumberReaders`.
 */
module DataTypes {
  import opened Bytes
  import opened Wrappers

  /** `DataConversionError`, and the `ParseIntError` that `?` forwards from the digit reader. */
  datatype DataError = InvalidDataType(code: u32) | MismatchingDataType | ParseIntError

  /** `DataType`: the CiA 301 type names. */
  datatype DataType =
    | NIL | BOOLEAN | VOID
    | UNSIGNED8 | UNSIGNED16 | UNSIGNED24 | UNSIGNED32 | UNSIGNED40 | UNSIGNED48 | UNSIGNED56 | UNSIGNED64
    | INTEGER8 | INTEGER16 | INTEGER24 | INTEGER32 | INTEGER40 | INTEGER48 | INTEGER56 | INTEGER64
    | REAL32 | REAL64
    | OCTETSTRING | VISIBLESTRING | UNICODESTRING
    | TIMEOFDAY | TIMEDIFFERENCE
    | DOMAIN

  /**
   * `Data`: a value of each type, with the payload width the source gives it
   * (an `i32` for UNSIGNED24, a `u64` for UNSIGNED40..56, an `i64` for
   * INTEGER40..56). A float is held as its IEEE 754 bit pattern, a Unicode
   * string as its UTF-8 bytes, an `Instant` or `Duration` as a tick count.
   */
  datatype Data =
    | Nil
    | Boolean(b: bool)
    | Void(length: nat)
    | Unsigned8(u8: u8)
    | Unsigned16(u16: u16)
    | Unsigned24(u24: i32)
    | Unsigned32(u32: u32)
    | Unsigned40(u40: u64)
    | Unsigned48(u48: u64)
    | Unsigned56(u56: u64)
    | Unsigned64(u64: u64)
    | Integer8(i8: i8)
    | Integer16(i16: i16)
    | Integer24(i24: i32)
    | Integer32(i32: i32)
    | Integer40(i40: i64)
    | Integer48(i48: i64)
    | Integer56(i56: i64)
    | Integer64(i64: i64)
    | Real32(bits32: u32)
    | Real64(bits64: u64)
    | OctetString(octets: seq<u8>)
    | VisibleString(visible: seq<u8>)
    | UnicodeString(utf8: seq<u8>)
    | TimeOfDay(instant: nat)
    | TimeDifference(duration: nat)
    | Domain(domain: seq<u8>)

  /** The object-dictionary code of each type in the table; NIL and VOID have none. */
  function Code(t: DataType): (c: u32)
    requires t != NIL && t != VOID
    ensures 0x01 <= c <= 0x1B && c != 0x0E && c != 0x17
  {
    match t
    case BOOLEAN => 0x01
    case INTEGER8 => 0x02
    case INTEGER16 => 0x03
    case INTEGER32 => 0x04
    case UNSIGNED8 => 0x05
    case UNSIGNED16 => 0x06
    case UNSIGNED32 => 0x07
    case REAL32 => 0x08
    case VISIBLESTRING => 0x09
    case OCTETSTRING => 0x0A
    case UNICODESTRING => 0x0B
    case TIMEOFDAY => 0x0C
    case TIMEDIFFERENCE => 0x0D
    case DOMAIN => 0x0F
    case INTEGER24 => 0x10
    case REAL64 => 0x11
    case INTEGER40 => 0x12
    case INTEGER48 => 0x13
    case INTEGER56 => 0x14
    case INTEGER64 => 0x15
    case UNSIGNED24 => 0x16
    case UNSIGNED40 => 0x18
    case UNSIGNED48 => 0x19
    case UNSIGNED56 => 0x1A
    case UNSIGNED64 => 0x1B
  }

  /** `DataType::try_from(u32)`: the type whose code is `code`; the gaps and codes above 0x1B are invalid. */
  function TypeOfCode(code: u32): (r: Result<DataType, DataError>)
    ensures r.Err? <==> code == 0x00 || code == 0x0E || code == 0x17 || code > 0x1B
    ensures r.Err? ==> r.error == InvalidDataType(code)
    ensures r.Ok? ==> r.value != NIL && r.value != VOID
  {
    match code
    case 0x01 => Ok(BOOLEAN)
    case 0x02 => Ok(INTEGER8)
    case 0x03 => Ok(INTEGER16)
    case 0x04 => Ok(INTEGER32)
    case 0x05 => Ok(UNSIGNED8)
    case 0x06 => Ok(UNSIGNED16)
    case 0x07 => Ok(UNSIGNED32)
    case 0x08 => Ok(REAL32)
    case 0x09 => Ok(VISIBLESTRING)
    case 0x0A => Ok(OCTETSTRING)
    case 0x0B => Ok(UNICODESTRING)
    case 0x0C => Ok(TIMEOFDAY)
    case 0x0D => Ok(TIMEDIFFERENCE)
    case 0x0F => Ok(DOMAIN)
    case 0x10 => Ok(INTEGER24)
    case 0x11 => Ok(REAL64)
    case 0x12 => Ok(INTEGER40)
    case 0x13 => Ok(INTEGER48)
    case 0x14 => Ok(INTEGER56)
    case 0x15 => Ok(INTEGER64)
    case 0x16 => Ok(UNSIGNED24)
    case 0x18 => Ok(UNSIGNED40)
    case 0x19 => Ok(UNSIGNED48)
    case 0x1A => Ok(UNSIGNED56)
    case 0x1B => Ok(UNSIGNED64)
    case _ => Err(InvalidDataType(code))
  }

  /** Every type other than NIL and VOID is found again under its code. */
  lemma TypeCodeRoundTrip(t: DataType)
    requires t != NIL && t != VOID
    ensures TypeOfCode(Code(t)) == Ok(t)
  {
  }

  /** A valid code is the code of the type it names, so the table is a bijection. */
  lemma CodeTypeRoundTrip(code: u32)
    requires TypeOfCode(code).Ok?
    ensures Code(TypeOfCode(code).value) == code
  {
  }

  /** `DataType::from_str`: a decimal code, read by the foreign `u32` parser, then looked up. */
  function ParseDataType(s: seq<u8>, parseU32: seq<u8> -> Option<u32>): (r: Result<DataType, DataError>)
    ensures parseU32(s).None? ==> r == Err(ParseIntError)
    ensures parseU32(s).Some? ==> r == TypeOfCode(parseU32(s).value)
  {
    match parseU32(s)
    case None => Err(ParseIntError)
    case Some(code) => TypeOfCode(code)
  }

  /**
   * The variants every conversion of the source leaves `unimplemented!()`:
   * the 24-, 40-, 48- and 56-bit integers and the two time types.
   */
  predicate IsUnimplemented(d: Data)
  {
    d.Unsigned24? || d.Unsigned40? || d.Unsigned48? || d.Unsigned56?
    || d.Integer24? || d.Integer40? || d.Integer48? || d.Integer56?
    || d.TimeOfDay? || d.TimeDifference?
  }

  /** `From<Data> for DataType`: the type tag of a value; panics on the unimplemented variants. */
  function TypeOf(d: Data): (t: DataType)
    requires !IsUnimplemented(d)
    ensures t != UNSIGNED24 && t != UNSIGNED40 && t != UNSIGNED48 && t != UNSIGNED56
    ensures t != INTEGER24 && t != INTEGER40 && t != INTEGER48 && t != INTEGER56
    ensures t != TIMEOFDAY && t != TIMEDIFFERENCE
    ensures t == NIL <==> d == Nil
  {
    match d
    case Nil => NIL
    case Boolean(_) => BOOLEAN
    case Void(_) => VOID
    case Unsigned8(_) => UNSIGNED8
    case Unsigned16(_) => UNSIGNED16
    case Unsigned32(_) => UNSIGNED32
    case Unsigned64(_) => UNSIGNED64
    case Integer8(_) => INTEGER8
    case Integer16(_) => INTEGER16
    case Integer32(_) => INTEGER32
    case Integer64(_) => INTEGER64
    case Real32(_) => REAL32
    case Real64(_) => REAL64
    case OctetString(_) => OCTETSTRING
    case VisibleString(_) => VISIBLESTRING
    case UnicodeString(_) => UNICODESTRING
    case Domain(_) => DOMAIN
  }

  /** `TryFrom<Data> for bool`: only a BOOLEAN value converts. */
  function AsBool(d: Data): (r: Result<bool, DataError>)
    ensures r.Ok? <==> !IsUnimplemented(d) && TypeOf(d) == BOOLEAN
    ensures r.Ok? ==> d == Boolean(r.value)
    ensures r.Err? ==> r.error == MismatchingDataType
  {
    if d.Boolean? then Ok(d.b) else Err(MismatchingDataType)
  }

  /** `TryFrom<Data> for u8`: only an UNSIGNED8 value converts. */
  function AsU8(d: Data): (r: Result<u8, DataError>)
    ensures r.Ok? <==> !IsUnimplemented(d) && TypeOf(d) == UNSIGNED8
    ensures r.Ok? ==> d == Unsigned8(r.value)
    ensures r.Err? ==> r.error == MismatchingDataType
  {
    if d.Unsigned8? then Ok(d.u8) else Err(MismatchingDataType)
  }

  /** `TryFrom<Data> for u16`: only an UNSIGNED16 value converts. */
  function AsU16(d: Data): (r: Result<u16, DataError>)
    ensures r.Ok? <==> !IsUnimplemented(d) && TypeOf(d) == UNSIGNED16
    ensures r.Ok? ==> d == Unsigned16(r.value)
    ensures r.Err? ==> r.error == MismatchingDataType
  {
    if d.Unsigned16? then Ok(d.u16) else Err(MismatchingDataType)
  }

  /** `TryFrom<Data> for u32`: only an UNSIGNED32 value converts. */
  function AsU32(d: Data): (r: Result<u32, DataError>)
    ensures r.Ok? <==> !IsUnimplemented(d) && TypeOf(d) == UNSIGNED32
    ensures r.Ok? ==> d == Unsigned32(r.value)
    ensures r.Err? ==> r.error == MismatchingDataType
  {
    if d.Unsigned32? then Ok(d.u32) else Err(MismatchingDataType)
  }

  /** `TryFrom<Data> for u64`: only an UNSIGNED64 value converts. */
  function AsU64(d: Data): (r: Result<u64, DataError>)
    ensures r.Ok? <==> !IsUnimplemented(d) && TypeOf(d) == UNSIGNED64
    ensures r.Ok? ==> d == Unsigned64(r.value)
    ensures r.Err? ==> r.error == MismatchingDataType
  {
    if d.Unsigned64? then Ok(d.u64) else Err(MismatchingDataType)
  }

  /**
   * `Data::len`: the width in bits of a number, 1 for a BOOLEAN, the length
   * of a VOID and the byte length of a string or domain.
   */
  function Len(d: Data): (n: nat)
    requires !IsUnimplemented(d)
    ensures d.Nil? ==> n == 0
    ensures d.Boolean? ==> n == 1
    ensures d.Void? ==> n == d.length
    ensures IsFixedWidth(d) ==> n == 8 * ByteWidth(d)
    ensures IsByteString(d) ==> n == |StringBytes(d)|
  {
    match d
    case Nil => 0
    case Boolean(_) => 1
    case Void(length) => length
    case Unsigned8(_) => 8
    case Unsigned16(_) => 16
    case Unsigned32(_) => 32
    case Unsigned64(_) => 64
    case Integer8(_) => 8
    case Integer16(_) => 16
    case Integer32(_) => 32
    case Integer64(_) => 64
    case Real32(_) => 32
    case Real64(_) => 64
    case OctetString(s) => |s|
    case VisibleString(s) => |s|
    case UnicodeString(s) => |s|
    case Domain(s) => |s|
  }

  /** `Data::is_empty`: equality with NIL. */
  predicate IsEmpty(d: Data)
    ensures IsEmpty(d) ==> !IsUnimplemented(d) && TypeOf(d) == NIL && Len(d) == 0
  {
    d == Nil
  }

  /**
   * Emptiness and length disagree: a zero-length VOID or an empty string has
   * length 0 but is not empty, since only NIL is.
   */
  lemma EmptyIsOnlyNil()
    ensures Len(Void(0)) == 0 && !IsEmpty(Void(0))
    ensures Len(OctetString([])) == 0 && !IsEmpty(OctetString([]))
    ensures forall d :: IsEmpty(d) ==> !IsUnimplemented(d) && Len(d) == 0
  {
  }

  /** A string or domain value: its bytes are sent as they are. */
  predicate IsByteString(d: Data)
  {
    d.OctetString? || d.VisibleString? || d.UnicodeString? || d.Domain?
  }

  /** The bytes of a string or domain value. */
  function StringBytes(d: Data): seq<u8>
    requires IsByteString(d)
  {
    match d
    case OctetString(s) => s
    case VisibleString(s) => s
    case UnicodeString(s) => s
    case Domain(s) => s
  }

  /** A number or float: its serialisation is its bit pattern, little-endian, at a fixed width. */
  predicate IsFixedWidth(d: Data)
  {
    d.Unsigned8? || d.Unsigned16? || d.Unsigned32? || d.Unsigned64?
    || d.Integer8? || d.Integer16? || d.Integer32? || d.Integer64?
    || d.Real32? || d.Real64?
  }

  /** The width in bytes of a fixed-width value. */
  function ByteWidth(d: Data): nat
    requires IsFixedWidth(d)
  {
    match d
    case Unsigned8(_) => 1
    case Integer8(_) => 1
    case Unsigned16(_) => 2
    case Integer16(_) => 2
    case Unsigned32(_) => 4
    case Integer32(_) => 4
    case Real32(_) => 4
    case Unsigned64(_) => 8
    case Integer64(_) => 8
    case Real64(_) => 8
  }

  /** The powers of 256 at the widths of the fixed-width values. */
  lemma Pow256Widths()
    ensures Pow256(1) == 0x100 && Pow256(2) == 0x1_0000
    ensures Pow256(4) == 0x1_0000_0000 && Pow256(8) == 0x1_0000_0000_0000_0000
  {
    assert Pow256(2) == 0x100 * Pow256(1);
    assert Pow256(4) == 0x1_0000 * Pow256(2);
    assert Pow256(8) == 0x1_0000_0000 * Pow256(4);
  }

  /**
   * The bit pattern of a fixed-width value as an unsigned number of its
   * width: the value itself, the two's complement of a negative integer, the
   * IEEE 754 bits of a float.
   */
  function BitPattern(d: Data): (p: nat)
    requires IsFixedWidth(d)
    ensures p < Pow256(ByteWidth(d))
  {
    Pow256Widths();
    match d
    case Unsigned8(v) => v
    case Unsigned16(v) => v
    case Unsigned32(v) => v
    case Unsigned64(v) => v
    case Integer8(v) => v % 0x100
    case Integer16(v) => v % 0x1_0000
    case Integer32(v) => v % 0x1_0000_0000
    case Integer64(v) => v % 0x1_0000_0000_0000_0000
    case Real32(bits) => bits
    case Real64(bits) => bits
  }

  /** The signed number whose two's complement at modulus m is x (`as i8`, `as i16`, ...). */
  function ToSigned(x: nat, m: nat): int
  {
    if 2 * x >= m then x - m else x
  }

  /** Reinterpreting as signed keeps the bit pattern: the two's complement of the result is x again. */
  lemma ToSignedPattern(x: nat, m: nat)
    requires x < m
    ensures ToSigned(x, m) % m == x
    ensures -(m as int) <= 2 * ToSigned(x, m) < m
  {
    if 2 * x >= m {
      DivMod(x - m, m, -1, x);
    } else {
      DivMod(x, m, 0, x);
    }
  }

  /** A signed value that fits m values is recovered from its two's complement at m. */
  lemma SignedFromPattern(v: int, m: nat)
    requires -(m as int) <= 2 * v < m
    ensures ToSigned(v % m, m) == v
  {
    if v >= 0 {
      DivMod(v, m, 0, v);
    } else {
      DivMod(v, m, -1, v + m);
    }
  }

  /** The value of a numeric variant as an integer. */
  function IntegerValue(d: Data): int
    requires d.Unsigned8? || d.Unsigned16? || d.Unsigned32? || d.Unsigned64?
      || d.Integer8? || d.Integer16? || d.Integer32? || d.Integer64?
  {
    match d
    case Unsigned8(v) => v
    case Unsigned16(v) => v
    case Unsigned32(v) => v
    case Unsigned64(v) => v
    case Integer8(v) => v
    case Integer16(v) => v
    case Integer32(v) => v
    case Integer64(v) => v
  }

  /**
   * `TryFrom<Data> for Vec<u8>`, as a value: nothing for NIL, one byte 1 or 0
   * for a BOOLEAN, `length` zeros for a VOID, the bit pattern little-endian
   * for a number or float, the bytes themselves for a string or domain.
   */
  function Encoding(d: Data): (r: seq<u8>)
    requires !IsUnimplemented(d)
    ensures IsFixedWidth(d) ==> |r| == ByteWidth(d) && 8 * |r| == Len(d)
    ensures !IsFixedWidth(d) ==> |r| == Len(d)
  {
    match d
    case Nil => []
    case Boolean(b) => if b then [1] else [0]
    case Void(length) => Zeros(length)
    case OctetString(s) => s
    case VisibleString(s) => s
    case UnicodeString(s) => s
    case Domain(s) => s
    case Unsigned8(_) => LeBytes(BitPattern(d), 1)
    case Unsigned16(_) => LeBytes(BitPattern(d), 2)
    case Unsigned32(_) => LeBytes(BitPattern(d), 4)
    case Unsigned64(_) => LeBytes(BitPattern(d), 8)
    case Integer8(_) => LeBytes(BitPattern(d), 1)
    case Integer16(_) => LeBytes(BitPattern(d), 2)
    case Integer32(_) => LeBytes(BitPattern(d), 4)
    case Integer64(_) => LeBytes(BitPattern(d), 8)
    case Real32(_) => LeBytes(BitPattern(d), 4)
    case Real64(_) => LeBytes(BitPattern(d), 8)
  }

  /** n zero bytes (`vec![0u8; n]`). */
  function Zeros(n: nat): (r: seq<u8>)
    ensures |r| == n && forall i :: 0 <= i < n ==> r[i] == 0
  {
    seq(n, _ => 0)
  }

  /**
   * Appends the n low bytes of x to `bytes`, least significant first, one
   * byte at a time (the byteorder `write_*::<LittleEndian>` writers).
   */
  method WriteLe(bytes: seq<u8>, x: nat, n: nat) returns (r: seq<u8>)
    ensures r == bytes + LeBytes(x, n)
  {
    r := bytes;
    var rest := x;
    var i := 0;
    while i < n
      invariant i <= n
      invariant r + LeBytes(rest, n - i) == bytes + LeBytes(x, n)
    {
      assert LeBytes(rest, n - i) == [rest % 256] + LeBytes(rest / 256, n - i - 1);
      r := r + [rest % 256];
      rest := rest / 256;
      i := i + 1;
    }
  }

  /**
   * `TryFrom<Data> for Vec<u8>`: fills a fresh byte vector from the value.
   * It never fails; the unimplemented variants panic.
   */
  method ToBytes(d: Data) returns (r: Result<seq<u8>, DataError>)
    requires !IsUnimplemented(d)
    ensures r == Ok(Encoding(d))
  {
    var bytes: seq<u8> := [];
    match d {
      case Nil =>
      case Boolean(b) =>
        bytes := if b then [1] else [0];
      case Void(length) =>
        bytes := Zeros(length);
      case OctetString(s) =>
        bytes := s;
      case VisibleString(s) =>
        bytes := s;
      case UnicodeString(s) =>
        bytes := s;
      case Domain(s) =>
        bytes := s;
      case Unsigned8(v) =>
        bytes := WriteLe(bytes, v, 1);
      case Unsigned16(v) =>
        bytes := WriteLe(bytes, v, 2);
      case Unsigned32(v) =>
        bytes := WriteLe(bytes, v, 4);
      case Unsigned64(v) =>
        bytes := WriteLe(bytes, v, 8);
      case Integer8(v) =>
        bytes := WriteLe(bytes, v % 0x100, 1);
      case Integer16(v) =>
        bytes := WriteLe(bytes, v % 0x1_0000, 2);
      case Integer32(v) =>
        bytes := WriteLe(bytes, v % 0x1_0000_0000, 4);
      case Integer64(v) =>
        bytes := WriteLe(bytes, v % 0x1_0000_0000_0000_0000, 8);
      case Real32(bits) =>
        bytes := WriteLe(bytes, bits, 4);
      case Real64(bits) =>
        bytes := WriteLe(bytes, bits, 8);
    }
    assert bytes == Encoding(d);
    r := Ok(bytes);
  }

  /** The serialised bytes of a number or float read back little-endian as its bit pattern. */
  lemma EncodingIsBitPattern(d: Data)
    requires IsFixedWidth(d)
    ensures FromLe(Encoding(d)) == BitPattern(d)
  {
    var p := BitPattern(d);
    match d {
      case Unsigned8(_) => FromLeLeBytes(p, 1);
      case Unsigned16(_) => FromLeLeBytes(p, 2);
      case Unsigned32(_) => FromLeLeBytes(p, 4);
      case Unsigned64(_) => FromLeLeBytes(p, 8);
      case Integer8(_) => FromLeLeBytes(p, 1);
      case Integer16(_) => FromLeLeBytes(p, 2);
      case Integer32(_) => FromLeLeBytes(p, 4);
      case Integer64(_) => FromLeLeBytes(p, 8);
      case Real32(_) => FromLeLeBytes(p, 4);
      case Real64(_) => FromLeLeBytes(p, 8);
    }
  }

  /**
   * Reading the serialised bytes of a number back little-endian gives its
   * value: directly for an unsigned number, through the two's complement
   * for a signed one.
   */
  lemma EncodingDecodes(d: Data)
    requires d.Unsigned8? || d.Unsigned16? || d.Unsigned32? || d.Unsigned64?
      || d.Integer8? || d.Integer16? || d.Integer32? || d.Integer64?
    ensures d.Unsigned8? || d.Unsigned16? || d.Unsigned32? || d.Unsigned64? ==>
      FromLe(Encoding(d)) == IntegerValue(d)
    ensures d.Integer8? || d.Integer16? || d.Integer32? || d.Integer64? ==>
      ToSigned(FromLe(Encoding(d)), Pow256(ByteWidth(d))) == IntegerValue(d)
  {
    EncodingIsBitPattern(d);
    if d.Integer8? || d.Integer16? || d.Integer32? || d.Integer64? {
      Pow256Widths();
      var m := Pow256(ByteWidth(d));
      assert BitPattern(d) == IntegerValue(d) % m;
      SignedFromPattern(IntegerValue(d), m);
    }
  }

  /** Examples of the serialisation of numbers: a u16, a negative i16 and a negative i8. */
  lemma EncodingExamples()
    ensures Encoding(Unsigned16(0x1234)) == [0x34, 0x12]
    ensures Encoding(Integer16(-2)) == [0xFE, 0xFF]
    ensures Encoding(Integer8(-1)) == [0xFF]
  {
  }

  /** A BOOLEAN serialises as one byte 1 or 0, a VOID as zeros, NIL as nothing. */
  lemma EncodingFlagExamples()
    ensures Encoding(Boolean(true)) == [1] && Encoding(Boolean(false)) == [0]
    ensures Encoding(Void(3)) == [0, 0, 0]
    ensures Encoding(Nil) == []
  {
  }

  /** The foreign number readers: `from_str_radix` on unbounded digits, and the integer-to-float casts. */
  datatype NumberReaders = NumberReaders(
    digits: (seq<u8>, nat) -> Option<nat>,
    toF32: nat -> u32,
    toF64: nat -> u64)

  const Zero: u8 := 0x30

  /**
   * The radix `as_num` reads a string in and the digits it reads: hex after a
   * "0x" prefix, octal after a leading '0' of a longer string, decimal
   * otherwise.
   */
  function NumberBase(s: seq<u8>): (r: (nat, seq<u8>))
    ensures r.0 in {8, 10, 16}
    ensures r.0 == 16 ==> s == [Zero, 0x78] + r.1
    ensures r.0 == 8 ==> s == [Zero] + r.1 && r.1 != []
    ensures r.0 == 10 ==> r.1 == s
  {
    if |s| >= 2 && s[..2] == [Zero, 0x78] then (16, s[2..])
    else if |s| > 1 && s[0] == Zero then (8, s[1..])
    else (10, s)
  }

  /**
   * Which radix a string is read in depends only on its first two bytes, and
   * "0" alone is decimal.
   */
  lemma NumberBaseByPrefix(s: seq<u8>)
    ensures (|s| >= 2 && s[0] == Zero && s[1] == 0x78) <==> NumberBase(s).0 == 16
    ensures (|s| >= 2 && s[0] == Zero && s[1] != 0x78) <==> NumberBase(s).0 == 8
    ensures (|s| < 2 || s[0] != Zero) <==> NumberBase(s).0 == 10
  {
    if |s| >= 2 {
      assert s[..2] == [s[0], s[1]];
    }
  }

  /**
   * `as_num::<T>` for an unsigned T with m values: the digits after the
   * radix prefix, read in that radix; a malformed string or a value of m or
   * more is a `ParseIntError`.
   */
  function AsNum(s: seq<u8>, readers: NumberReaders, m: nat): (r: Result<nat, DataError>)
    ensures r.Ok? <==> (var (radix, ds) := NumberBase(s);
      readers.digits(ds, radix).Some? && readers.digits(ds, radix).value < m)
    ensures r.Ok? ==> r.value < m && Some(r.value) == readers.digits(NumberBase(s).1, NumberBase(s).0)
    ensures r.Err? ==> r.error == ParseIntError
  {
    var (radix, ds) := NumberBase(s);
    match readers.digits(ds, radix)
    case Some(v) => if v < m then Ok(v) else Err(ParseIntError)
    case None => Err(ParseIntError)
  }

  /** A visible-string byte: NUL or a printable ASCII character. */
  predicate IsVisible(c: u8)
  {
    c == 0 || 0x20 <= c <= 0x7E
  }

  /** The types `from_str` reads through `as_num`. */
  predicate ReadsNumber(t: DataType)
  {
    t in {UNSIGNED8, UNSIGNED16, UNSIGNED32, UNSIGNED64, INTEGER8, INTEGER16, INTEGER32, INTEGER64, REAL32, REAL64}
  }

  /** The number of values of the unsigned type `as_num` reads for `t`: u8, u16, u32 or u64. */
  function NumberModulus(t: DataType): (m: nat)
    requires ReadsNumber(t)
    ensures m > 0
  {
    match t
    case UNSIGNED8 => 0x100
    case INTEGER8 => 0x100
    case UNSIGNED16 => 0x1_0000
    case INTEGER16 => 0x1_0000
    case UNSIGNED32 => 0x1_0000_0000
    case INTEGER32 => 0x1_0000_0000
    case REAL32 => 0x1_0000_0000
    case UNSIGNED64 => 0x1_0000_0000_0000_0000
    case INTEGER64 => 0x1_0000_0000_0000_0000
    case REAL64 => 0x1_0000_0000_0000_0000
  }

  /**
   * The value of type `t` made from the unsigned number n: n itself, n
   * reinterpreted as signed (`as i8`, ...), or n cast to a float.
   */
  function NumberData(t: DataType, n: nat, readers: NumberReaders): (d: Data)
    requires ReadsNumber(t) && n < NumberModulus(t)
    ensures !IsUnimplemented(d) && TypeOf(d) == t
  {
    match t
    case UNSIGNED8 => Unsigned8(n)
    case UNSIGNED16 => Unsigned16(n)
    case UNSIGNED32 => Unsigned32(n)
    case UNSIGNED64 => Unsigned64(n)
    case INTEGER8 => Integer8(ToSigned(n, 0x100))
    case INTEGER16 => Integer16(ToSigned(n, 0x1_0000))
    case INTEGER32 => Integer32(ToSigned(n, 0x1_0000_0000))
    case INTEGER64 => Integer64(ToSigned(n, 0x1_0000_0000_0000_0000))
    case REAL32 => Real32(readers.toF32(n))
    case REAL64 => Real64(readers.toF64(n))
  }

  /**
   * An integer type made from n serialises to the bytes of n: reinterpreting
   * as signed keeps the bit pattern.
   */
  lemma NumberDataEncoding(t: DataType, n: nat, readers: NumberReaders)
    requires ReadsNumber(t) && t != REAL32 && t != REAL64 && n < NumberModulus(t)
    ensures FromLe(Encoding(NumberData(t, n, readers))) == n
  {
    var d := NumberData(t, n, readers);
    EncodingIsBitPattern(d);
    ToSignedPattern(n, NumberModulus(t));
    assert BitPattern(d) == n;
  }

  /**
   * The inputs on which `Data::from_str` panics: a BOOLEAN other than "0" or
   * "1", a number `as_num` refuses (`expect`), a VISIBLESTRING with a byte
   * that is not visible (non-ASCII text already fails the ASCII encoder), and
   * the types it leaves unimplemented.
   */
  predicate FromStrPanics(value: seq<u8>, t: DataType, readers: NumberReaders)
  {
    if ReadsNumber(t) then AsNum(value, readers, NumberModulus(t)).Err?
    else match t
      case NIL => false
      case BOOLEAN => value != [Zero] && value != [Zero + 1]
      case OCTETSTRING => false
      case VISIBLESTRING => exists i :: 0 <= i < |value| && !IsVisible(value[i])
      case UNICODESTRING => false
      case _ => true
  }

  /**
   * `Data::from_str`: the value of type `t` the text denotes. Signed types
   * are read as the unsigned number of their width and reinterpreted, so
   * "0xff" is INTEGER8 -1. The result always has the requested type.
   */
  function FromStr(value: seq<u8>, t: DataType, readers: NumberReaders): (r: Result<Data, DataError>)
    requires !FromStrPanics(value, t, readers)
    ensures r.Ok? && !IsUnimplemented(r.value) && TypeOf(r.value) == t
    ensures t == BOOLEAN ==> (r.value == Boolean(true) <==> value == [Zero + 1])
    ensures t == BOOLEAN ==> (r.value == Boolean(false) <==> value == [Zero])
    ensures IsByteString(r.value) ==> StringBytes(r.value) == value
    ensures t == REAL32 ==> r.value == Real32(readers.toF32(AsNum(value, readers, NumberModulus(t)).value))
    ensures t == REAL64 ==> r.value == Real64(readers.toF64(AsNum(value, readers, NumberModulus(t)).value))
  {
    if ReadsNumber(t) then Ok(NumberData(t, AsNum(value, readers, NumberModulus(t)).value, readers))
    else match t
      case NIL => Ok(Nil)
      case BOOLEAN => Ok(Boolean(value == [Zero + 1]))
      case OCTETSTRING => Ok(OctetString(value))
      case VISIBLESTRING => Ok(VisibleString(value))
      case UNICODESTRING => Ok(UnicodeString(value))
  }

  /**
   * An integer read from text and serialised again gives the bytes of the
   * number its digits denote, for signed types too.
   */
  lemma FromStrEncoding(value: seq<u8>, t: DataType, readers: NumberReaders)
    requires ReadsNumber(t) && t != REAL32 && t != REAL64
    requires !FromStrPanics(value, t, readers)
    ensures var d := FromStr(value, t, readers).value;
      FromLe(Encoding(d)) == readers.digits(NumberBase(value).1, NumberBase(value).0).value
  {
    NumberDataEncoding(t, AsNum(value, readers, NumberModulus(t)).value, readers);
  }

  /** A string type read from text holds the text's bytes, and serialises back to them. */
  lemma FromStrStringEncoding(value: seq<u8>, t: DataType, readers: NumberReaders)
    requires t == OCTETSTRING || t == VISIBLESTRING || t == UNICODESTRING
    requires !FromStrPanics(value, t, readers)
    ensures IsByteString(FromStr(value, t, readers).value)
    ensures Encoding(FromStr(value, t, readers).value) == value
  {
  }

  /** The text "0xff" read as INTEGER8, with a reader that gives 255 for hex "ff", is -1. */
  lemma IntegerFromStrExample(readers: NumberReaders)
    requires readers.digits([0x66, 0x66], 16) == Some(255)
    ensures !FromStrPanics([Zero, 0x78, 0x66, 0x66], INTEGER8, readers)
    ensures FromStr([Zero, 0x78, 0x66, 0x66], INTEGER8, readers) == Ok(Integer8(-1))
  {
    assert NumberBase([Zero, 0x78, 0x66, 0x66]) == (16, [0x66, 0x66]);
  }

  /** A BOOLEAN is read from "1" and "0" only; a VISIBLESTRING with a control byte panics. */
  lemma FromStrExamples(readers: NumberReaders)
    ensures FromStr([Zero + 1], BOOLEAN, readers) == Ok(Boolean(true))
    ensures FromStr([Zero], BOOLEAN, readers) == Ok(Boolean(false))
    ensures FromStrPanics([0x74, 0x72, 0x75, 0x65], BOOLEAN, readers)
    ensures FromStrPanics([0x41, 0x0A], VISIBLESTRING, readers)
    ensures FromStr([0x41, 0], VISIBLESTRING, readers) == Ok(VisibleString([0x41, 0]))
  {
    assert !IsVisible([0x41, 0x0A][1]);
  }
}
