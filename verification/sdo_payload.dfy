/**
 * The SDO payload codec of frame/sdo/mod.rs: command specifiers, the size,
 * expedited and toggle bits of the command byte, and the two 8-byte payload
 * layouts (with index for initiate/abort frames, without index for segments).
 * Bit masks are written as the equivalent arithmetic on the byte value.
 */
module SdoPayload {
  import opened Bytes
  import opened Wrappers
  import opened Errors

  /** The eight data bytes of every SDO frame. */
  type SdoPayloadData = s: seq<u8> | |s| == 8 witness [0, 0, 0, 0, 0, 0, 0, 0]

  /** The seven raw bytes a segment carries. */
  type SegmentData = s: seq<u8> | |s| == 7 witness [0, 0, 0, 0, 0, 0, 0]

  /** `b & 0b1110_0000`: the command-specifier bits 5-7, kept in place. */
  function CsBits(b: u8): (r: u8)
    ensures r % 32 == 0 && r <= b < r + 32
  {
    b / 32 * 32
  }

  // ---------------------------------------------------------------- specifiers

  datatype ClientCommandSpecifier =
    DownloadSegment | Download | Upload | UploadSegment | BlockUpload | BlockDownload | Unspecified

  datatype ServerCommandSpecifier =
    UploadSegment | DownloadSegment | Upload | Download | Abort | BlockUpload | BlockDownload | Unspecified

  datatype CommandSpecifier = Ccs(ccs: ClientCommandSpecifier) | Scs(scs: ServerCommandSpecifier)

  /** The `#[repr(u8)]` value of a client command specifier. */
  function CcsValue(c: ClientCommandSpecifier): u8
  {
    match c
    case DownloadSegment => 0x00
    case Download => 0x20
    case Upload => 0x40
    case UploadSegment => 0x60
    case BlockUpload => 0xA0
    case BlockDownload => 0xC0
    case Unspecified => 0xE0
  }

  /** The `#[repr(u8)]` value of a server command specifier. */
  function ScsValue(s: ServerCommandSpecifier): u8
  {
    match s
    case UploadSegment => 0x00
    case DownloadSegment => 0x20
    case Upload => 0x40
    case Download => 0x60
    case Abort => 0x80
    case BlockUpload => 0xA0
    case BlockDownload => 0xC0
    case Unspecified => 0xE0
  }

  /** `Into<u8> for CommandSpecifier`. */
  function CsValue(cs: CommandSpecifier): (r: u8)
    ensures CsBits(r) == r
  {
    match cs
    case Ccs(c) => CcsValue(c)
    case Scs(s) => ScsValue(s)
  }

  /** `From<u8> for ClientCommandSpecifier`: decodes bits 5-7 only. */
  function CcsFromU8(b: u8): (c: ClientCommandSpecifier)
    ensures c != ClientCommandSpecifier.Unspecified ==> CcsValue(c) == CsBits(b)
    ensures c == ClientCommandSpecifier.Unspecified <==> CsBits(b) == 0x80 || CsBits(b) == 0xE0
  {
    match CsBits(b)
    case 0x00 => ClientCommandSpecifier.DownloadSegment
    case 0x20 => ClientCommandSpecifier.Download
    case 0x40 => ClientCommandSpecifier.Upload
    case 0x60 => ClientCommandSpecifier.UploadSegment
    case 0xA0 => ClientCommandSpecifier.BlockUpload
    case 0xC0 => ClientCommandSpecifier.BlockDownload
    case _ => ClientCommandSpecifier.Unspecified
  }

  /** `From<u8> for ServerCommandSpecifier`: decodes bits 5-7 only. */
  function ScsFromU8(b: u8): (s: ServerCommandSpecifier)
    ensures s != ServerCommandSpecifier.Unspecified ==> ScsValue(s) == CsBits(b)
    ensures s == ServerCommandSpecifier.Unspecified <==> CsBits(b) == 0xE0
  {
    match CsBits(b)
    case 0x00 => ServerCommandSpecifier.UploadSegment
    case 0x20 => ServerCommandSpecifier.DownloadSegment
    case 0x40 => ServerCommandSpecifier.Upload
    case 0x60 => ServerCommandSpecifier.Download
    case 0x80 => ServerCommandSpecifier.Abort
    case 0xA0 => ServerCommandSpecifier.BlockUpload
    case 0xC0 => ServerCommandSpecifier.BlockDownload
    case _ => ServerCommandSpecifier.Unspecified
  }

  /** Every client specifier decodes from its own value, and the low five bits never matter. */
  lemma CcsRoundTrip(c: ClientCommandSpecifier, low: nat)
    requires low < 32
    ensures CcsFromU8(CcsValue(c) + low) == c
  {
  }

  /** Every server specifier decodes from its own value, and the low five bits never matter. */
  lemma ScsRoundTrip(s: ServerCommandSpecifier, low: nat)
    requires low < 32
    ensures ScsFromU8(ScsValue(s) + low) == s
  {
  }

  // ---------------------------------------------------------------- size bits

  /** Bit 0 says whether a size is given; bits 2-3 hold n, the count of unused bytes. */
  datatype CommandDataSize = OneByte | TwoBytes | ThreeBytes | FourBytes | NotSet

  /** The `#[repr(u8)]` value of a data size. */
  function SizeValue(s: CommandDataSize): u8
  {
    match s
    case OneByte => 0x0D
    case TwoBytes => 0x09
    case ThreeBytes => 0x05
    case FourBytes => 0x01
    case NotSet => 0x00
  }

  /** `b & 0b0000_1101`: the size-indicated bit and the two size bits, kept in place. */
  function SizeBits(b: u8): (r: u8)
    ensures r < 16
  {
    b % 2 + (b / 4 % 4) * 4
  }

  /** `From<u8> for CommandDataSize`. */
  function SizeFromU8(b: u8): (r: CommandDataSize)
    ensures r == NotSet <==> b % 2 == 0
    ensures r != NotSet ==> SizeValue(r) == SizeBits(b)
  {
    match SizeBits(b)
    case 0x01 => FourBytes
    case 0x05 => ThreeBytes
    case 0x09 => TwoBytes
    case 0x0D => OneByte
    case _ => NotSet
  }

  /** `extract_length`: the number of data bytes a size announces. */
  function ExtractLength(s: CommandDataSize): (r: nat)
    ensures r <= 4
    ensures r == 0 <==> s == NotSet
    ensures s != NotSet ==> r == 4 - SizeValue(s) / 4
  {
    match s
    case NotSet => 0
    case OneByte => 1
    case TwoBytes => 2
    case ThreeBytes => 3
    case FourBytes => 4
  }

  /** Every size decodes from its own value, whatever the expedited, toggle and specifier bits. */
  lemma SizeRoundTrip(s: CommandDataSize, cs: u8, expedited: bool, toggle: bool)
    requires CsBits(cs) == cs
    ensures SizeFromU8(cs + SizeValue(s) + (if toggle then 0x10 else 0) + (if expedited then 0x02 else 0)) == s
  {
    CommandByteFields(cs, toggle, s, expedited);
  }

  /**
   * The command byte specifier + toggle + size + expedited bit reads back each part:
   * the specifier bits, the toggle bit, the size-indicated bit, the size bits and bit 1.
   */
  lemma CommandByteFields(cs: u8, toggle: bool, s: CommandDataSize, expedited: bool)
    requires CsBits(cs) == cs
    ensures var b := cs + (if toggle then 0x10 else 0) + SizeValue(s) + (if expedited then 0x02 else 0);
      b < 256 && CsBits(b) == cs && (b / 16 % 2 == 1) == toggle && (b / 2 % 2 == 1) == expedited
      && SizeBits(b) == SizeValue(s) && (b % 2 == 1) == (s != NotSet)
  {
    var v := SizeValue(s);
    var e := (v / 4) * 2 + (if expedited then 1 else 0);
    ComposeByte(cs / 32, if toggle then 1 else 0, e, v % 2);
  }

  // ---------------------------------------------------------------- flag helpers

  /** `is_size_flag_set`: bit 0. */
  predicate IsSizeFlagSet(b: u8)
  {
    b % 2 == 1
  }

  /** `is_toggle_flag_set`: bit 4 (0x10). */
  predicate IsToggleFlagSet(b: u8)
  {
    b / 16 % 2 == 1
  }

  /** The expedited-transfer bit 1 (0x02). */
  predicate IsExpeditedFlagSet(b: u8)
  {
    b / 2 % 2 == 1
  }

  /** The flags are the mask tests `b & 0x01`, `b & 0x10` and `b & 0x02` of the command byte. */
  lemma FlagMasks(b: u8)
    ensures IsSizeFlagSet(b) <==> (b as bv8) & 0x01 != 0
    ensures IsToggleFlagSet(b) <==> (b as bv8) & 0x10 != 0
    ensures IsExpeditedFlagSet(b) <==> (b as bv8) & 0x02 != 0
  {
  }

  /**
   * `length_of_empty_bytes` (and its copy `get_length_from_command_byte`):
   * `(b & 0b1110) >> 1` when the size bit is set.
   */
  function LengthOfEmptyBytes(b: u8): (r: Option<u8>)
    ensures r.Some? <==> IsSizeFlagSet(b)
    ensures r.Some? ==> r.value < 8 && (b - b % 2) % 16 == 2 * r.value
  {
    if IsSizeFlagSet(b) then Some(b / 2 % 8) else None
  }

  // ---------------------------------------------------------------- with-index payload

  /** The payload of initiate and abort frames; the toggle bit plays no part in it. */
  datatype WithIndexPayload = WithIndexPayload(
    cs: CommandSpecifier,
    size: CommandDataSize,
    expeditedFlag: bool,
    index: u16,
    subindex: u8,
    data: u32)

  /** Decoded fields of an 8-byte payload, given the specifier found in byte 0. */
  function WithIndexFields(cs: CommandSpecifier, d: SdoPayloadData): WithIndexPayload
  {
    WithIndexPayload(cs, SizeFromU8(d[0]), IsExpeditedFlagSet(d[0]), FromLe(d[1..3]), d[3], FromLe(d[4..8]))
  }

  /** `WithIndexPayload::parse_as_server_payload`. */
  function ParseServerWithIndex(d: SdoPayloadData): (r: Result<WithIndexPayload, CanOpenError>)
    ensures r.Ok? <==> CsBits(d[0]) <= 0x80
    ensures r.Err? ==> r.error == SdoPayloadParseError
    ensures r.Ok? ==> r.value.cs.Scs? && ScsValue(r.value.cs.scs) == CsBits(d[0])
  {
    var s := ScsFromU8(d[0]);
    match s
    case Abort | Upload | UploadSegment | Download | DownloadSegment => Ok(WithIndexFields(Scs(s), d))
    case _ => Err(SdoPayloadParseError)
  }

  /** `WithIndexPayload::parse_as_client_payload`. */
  function ParseClientWithIndex(d: SdoPayloadData): (r: Result<WithIndexPayload, CanOpenError>)
    ensures r.Ok? <==> CsBits(d[0]) in {0x20, 0x40, 0x60}
    ensures r == Err(SdoPayloadNotImplementedYet) <==> CsBits(d[0]) in {0xA0, 0xC0}
    ensures r == Err(SdoPayloadParseError) <==> CsBits(d[0]) in {0x00, 0x80, 0xE0}
    ensures r.Ok? ==> r.value.cs.Ccs? && CcsValue(r.value.cs.ccs) == CsBits(d[0])
  {
    var c := CcsFromU8(d[0]);
    match c
    case Download | Upload | UploadSegment => Ok(WithIndexFields(Ccs(c), d))
    case BlockDownload | BlockUpload => Err(SdoPayloadNotImplementedYet)
    case DownloadSegment | Unspecified => Err(SdoPayloadParseError)
  }

  /** The command byte of a with-index payload: specifier + size + expedited bit. */
  function WithIndexCommandByte(p: WithIndexPayload): u8
  {
    CsValue(p.cs) + SizeValue(p.size) + if p.expeditedFlag then 0x02 else 0x00
  }

  /** `Into<SdoPayloadData> for WithIndexPayload`. */
  function EncodeWithIndex(p: WithIndexPayload): (r: SdoPayloadData)
    ensures CsBits(r[0]) == CsValue(p.cs)
    ensures SizeFromU8(r[0]) == p.size && IsExpeditedFlagSet(r[0]) == p.expeditedFlag
    ensures !IsToggleFlagSet(r[0])
    ensures FromLe(r[1..3]) == p.index && r[3] == p.subindex && FromLe(r[4..8]) == p.data
  {
    CommandByteFields(CsValue(p.cs), false, p.size, p.expeditedFlag);
    FromLeLeBytes(p.index, 2);
    FromLeLeBytes(p.data, 4);
    var r := [WithIndexCommandByte(p)] + LeBytes(p.index, 2) + [p.subindex] + LeBytes(p.data, 4);
    assert r[1..3] == LeBytes(p.index, 2) && r[4..8] == LeBytes(p.data, 4);
    r
  }

  /** The byte-0 bits a with-index payload keeps: all but the toggle bit, and the size bits only when announced. */
  predicate CanonicalWithIndexCommandByte(b: u8)
  {
    !IsToggleFlagSet(b) && (IsSizeFlagSet(b) || SizeBits(b) == 0)
  }

  /** For every accepted server specifier, parsing an encoded payload gives it back. */
  lemma ServerWithIndexRoundTrip(p: WithIndexPayload)
    requires p.cs.Scs? && p.cs.scs in {ServerCommandSpecifier.Abort, ServerCommandSpecifier.Upload,
      ServerCommandSpecifier.UploadSegment, ServerCommandSpecifier.Download, ServerCommandSpecifier.DownloadSegment}
    ensures ParseServerWithIndex(EncodeWithIndex(p)) == Ok(p)
  {
    ScsRoundTrip(p.cs.scs, 0);
  }

  /** For every accepted client specifier, parsing an encoded payload gives it back. */
  lemma ClientWithIndexRoundTrip(p: WithIndexPayload)
    requires p.cs.Ccs? && p.cs.ccs in {ClientCommandSpecifier.Download, ClientCommandSpecifier.Upload,
      ClientCommandSpecifier.UploadSegment}
    ensures ParseClientWithIndex(EncodeWithIndex(p)) == Ok(p)
  {
    CcsRoundTrip(p.cs.ccs, 0);
  }

  /** The with-index command byte rebuilt from its decoded fields equals the byte exactly when it is canonical. */
  lemma IndexCommandByteReencode(b: u8)
    ensures CsBits(b) + SizeValue(SizeFromU8(b)) + (if IsExpeditedFlagSet(b) then 0x02 else 0) == b
      <==> CanonicalWithIndexCommandByte(b)
  {
    DecomposeByte(b);
    ComposeByte(b / 32, b / 16 % 2, b / 2 % 8, b % 2);
  }

  /** Two payloads with the same bytes 1-7 are equal exactly when their first bytes are. */
  lemma SameTail(e: SdoPayloadData, d: SdoPayloadData)
    requires e[1..] == d[1..]
    ensures e == d <==> e[0] == d[0]
  {
    if e[0] == d[0] {
      assert forall i :: 0 <= i < 8 ==> e[i] == (if i == 0 then e[0] else e[1..][i - 1]);
      assert forall i :: 0 <= i < 8 ==> d[i] == (if i == 0 then d[0] else d[1..][i - 1]);
    }
  }

  /** Re-encoding the decoded fields of 8 bytes reproduces bytes 1-7, and byte 0 exactly when it is canonical. */
  lemma FieldsReencode(cs: CommandSpecifier, d: SdoPayloadData)
    requires CsValue(cs) == CsBits(d[0])
    ensures var e := EncodeWithIndex(WithIndexFields(cs, d));
      e[1..] == d[1..] && (e == d <==> CanonicalWithIndexCommandByte(d[0]))
  {
    var e := EncodeWithIndex(WithIndexFields(cs, d));
    LeBytesFromLe(d[1..3]);
    LeBytesFromLe(d[4..8]);
    assert e[1..] == d[1..];
    var b := d[0];
    assert e[0] == CsBits(b) + SizeValue(SizeFromU8(b)) + (if IsExpeditedFlagSet(b) then 0x02 else 0);
    IndexCommandByteReencode(b);
    SameTail(e, d);
  }

  /** Re-encoding what was parsed reproduces the 8 bytes exactly when byte 0 carries no ignored bit. */
  lemma WithIndexReencode(d: SdoPayloadData, client: bool)
    requires (if client then ParseClientWithIndex(d) else ParseServerWithIndex(d)).Ok?
    ensures var p := (if client then ParseClientWithIndex(d) else ParseServerWithIndex(d)).value;
      EncodeWithIndex(p)[1..] == d[1..] && (EncodeWithIndex(p) == d <==> CanonicalWithIndexCommandByte(d[0]))
  {
    var p := (if client then ParseClientWithIndex(d) else ParseServerWithIndex(d)).value;
    assert p == WithIndexFields(p.cs, d);
    FieldsReencode(p.cs, d);
  }

  /** The encoding of a payload, byte by byte, once its command byte and little-endian fields are known. */
  lemma EncodeWithIndexBytes(p: WithIndexPayload, c: u8, i0: u8, i1: u8, d0: u8, d1: u8, d2: u8, d3: u8)
    requires WithIndexCommandByte(p) == c
    requires LeBytes(p.index, 2) == [i0, i1] && LeBytes(p.data, 4) == [d0, d1, d2, d3]
    ensures EncodeWithIndex(p) == [c, i0, i1, p.subindex, d0, d1, d2, d3]
  {
  }

  /** The command bytes the encoder's own examples expect: 0xCD and 0x03. */
  lemma WithIndexEncodeExamples()
    ensures EncodeWithIndex(WithIndexPayload(Ccs(ClientCommandSpecifier.BlockDownload), OneByte, false, 0x2211, 0x33, 0x7766_5544))
      == [0xCD, 0x11, 0x22, 0x33, 0x44, 0x55, 0x66, 0x77]
    ensures EncodeWithIndex(WithIndexPayload(Ccs(ClientCommandSpecifier.DownloadSegment), FourBytes, true, 0x2211, 0x33, 0x7766_5544))
      == [0x03, 0x11, 0x22, 0x33, 0x44, 0x55, 0x66, 0x77]
  {
    assert LeBytes(0x2211, 2) == [0x11, 0x22];
    assert LeBytes(0x7766_5544, 4) == [0x44, 0x55, 0x66, 0x77];
    EncodeWithIndexBytes(WithIndexPayload(Ccs(ClientCommandSpecifier.BlockDownload), OneByte, false, 0x2211, 0x33, 0x7766_5544),
      0xCD, 0x11, 0x22, 0x44, 0x55, 0x66, 0x77);
    EncodeWithIndexBytes(WithIndexPayload(Ccs(ClientCommandSpecifier.DownloadSegment), FourBytes, true, 0x2211, 0x33, 0x7766_5544),
      0x03, 0x11, 0x22, 0x44, 0x55, 0x66, 0x77);
  }

  // ---------------------------------------------------------------- without-index payload

  /** The payload of segment frames: a toggle, an optional empty-byte count and 7 raw bytes. */
  datatype WithoutIndexPayload = WithoutIndexPayload(
    cs: CommandSpecifier,
    toggle: bool,
    lengthOfEmptyBytes: Option<u8>,
    data: SegmentData)

  /** Decoded fields of an 8-byte segment payload, given the specifier found in byte 0. */
  function WithoutIndexFields(cs: CommandSpecifier, d: SdoPayloadData): WithoutIndexPayload
  {
    WithoutIndexPayload(cs, IsToggleFlagSet(d[0]), LengthOfEmptyBytes(d[0]), d[1..8])
  }

  /** `WithoutIndexPayload::parse_as_server_payload`: only scs Upload (010) is accepted. */
  function ParseServerWithoutIndex(d: SdoPayloadData): (r: Result<WithoutIndexPayload, CanOpenError>)
    ensures r.Ok? <==> CsBits(d[0]) == 0x40
    ensures r.Err? ==> r.error == SdoPayloadParseError
    ensures r.Ok? ==> r.value.cs == Scs(ServerCommandSpecifier.Upload) && r.value.data == d[1..]
  {
    match ScsFromU8(d[0])
    case Upload => Ok(WithoutIndexFields(Scs(ServerCommandSpecifier.Upload), d))
    case _ => Err(SdoPayloadParseError)
  }

  /** `WithoutIndexPayload::parse_as_client_payload`: only ccs UploadSegment (011) is accepted. */
  function ParseClientWithoutIndex(d: SdoPayloadData): (r: Result<WithoutIndexPayload, CanOpenError>)
    ensures r.Ok? <==> CsBits(d[0]) == 0x60
    ensures r.Err? ==> r.error == SdoPayloadParseError
    ensures r.Ok? ==> r.value.cs == Ccs(ClientCommandSpecifier.UploadSegment) && r.value.data == d[1..]
  {
    match CcsFromU8(d[0])
    case UploadSegment => Ok(WithoutIndexFields(Ccs(ClientCommandSpecifier.UploadSegment), d))
    case _ => Err(SdoPayloadParseError)
  }

  /** The size part of a segment command byte: `1 + ((x & 0b111) << 1)` when a count is given. */
  function EmptyBytesBits(e: Option<u8>): (r: u8)
    ensures r < 16
  {
    match e
    case None => 0
    case Some(x) => 1 + (x % 8) * 2
  }

  /** `Into<SdoPayloadData> for WithoutIndexPayload`. */
  function EncodeWithoutIndex(p: WithoutIndexPayload): (r: SdoPayloadData)
    ensures CsBits(r[0]) == CsValue(p.cs) && IsToggleFlagSet(r[0]) == p.toggle
    ensures IsSizeFlagSet(r[0]) == p.lengthOfEmptyBytes.Some?
    ensures p.lengthOfEmptyBytes.Some? ==> LengthOfEmptyBytes(r[0]) == Some(p.lengthOfEmptyBytes.value % 8)
    ensures r[1..] == p.data
  {
    var x := if p.lengthOfEmptyBytes.Some? then p.lengthOfEmptyBytes.value % 8 else 0;
    ComposeByte(CsValue(p.cs) / 32, if p.toggle then 1 else 0, x, if p.lengthOfEmptyBytes.Some? then 1 else 0);
    [CsValue(p.cs) + (if p.toggle then 0x10 else 0x00) + EmptyBytesBits(p.lengthOfEmptyBytes)] + p.data
  }

  /** A segment payload whose empty-byte count fits the three bits the encoder keeps. */
  predicate EmptyCountFits(p: WithoutIndexPayload)
  {
    p.lengthOfEmptyBytes.Some? ==> p.lengthOfEmptyBytes.value <= 7
  }

  /** Server segments round-trip when the empty count fits in three bits. */
  lemma ServerWithoutIndexRoundTrip(p: WithoutIndexPayload)
    requires p.cs == Scs(ServerCommandSpecifier.Upload) && EmptyCountFits(p)
    ensures ParseServerWithoutIndex(EncodeWithoutIndex(p)) == Ok(p)
  {
  }

  /** Client segments round-trip when the empty count fits in three bits. */
  lemma ClientWithoutIndexRoundTrip(p: WithoutIndexPayload)
    requires p.cs == Ccs(ClientCommandSpecifier.UploadSegment) && EmptyCountFits(p)
    ensures ParseClientWithoutIndex(EncodeWithoutIndex(p)) == Ok(p)
  {
  }

  /** An oversized empty count loses its high bits: Some(9) comes back as Some(1). */
  lemma EmptyCountTruncated()
    ensures var p := WithoutIndexPayload(Scs(ServerCommandSpecifier.Upload), false, Some(9), [0, 0, 0, 0, 0, 0, 0]);
      ParseServerWithoutIndex(EncodeWithoutIndex(p)) == Ok(p.(lengthOfEmptyBytes := Some(1)))
  {
  }

  /** The segment command byte rebuilt from its decoded fields equals the byte unless bits 1-3 were set without bit 0. */
  lemma SegmentCommandByteReencode(b: u8)
    ensures CsBits(b) + (if IsToggleFlagSet(b) then 0x10 else 0) + EmptyBytesBits(LengthOfEmptyBytes(b)) == b
      <==> IsSizeFlagSet(b) || b / 2 % 8 == 0
  {
    DecomposeByte(b);
    ComposeByte(b / 32, b / 16 % 2, b / 2 % 8, b % 2);
  }

  /** Re-encoding a parsed segment reproduces it unless bits 1-3 were set without the size bit. */
  lemma WithoutIndexReencode(d: SdoPayloadData, client: bool)
    requires (if client then ParseClientWithoutIndex(d) else ParseServerWithoutIndex(d)).Ok?
    ensures var p := (if client then ParseClientWithoutIndex(d) else ParseServerWithoutIndex(d)).value;
      EncodeWithoutIndex(p) == d <==> IsSizeFlagSet(d[0]) || d[0] / 2 % 8 == 0
  {
    var p := (if client then ParseClientWithoutIndex(d) else ParseServerWithoutIndex(d)).value;
    var e := EncodeWithoutIndex(p);
    var b := d[0];
    assert CsValue(p.cs) == CsBits(b);
    assert e[0] == CsBits(b) + (if IsToggleFlagSet(b) then 0x10 else 0) + EmptyBytesBits(LengthOfEmptyBytes(b));
    SegmentCommandByteReencode(b);
    assert e[1..] == p.data == d[1..];
    SameTail(e, d);
  }
}
