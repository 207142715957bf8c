/**
 * The older SDO frame codec of frame/sdo.rs: one command specifier for both
 * directions decoded from bits 5-7 of the command byte, the size, toggle and
 * empty-byte fields, and the parse of an SDO frame into an expedited or a
 * segmented frame.
 */
module LegacySdoFrame {
  import opened Bytes
  import opened Wrappers
  import LegacyFrame
  import Util

  /** `CommandSpecifier`: client and server specifiers under one set of names. */
  datatype CommandSpecifier =
    | Download
    | InitiateDownload
    | InitiateUpload
    | Upload
    | Abort
    | BlockUpload
    | BlockDownload
    | Unspecified(code: u8)

  /** `From<u8> for CommandSpecifier`: bits 5-7; for 111 the whole byte is kept. */
  function CommandSpecifierFromU8(b: u8): (r: CommandSpecifier)
    ensures r.Unspecified? <==> b / 32 == 7
    ensures r.Unspecified? ==> r.code == b
  {
    match b / 32
    case 0 => Download
    case 1 => InitiateDownload
    case 2 => InitiateUpload
    case 3 => Upload
    case 4 => Abort
    case 5 => BlockUpload
    case 6 => BlockDownload
    case _ => Unspecified(b)
  }

  /** `Into<u8> for CommandSpecifier`: the specifier in bits 5-7, or the kept byte. */
  function CommandSpecifierIntoU8(cs: CommandSpecifier): (r: u8)
    ensures cs.Unspecified? ==> r == cs.code
    ensures !cs.Unspecified? ==> r % 32 == 0 && r < 0xE0 && CommandSpecifierFromU8(r) == cs
  {
    match cs
    case Download => 0x00
    case InitiateDownload => 0x20
    case InitiateUpload => 0x40
    case Upload => 0x60
    case Abort => 0x80
    case BlockUpload => 0xA0
    case BlockDownload => 0xC0
    case Unspecified(x) => x
  }

  /** Encoding a decoded byte keeps bits 5-7 and clears the rest, unless bits 5-7 are 111. */
  lemma CommandSpecifierIntoFrom(i: u8)
    ensures CommandSpecifierIntoU8(CommandSpecifierFromU8(i)) == if i / 32 == 7 then i else i / 32 * 32
  {
  }

  /**
   * Every specifier except an `Unspecified` byte below 0xE0 is recovered from
   * its encoding; such a byte decodes by its top bits instead.
   */
  lemma CommandSpecifierFromInto(cs: CommandSpecifier)
    requires cs.Unspecified? ==> cs.code / 32 == 7
    ensures CommandSpecifierFromU8(CommandSpecifierIntoU8(cs)) == cs
  {
  }

  /** The decoding examples of the source's tests, and an `Unspecified` byte that does not survive. */
  lemma CommandSpecifierExamples()
    ensures CommandSpecifierFromU8(0x01) == Download && CommandSpecifierFromU8(0x21) == InitiateDownload
    ensures CommandSpecifierFromU8(0x41) == InitiateUpload && CommandSpecifierFromU8(0x61) == Upload
    ensures CommandSpecifierFromU8(0x81) == Abort && CommandSpecifierFromU8(0xA1) == BlockUpload
    ensures CommandSpecifierFromU8(0xC1) == BlockDownload && CommandSpecifierFromU8(0xE1) == Unspecified(0xE1)
    ensures CommandSpecifierFromU8(CommandSpecifierIntoU8(Unspecified(0x21))) == InitiateDownload
  {
  }

  /** `CommandDataSize`. */
  datatype CommandDataSize = OneByte | TwoBytes | ThreeBytes | FourBytes

  /** The enum's discriminant: the size field in bits 2-3. */
  function DataSizeBits(s: CommandDataSize): u8
  {
    match s
    case OneByte => 0x0C
    case TwoBytes => 0x08
    case ThreeBytes => 0x04
    case FourBytes => 0x00
  }

  /** `From<u8> for CommandDataSize`: total over bits 2-3, which it reads and nothing else. */
  function DataSizeFromU8(b: u8): (r: CommandDataSize)
    ensures DataSizeBits(r) == b / 4 % 4 * 4
  {
    match b / 4 % 4
    case 0 => FourBytes
    case 1 => ThreeBytes
    case 2 => TwoBytes
    case 3 => OneByte
  }

  /** Every size is recovered from its bits. */
  lemma DataSizeRoundTrip(s: CommandDataSize)
    ensures DataSizeFromU8(DataSizeBits(s)) == s
  {
  }

  /** `is_size_flag_set`: bit 0. */
  predicate IsSizeFlagSet(b: u8)
  {
    b % 2 == 1
  }

  /** `is_toggle_flag_set`: bit 4. */
  predicate IsToggleFlagSet(b: u8)
  {
    b / 16 % 2 == 1
  }

  /** The flags are the mask tests `b & 0x01` and `b & 0x10` of the command byte. */
  lemma FlagMasks(b: u8)
    ensures IsSizeFlagSet(b) <==> (b as bv8) & 0x01 != 0
    ensures IsToggleFlagSet(b) <==> (b as bv8) & 0x10 != 0
  {
  }

  /** `length_of_empty_bytes`: bits 1-3, when the size flag is set. */
  function LengthOfEmptyBytes(b: u8): (r: Option<u8>)
    ensures r.Some? <==> IsSizeFlagSet(b)
    ensures r.Some? ==> r.value < 8
  {
    if IsSizeFlagSet(b) then Some(b / 2 % 8) else None
  }

  /**
   * A command byte assembled from specifier c (bits 5-7), toggle t (bit 4),
   * empty count e (bits 1-3) and size flag s (bit 0) reads each field back.
   */
  lemma {:induction false} CommandByteFields(c: nat, t: nat, e: nat, s: nat)
    requires c < 8 && t < 2 && e < 8 && s < 2
    ensures var b := c * 32 + t * 16 + e * 2 + s;
      b < 256 && (IsSizeFlagSet(b) <==> s == 1) && (IsToggleFlagSet(b) <==> t == 1)
      && LengthOfEmptyBytes(b) == (if s == 1 then Some(e) else None)
      && DataSizeBits(DataSizeFromU8(b)) == (e / 2) * 4
      && (CommandSpecifierFromU8(b).Unspecified? <==> c == 7)
  {
    ComposeByte(c, t, e, s);
  }

  /** The size and toggle flag examples of the source's tests, and two added examples of the empty-byte count. */
  lemma FlagExamples()
    ensures IsSizeFlagSet(0x01) && !IsSizeFlagSet(0x00) && IsSizeFlagSet(0x09) && !IsSizeFlagSet(0x3E)
    ensures IsToggleFlagSet(0x10) && !IsToggleFlagSet(0x00) && IsToggleFlagSet(0x50) && !IsToggleFlagSet(0x01)
    ensures LengthOfEmptyBytes(0x0B) == Some(5) && LengthOfEmptyBytes(0x0A) == None
  {
  }

  /** `SdoExpeditedFrame`. */
  datatype ExpeditedFrame = ExpeditedFrame(cs: CommandSpecifier, size: CommandDataSize, index: u16, subindex: u8, data: u32)

  /** The `[u8; 7]` segment data. */
  type SegmentData = s: seq<u8> | |s| == 7 witness [0, 0, 0, 0, 0, 0, 0]

  /** `SdoSegmentedFrame`. */
  datatype SegmentedFrame = SegmentedFrame(cs: CommandSpecifier, toggle: bool, lengthOfEmptyBytes: Option<u8>, data: SegmentData)

  /** `SdoFrame`. */
  datatype SdoFrame = Expedited(expedited: ExpeditedFrame) | Segmented(segmented: SegmentedFrame)

  /** `SDOError`, whose one message is "SDO frame parse error". */
  datatype SdoError = SdoFrameParseError

  /**
   * The expedited fields of 8 data bytes: index bytes 1-2 and data bytes 4-7
   * little-endian, subindex byte 3. Bytes 1-7 are recovered from the fields.
   */
  function ExpeditedFields(d: LegacyFrame.FrameData): (r: ExpeditedFrame)
    ensures r.cs == CommandSpecifierFromU8(d[0]) && r.size == DataSizeFromU8(d[0])
    ensures LeBytes(r.index, 2) + [r.subindex] + LeBytes(r.data, 4) == d[1..]
  {
    Util.FromLe2(d[1], d[2]);
    Util.FromLe4(d[4], d[5], d[6], d[7]);
    LeBytesFromLe([d[1], d[2]]);
    LeBytesFromLe([d[4], d[5], d[6], d[7]]);
    assert d[1..] == [d[1], d[2]] + [d[3]] + [d[4], d[5], d[6], d[7]];
    var index := d[1] as int + (d[2] as int) * 0x100;
    var data := d[4] as int + (d[5] as int) * 0x100 + (d[6] as int) * 0x1_0000 + (d[7] as int) * 0x100_0000;
    ExpeditedFrame(CommandSpecifierFromU8(d[0]), DataSizeFromU8(d[0]), index, d[3], data)
  }

  /**
   * `SdoFrame::parse`: only SsdoTx and SsdoRx frames are read. Abort, Download
   * and Upload are expedited; every other specifier, the initiating ones
   * included, is read as a segment.
   */
  function Parse(frame: LegacyFrame.CanOpenFrame): (r: Result<SdoFrame, SdoError>)
    ensures r.Err? <==> frame.frameType != LegacyFrame.SsdoTx && frame.frameType != LegacyFrame.SsdoRx
    ensures r.Ok? ==> (r.value.Expedited? <==> CommandSpecifierFromU8(frame.data[0]) in {Abort, Download, Upload})
    ensures r.Ok? && r.value.Expedited? ==> r.value.expedited == ExpeditedFields(frame.data)
    ensures r.Ok? && r.value.Segmented? ==>
      r.value.segmented == SegmentedFrame(CommandSpecifierFromU8(frame.data[0]), IsToggleFlagSet(frame.data[0]),
        LengthOfEmptyBytes(frame.data[0]), frame.data[1..])
  {
    match frame.frameType
    case SsdoTx | SsdoRx =>
      var d := frame.data;
      var cs := CommandSpecifierFromU8(d[0]);
      if cs == Abort || cs == Download || cs == Upload then Ok(Expedited(ExpeditedFields(d)))
      else Ok(Segmented(SegmentedFrame(cs, IsToggleFlagSet(d[0]), LengthOfEmptyBytes(d[0]), d[1..])))
    case _ => Err(SdoFrameParseError)
  }

  /**
   * Parsing loses only bits 0-4 of an expedited command byte: the rest of the
   * frame is recovered from the fields.
   */
  lemma ExpeditedParseLossless(frame: LegacyFrame.CanOpenFrame)
    requires Parse(frame).Ok? && Parse(frame).value.Expedited?
    ensures var e := Parse(frame).value.expedited;
      [CommandSpecifierIntoU8(e.cs)] + LeBytes(e.index, 2) + [e.subindex] + LeBytes(e.data, 4)
        == [frame.data[0] / 32 * 32] + frame.data[1..]
  {
    CommandSpecifierIntoFrom(frame.data[0]);
  }

  /** An initiate-download request with command byte 0x23 is read as a segment, not as an expedited write. */
  lemma InitiateIsSegmentExample()
    ensures var f := LegacyFrame.CanOpenFrame(1, LegacyFrame.SsdoRx, 8, [0x23, 0x00, 0x10, 0x00, 1, 2, 3, 4], false);
      Parse(f) == Ok(Segmented(SegmentedFrame(InitiateDownload, false, Some(1), [0x00, 0x10, 0x00, 1, 2, 3, 4])))
  {
    var f := LegacyFrame.CanOpenFrame(1, LegacyFrame.SsdoRx, 8, [0x23, 0x00, 0x10, 0x00, 1, 2, 3, 4], false);
    assert f.data[1..] == [0x00, 0x10, 0x00, 1, 2, 3, 4];
  }
}
