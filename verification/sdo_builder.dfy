/**
 * The SDO frame builders of frame/sdo/builder.rs.
 *
 * `WithIndexFrameBuilder` is a value: every setter consumes the builder and
 * returns an updated copy, so it is a datatype with functions. The segment
 * builder `WithoutIndexFrameBuilder` flips its toggle on every `build(&mut self)`
 * and fills its 7-byte array in a loop, so it is a class.
 *
 * Four specifier names the builder uses are not declared in the modelled enums;
 * they are the values the builder's own wire-byte expectations fix:
 * InitiateDownload is ccs 001 (Download), InitiateUpload is ccs 010 (Upload),
 * DownloadResponse is scs 011 (Download) and UploadResponse is scs 010 (Upload).
 */
module SdoBuilder {
  import opened Bytes
  import opened Wrappers
  import opened SdoAbort
  import opened SdoPayload
  import opened Frame

  const InitiateDownload := Ccs(ClientCommandSpecifier.Download)
  const InitiateUpload := Ccs(ClientCommandSpecifier.Upload)
  const DownloadResponse := Scs(ServerCommandSpecifier.Download)
  const UploadResponse := Scs(ServerCommandSpecifier.Upload)

  /** The node and direction an SDO frame is built for. */
  datatype SdoFrameBuilder = SdoFrameBuilder(nodeId: u8, frameType: FrameType)

  /** The specifier a fresh builder starts with: client-side for SdoRx, server-side otherwise. */
  function UnspecifiedFor(t: FrameType): (cs: CommandSpecifier)
    ensures cs.Ccs? <==> t == SdoRx
    ensures CsValue(cs) == 0xE0
  {
    if t == SdoRx then Ccs(ClientCommandSpecifier.Unspecified) else Scs(ServerCommandSpecifier.Unspecified)
  }

  // ---------------------------------------------------------------- with index

  datatype WithIndexFrameBuilder = WithIndexFrameBuilder(
    nodeId: u8,
    frameType: FrameType,
    commandSpecifier: CommandSpecifier,
    size: CommandDataSize,
    expeditedFlag: bool,
    index: u16,
    subindex: u8,
    data: u32)

  /** `SdoFrameBuilder::with_index`. */
  function WithIndex(b: SdoFrameBuilder, index: u16, subindex: u8): (r: WithIndexFrameBuilder)
    ensures r.nodeId == b.nodeId && r.frameType == b.frameType && r.index == index && r.subindex == subindex
    ensures r.commandSpecifier == UnspecifiedFor(b.frameType)
    ensures ExtractLength(r.size) == 0 && !r.expeditedFlag && r.data == 0
  {
    WithIndexFrameBuilder(b.nodeId, b.frameType, UnspecifiedFor(b.frameType), NotSet, false, index, subindex, 0)
  }

  /** `WithIndexFrameBuilder::build`: never a remote frame. */
  function Build(b: WithIndexFrameBuilder): (r: CanOpenFrame)
    ensures !r.isRtr && !UnspecificSlicePanics(r)
    ensures r.nodeId == b.nodeId && r.frameType == b.frameType && r.payload.SdoWithIndex?
    ensures var p := r.payload.withIndex;
      p.index == b.index && p.subindex == b.subindex && p.data == b.data && ExtractLength(p.size) == ExtractLength(b.size)
  {
    CanOpenFrame(b.nodeId, b.frameType, false,
      SdoWithIndex(WithIndexPayload(b.commandSpecifier, b.size, b.expeditedFlag, b.index, b.subindex, b.data)))
  }

  /** The CAN frame a with-index builder ends up as (`build().into()`). */
  function Wire(b: WithIndexFrameBuilder): CanFrame
  {
    IntoCanFrame(Build(b))
  }

  /** Two builders address the same node, direction and object. */
  predicate SameTarget(a: WithIndexFrameBuilder, b: WithIndexFrameBuilder)
  {
    a.nodeId == b.nodeId && a.frameType == b.frameType && a.index == b.index && a.subindex == b.subindex
  }

  /** Sets the fields every expedited setter sets. */
  function Expedited(b: WithIndexFrameBuilder, cs: CommandSpecifier, size: CommandDataSize, data: u32): (r: WithIndexFrameBuilder)
    ensures SameTarget(r, b) && r.expeditedFlag
  {
    b.(commandSpecifier := cs, size := size, data := data, expeditedFlag := true)
  }

  /** `abort`: server Abort, no size, the abort code as data. */
  function Abort(b: WithIndexFrameBuilder, code: SdoAbortCode): (r: WithIndexFrameBuilder)
    ensures SameTarget(r, b)
    ensures ExtractLength(r.size) == 0 && !r.expeditedFlag && r.data == IntoU32AsWritten(code)
  {
    b.(commandSpecifier := Scs(ServerCommandSpecifier.Abort), size := NotSet, data := IntoU32AsWritten(code), expeditedFlag := false)
  }

  /** `download_one_byte`: `data as u32 & 0xff`. */
  function DownloadOneByte(b: WithIndexFrameBuilder, x: u8): (r: WithIndexFrameBuilder)
    ensures SameTarget(r, b)
    ensures r.expeditedFlag && ExtractLength(r.size) == 1 && r.data == x
  {
    Expedited(b, InitiateDownload, OneByte, x % 0x100)
  }

  /** `download_two_bytes`: `data as u32 & 0xffff`. */
  function DownloadTwoBytes(b: WithIndexFrameBuilder, x: u16): (r: WithIndexFrameBuilder)
    ensures SameTarget(r, b)
    ensures r.expeditedFlag && ExtractLength(r.size) == 2 && r.data == x
  {
    Expedited(b, InitiateDownload, TwoBytes, x % 0x1_0000)
  }

  /** `download_four_bytes`. */
  function DownloadFourBytes(b: WithIndexFrameBuilder, x: u32): (r: WithIndexFrameBuilder)
    ensures SameTarget(r, b)
    ensures r.expeditedFlag && ExtractLength(r.size) == 4 && r.data == x
  {
    Expedited(b, InitiateDownload, FourBytes, x)
  }

  /** `download_response` (of `WithIndexFrameBuilder`): server DownloadResponse, no size, no data. */
  function DownloadResponseFrame(b: WithIndexFrameBuilder): (r: WithIndexFrameBuilder)
    ensures SameTarget(r, b)
    ensures ExtractLength(r.size) == 0 && !r.expeditedFlag && r.data == 0
  {
    b.(commandSpecifier := DownloadResponse, size := NotSet, expeditedFlag := false, data := 0)
  }

  /** `upload_request`: sent with the UploadResponse specifier value 010, no size, no data. */
  function UploadRequestFrame(b: WithIndexFrameBuilder): (r: WithIndexFrameBuilder)
    ensures SameTarget(r, b)
    ensures ExtractLength(r.size) == 0 && !r.expeditedFlag && r.data == 0
  {
    b.(commandSpecifier := UploadResponse, size := NotSet, expeditedFlag := false, data := 0)
  }

  /** `upload_one_byte_expedited_response`. */
  function UploadOneByteExpeditedResponse(b: WithIndexFrameBuilder, x: u8): (r: WithIndexFrameBuilder)
    ensures SameTarget(r, b)
    ensures r.expeditedFlag && ExtractLength(r.size) == 1 && r.data == x
  {
    Expedited(b, UploadResponse, OneByte, x % 0x100)
  }

  /** `upload_two_bytes_response_expedited_response`. */
  function UploadTwoBytesExpeditedResponse(b: WithIndexFrameBuilder, x: u16): (r: WithIndexFrameBuilder)
    ensures SameTarget(r, b)
    ensures r.expeditedFlag && ExtractLength(r.size) == 2 && r.data == x
  {
    Expedited(b, UploadResponse, TwoBytes, x % 0x1_0000)
  }

  /** `upload_three_bytes_expedited_response`: `data & 0x00ffffff`. */
  function UploadThreeBytesExpeditedResponse(b: WithIndexFrameBuilder, x: u32): (r: WithIndexFrameBuilder)
    ensures SameTarget(r, b)
    ensures r.expeditedFlag && ExtractLength(r.size) == 3 && r.data == x % 0x100_0000
  {
    Expedited(b, UploadResponse, ThreeBytes, x % 0x100_0000)
  }

  /** `upload_four_bytes_expedited_response`. */
  function UploadFourBytesExpeditedResponse(b: WithIndexFrameBuilder, x: u32): (r: WithIndexFrameBuilder)
    ensures SameTarget(r, b)
    ensures r.expeditedFlag && ExtractLength(r.size) == 4 && r.data == x
  {
    Expedited(b, UploadResponse, FourBytes, x)
  }

  /** `upload_segmented_response`: announces `length` bytes to follow in segments. */
  function UploadSegmentedResponse(b: WithIndexFrameBuilder, length: u32): (r: WithIndexFrameBuilder)
    ensures SameTarget(r, b)
    ensures !r.expeditedFlag && r.data == length
  {
    b.(commandSpecifier := UploadResponse, size := FourBytes, data := length, expeditedFlag := false)
  }

  /** The size announcing n data bytes, `NotSet` for none. */
  function SizeFor(n: nat): (s: CommandDataSize)
    requires n <= 4
    ensures ExtractLength(s) == n
  {
    match n
    case 0 => NotSet
    case 1 => OneByte
    case 2 => TwoBytes
    case 3 => ThreeBytes
    case 4 => FourBytes
  }

  /** Four bytes or fewer always pack into a `u32`. */
  lemma {:induction false} PackedFits(data: seq<u8>)
    requires |data| <= 4
    ensures FromLe(data) < 0x1_0000_0000
    decreases 4 - |data|
  {
    if |data| < 4 {
      PackedFits(data + [0]);
      FromLeAppendZero(data);
    }
  }

  /** A trailing zero byte does not change a little-endian value. */
  lemma {:induction false} FromLeAppendZero(s: seq<u8>)
    ensures FromLe(s + [0]) == FromLe(s)
  {
    if |s| > 0 {
      assert (s + [0])[1..] == s[1..] + [0];
      FromLeAppendZero(s[1..]);
    }
  }

  /** `download` panics for more than four bytes. */
  predicate ExpeditedDataPanics(data: seq<u8>)
  {
    |data| > 4
  }

  /** `download`: expedited InitiateDownload of 0-4 bytes, packed little-endian. */
  function Download(b: WithIndexFrameBuilder, data: seq<u8>): (r: WithIndexFrameBuilder)
    requires !ExpeditedDataPanics(data)
    ensures SameTarget(r, b) && r.commandSpecifier == InitiateDownload && r.expeditedFlag
    ensures ExtractLength(r.size) == |data| && LeBytes(r.data, 4)[..|data|] == data
    ensures r.data < Pow256(|data|)
  {
    PackedFits(data);
    PackedPrefix(data);
    Expedited(b, InitiateDownload, SizeFor(|data|), FromLe(data))
  }

  /** `upload_expedited_response`: the same packing with InitiateUpload. */
  function UploadExpeditedResponse(b: WithIndexFrameBuilder, data: seq<u8>): (r: WithIndexFrameBuilder)
    requires !ExpeditedDataPanics(data)
    ensures SameTarget(r, b) && r.commandSpecifier == InitiateUpload && r.expeditedFlag
    ensures ExtractLength(r.size) == |data| && LeBytes(r.data, 4)[..|data|] == data
    ensures r.data < Pow256(|data|)
  {
    PackedFits(data);
    PackedPrefix(data);
    Expedited(b, InitiateUpload, SizeFor(|data|), FromLe(data))
  }

  /** The first n of the four little-endian bytes of an n-byte packing are the packed bytes. */
  lemma {:induction false} PackedPrefix(data: seq<u8>)
    requires |data| <= 4
    ensures LeBytes(FromLe(data), 4)[..|data|] == data
  {
    LeBytesFromLe(data);
    LeBytesSplit(FromLe(data), |data|, 4);
  }

  /** The low n bytes of a 4-byte encoding are the n-byte encoding. */
  lemma {:induction false} LeBytesSplit(x: nat, n: nat, m: nat)
    requires n <= m
    ensures LeBytes(x, m)[..n] == LeBytes(x, n)
  {
    if n > 0 {
      LeBytesSplit(x / 256, n - 1, m - 1);
      assert LeBytes(x, m)[..n] == [x % 256] + LeBytes(x / 256, m - 1)[..n - 1];
    }
  }

  /** A built frame is a sendable, non-remote frame at the builder's COB-ID, laid out as the with-index payload. */
  lemma WireLayout(b: WithIndexFrameBuilder)
    ensures Wire(b).id == b.nodeId + FrameTypeValue(b.frameType) * 128 && !Wire(b).rtr
    ensures Wire(b).data == [WithIndexCommandByte(Build(b).payload.withIndex)] + LeBytes(b.index, 2) + [b.subindex] + LeBytes(b.data, 4)
  {
  }

  /** The wire frame of a builder, byte by byte, once its command byte and little-endian fields are known. */
  lemma WireBytes(b: WithIndexFrameBuilder, c: u8, i0: u8, i1: u8, d0: u8, d1: u8, d2: u8, d3: u8)
    requires WithIndexCommandByte(Build(b).payload.withIndex) == c
    requires LeBytes(b.index, 2) == [i0, i1] && LeBytes(b.data, 4) == [d0, d1, d2, d3]
    ensures Wire(b) == CanFrame(b.nodeId + FrameTypeValue(b.frameType) * 128, [c, i0, i1, b.subindex, d0, d1, d2, d3], false)
  {
    WireLayout(b);
  }

  /** A frame built with the abort fields and data x starts 0x80 and carries x little-endian in bytes 4-7. */
  lemma AbortWireBytes(b: WithIndexFrameBuilder, x: u32)
    ensures var a := b.(commandSpecifier := Scs(ServerCommandSpecifier.Abort), size := NotSet, data := x, expeditedFlag := false);
      Wire(a).data[0] == 0x80 && Wire(a).data[4..] == LeBytes(x, 4)
  {
    WireLayout(b.(commandSpecifier := Scs(ServerCommandSpecifier.Abort), size := NotSet, data := x, expeditedFlag := false));
  }

  /**
   * An abort frame starts 0x80 and carries the code as `Into<u32>` encodes it.
   * The decoder reads back every code it produces except ReadWriteOnlyError,
   * which it reads as UnsupportedAccess.
   */
  lemma AbortWire(b: WithIndexFrameBuilder, code: SdoAbortCode)
    ensures Wire(Abort(b, code)).data[0] == 0x80
    ensures Wire(Abort(b, code)).data[4..] == LeBytes(IntoU32AsWritten(code), 4)
    ensures Decodable(code) && code != ReadWriteOnlyError ==> FromU32(FromLe(Wire(Abort(b, code)).data[4..])) == code
    ensures code == ReadWriteOnlyError ==> FromU32(FromLe(Wire(Abort(b, code)).data[4..])) == UnsupportedAccess
  {
    var x := IntoU32AsWritten(code);
    AbortWireBytes(b, x);
    FromLeLeBytes(x, 4);
    AbortReadBack(code);
  }

  /** The first byte a built frame sends is the command byte of its payload. */
  lemma WireFirstByte(b: WithIndexFrameBuilder)
    ensures Wire(b).data[0] == WithIndexCommandByte(Build(b).payload.withIndex)
  {
    WireLayout(b);
  }

  /** The command bytes the fixed-width download setters send: 0x2F, 0x2B and 0x23. */
  lemma DownloadFixedCommandBytes(b: WithIndexFrameBuilder, x8: u8, x16: u16, x32: u32)
    ensures Wire(DownloadOneByte(b, x8)).data[0] == 0x2F && Wire(DownloadTwoBytes(b, x16)).data[0] == 0x2B
    ensures Wire(DownloadFourBytes(b, x32)).data[0] == 0x23
  {
    WireFirstByte(DownloadOneByte(b, x8));
    WireFirstByte(DownloadTwoBytes(b, x16));
    WireFirstByte(DownloadFourBytes(b, x32));
  }

  /** The command bytes of the fixed-width upload responses: 0x4F, 0x4B, 0x47, 0x43 and 0x41 for a segmented one. */
  lemma UploadFixedCommandBytes(b: WithIndexFrameBuilder, x8: u8, x16: u16, x32: u32)
    ensures Wire(UploadOneByteExpeditedResponse(b, x8)).data[0] == 0x4F
    ensures Wire(UploadTwoBytesExpeditedResponse(b, x16)).data[0] == 0x4B
    ensures Wire(UploadThreeBytesExpeditedResponse(b, x32)).data[0] == 0x47
    ensures Wire(UploadFourBytesExpeditedResponse(b, x32)).data[0] == 0x43
    ensures Wire(UploadSegmentedResponse(b, x32)).data[0] == 0x41
  {
    WireFirstByte(UploadOneByteExpeditedResponse(b, x8));
    WireFirstByte(UploadTwoBytesExpeditedResponse(b, x16));
    WireFirstByte(UploadThreeBytesExpeditedResponse(b, x32));
    WireFirstByte(UploadFourBytesExpeditedResponse(b, x32));
    WireFirstByte(UploadSegmentedResponse(b, x32));
  }

  /** Requests and responses without data: 0x60 for a download response, 0x40 for an upload request, data all zero. */
  lemma NoDataCommandBytes(b: WithIndexFrameBuilder)
    ensures Wire(DownloadResponseFrame(b)).data[0] == 0x60 && Wire(UploadRequestFrame(b)).data[0] == 0x40
    ensures Wire(DownloadResponseFrame(b)).data[4..] == [0, 0, 0, 0] == Wire(UploadRequestFrame(b)).data[4..]
  {
    WireLayout(DownloadResponseFrame(b));
    WireLayout(UploadRequestFrame(b));
  }

  /** The three-byte upload response keeps a value that fits three bytes and masks any other. */
  lemma ThreeByteResponseMasked(b: WithIndexFrameBuilder, x: u32)
    ensures UploadThreeBytesExpeditedResponse(b, x).data < Pow256(3)
    ensures UploadThreeBytesExpeditedResponse(b, x).data == x <==> x < Pow256(3)
  {
    assert Pow256(3) == 0x100_0000;
  }

  /** The data bytes of a three-byte upload response are the value's low three bytes, then a zero byte. */
  lemma ThreeByteResponseBytes(b: WithIndexFrameBuilder, x: u32)
    ensures LeBytes(UploadThreeBytesExpeditedResponse(b, x).data, 4) == LeBytes(x, 3) + [0]
  {
    var y := UploadThreeBytesExpeditedResponse(b, x).data;
    assert y == x % Pow256(3);
    MaskedLeBytes(x, 3);
  }

  /** The command byte `download` and `upload_expedited_response` send for n data bytes. */
  function ExpeditedCommandByte(cs: u8, n: nat): u8
    requires n <= 4 && CsBits(cs) == cs && cs <= 0x60
  {
    if n == 0 then cs + 0x02 else cs + 0x03 + (4 - n) * 4
  }

  /** `download` and `upload_expedited_response` command bytes for 0-4 bytes: 0x22/0x2F/0x2B/0x27/0x23 and 0x42/0x4F/0x4B/0x47/0x43. */
  lemma ExpeditedDataCommandBytes(b: WithIndexFrameBuilder, data: seq<u8>)
    requires !ExpeditedDataPanics(data)
    ensures Wire(Download(b, data)).data[0] == ExpeditedCommandByte(0x20, |data|)
    ensures Wire(UploadExpeditedResponse(b, data)).data[0] == ExpeditedCommandByte(0x40, |data|)
  {
    WireLayout(Download(b, data));
    WireLayout(UploadExpeditedResponse(b, data));
  }

  /** A download frame read by the client-side parser gives the data back in the bytes its size announces. */
  lemma DownloadParsed(b: WithIndexFrameBuilder, data: seq<u8>)
    requires !ExpeditedDataPanics(data)
    ensures var p := ParseClientWithIndex(Wire(Download(b, data)).data);
      p.Ok? && p.value.cs == InitiateDownload && p.value.expeditedFlag && p.value.index == b.index
      && p.value.subindex == b.subindex && LeBytes(p.value.data, 4)[..ExtractLength(p.value.size)] == data
  {
    var r := Download(b, data);
    ClientWithIndexRoundTrip(Build(r).payload.withIndex);
  }

  // ---------------------------------------------------------------- without index

  /** `7 - len` empty bytes for a segment shorter than 7, `None` otherwise. */
  function EmptyCount(len: nat): (r: Option<u8>)
    ensures r.Some? <==> len < 7
    ensures r.Some? ==> r.value + len == 7
  {
    if len < 7 then Some(7 - len) else None
  }

  /** The 7 segment bytes: the first min(len, 7) input bytes, then zeros. */
  function SegmentBytes(src: seq<u8>): (r: SegmentData)
    ensures forall i :: 0 <= i < 7 ==> r[i] == if i < |src| then src[i] else 0
  {
    seq(7, i requires 0 <= i < 7 => if i < |src| then src[i] else 0)
  }

  /** The segment builder: `build` flips the toggle before building. */
  class WithoutIndexFrameBuilder {
    const nodeId: u8
    const frameType: FrameType
    var commandSpecifier: CommandSpecifier
    var lengthOfEmptyBytes: Option<u8>
    var toggle: bool
    const data: array<u8>

    ghost predicate Valid()
      reads this
    {
      data.Length == 7
    }

    /** The segment payload the fields describe. */
    function Payload(): WithoutIndexPayload
      reads this, data
      requires Valid()
    {
      WithoutIndexPayload(commandSpecifier, toggle, lengthOfEmptyBytes, data[..])
    }

    /** `SdoFrameBuilder::without_index`: toggle starts set so that the first build sends it clear. */
    constructor (b: SdoFrameBuilder)
      ensures Valid() && fresh(data)
      ensures nodeId == b.nodeId && frameType == b.frameType
      ensures Payload() == WithoutIndexPayload(UnspecifiedFor(b.frameType), true, None, [0, 0, 0, 0, 0, 0, 0])
    {
      nodeId := b.nodeId;
      frameType := b.frameType;
      commandSpecifier := UnspecifiedFor(b.frameType);
      toggle := true;
      lengthOfEmptyBytes := None;
      data := new u8[7](_ => 0);
    }

    /** `build(&mut self)`: flips the toggle, then builds a non-remote frame from the fields. */
    method Build() returns (f: CanOpenFrame)
      requires Valid()
      modifies this`toggle
      ensures Valid() && toggle == !old(toggle)
      ensures f == CanOpenFrame(nodeId, frameType, false, SdoWithoutIndex(Payload()))
    {
      toggle := !toggle;
      f := CanOpenFrame(nodeId, frameType, false, SdoWithoutIndex(Payload()));
    }

    /** `.toggle(t)`: sets the toggle field; its declaration is not part of the modelled files. */
    method SetToggle(t: bool)
      requires Valid()
      modifies this`toggle
      ensures Valid() && Payload() == old(Payload()).(toggle := t)
    {
      toggle := t;
    }

    /** `upload_request`: client UploadSegment, zero empty bytes announced, zero data. */
    method UploadRequest()
      requires Valid()
      modifies this`commandSpecifier, this`lengthOfEmptyBytes, data
      ensures Valid()
      ensures Payload() == WithoutIndexPayload(Ccs(ClientCommandSpecifier.UploadSegment), old(toggle), Some(0), [0, 0, 0, 0, 0, 0, 0])
    {
      commandSpecifier := Ccs(ClientCommandSpecifier.UploadSegment);
      lengthOfEmptyBytes := Some(0);
      Fill([]);
    }

    /** `upload_response`: sets server DownloadSegment (scs 001) and the segment bytes. */
    method UploadResponse(src: seq<u8>)
      requires Valid()
      modifies this`commandSpecifier, this`lengthOfEmptyBytes, data
      ensures Valid()
      ensures Payload() == WithoutIndexPayload(Scs(ServerCommandSpecifier.DownloadSegment), old(toggle), EmptyCount(|src|), SegmentBytes(src))
    {
      commandSpecifier := Scs(ServerCommandSpecifier.DownloadSegment);
      lengthOfEmptyBytes := EmptyCount(|src|);
      Fill(src);
    }

    /** `download_request`: sets client DownloadSegment (ccs 000) and the segment bytes. */
    method DownloadRequest(src: seq<u8>)
      requires Valid()
      modifies this`commandSpecifier, this`lengthOfEmptyBytes, data
      ensures Valid()
      ensures Payload() == WithoutIndexPayload(Ccs(ClientCommandSpecifier.DownloadSegment), old(toggle), EmptyCount(|src|), SegmentBytes(src))
    {
      commandSpecifier := Ccs(ClientCommandSpecifier.DownloadSegment);
      lengthOfEmptyBytes := EmptyCount(|src|);
      Fill(src);
    }

    /** `download_response` (of `WithoutIndexFrameBuilder`): server DownloadResponse, zero empty bytes, zero data. */
    method DownloadResponseSegment()
      requires Valid()
      modifies this`commandSpecifier, this`lengthOfEmptyBytes, data
      ensures Valid()
      ensures Payload() == WithoutIndexPayload(DownloadResponse, old(toggle), Some(0), [0, 0, 0, 0, 0, 0, 0])
    {
      commandSpecifier := DownloadResponse;
      lengthOfEmptyBytes := Some(0);
      Fill([]);
    }

    /** The `for i in 0..7` copy loop shared by the setters: input bytes first, zeros after. */
    method Fill(src: seq<u8>)
      requires Valid()
      modifies data
      ensures data[..] == SegmentBytes(src)
    {
      for i := 0 to 7
        invariant forall k :: 0 <= k < i ==> data[k] == if k < |src| then src[k] else 0
      {
        if i < |src| {
          data[i] := src[i];
        } else {
          data[i] := 0;
        }
      }
    }
  }

  /** A segment frame is its command byte followed by the seven segment bytes. */
  lemma SegmentWire(f: CanOpenFrame)
    requires f.payload.SdoWithoutIndex?
    ensures var p := f.payload.withoutIndex;
      IntoCanFrame(f).data == [CsValue(p.cs) + (if p.toggle then 0x10 else 0x00) + EmptyBytesBits(p.lengthOfEmptyBytes)] + p.data
  {
  }

  /** An upload-request segment is sent as 0x61, or 0x71 with the toggle set, followed by seven zeros. */
  lemma UploadRequestSegmentWire(f: CanOpenFrame, t: bool)
    requires f.payload == SdoWithoutIndex(WithoutIndexPayload(Ccs(ClientCommandSpecifier.UploadSegment), t, Some(0), [0, 0, 0, 0, 0, 0, 0]))
    ensures IntoCanFrame(f).data == [if t then 0x71 else 0x61, 0, 0, 0, 0, 0, 0, 0]
  {
    SegmentWire(f);
  }

  /** Three builds of a client upload request from node 1 send 0x61, 0x71, 0x61 at COB-ID 0x601. */
  method ToggleSequenceExample() returns (first: CanFrame, second: CanFrame, third: CanFrame)
    ensures first.data == [0x61, 0, 0, 0, 0, 0, 0, 0] && second.data == [0x71, 0, 0, 0, 0, 0, 0, 0]
    ensures third.data == [0x61, 0, 0, 0, 0, 0, 0, 0]
    ensures first.id == second.id == third.id == 0x601 && !third.rtr
  {
    var b := new WithoutIndexFrameBuilder(SdoFrameBuilder(1, SdoRx));
    b.UploadRequest();
    var request := WithoutIndexPayload(Ccs(ClientCommandSpecifier.UploadSegment), true, Some(0), [0, 0, 0, 0, 0, 0, 0]);
    assert b.Payload() == request;
    var f := b.Build();
    assert b.Payload() == request.(toggle := false);
    UploadRequestSegmentWire(f, false);
    first := IntoCanFrame(f);
    f := b.Build();
    assert b.Payload() == request;
    UploadRequestSegmentWire(f, true);
    second := IntoCanFrame(f);
    f := b.Build();
    UploadRequestSegmentWire(f, false);
    third := IntoCanFrame(f);
  }

  /** An `upload_response` segment is sent with command byte 0x20, the toggle bit and the empty-byte bits, then its seven bytes. */
  lemma UploadResponseSegmentWire(f: CanOpenFrame, t: bool, src: seq<u8>)
    requires f.payload == SdoWithoutIndex(WithoutIndexPayload(Scs(ServerCommandSpecifier.DownloadSegment), t, EmptyCount(|src|), SegmentBytes(src)))
    ensures IntoCanFrame(f).data == [0x20 + (if t then 0x10 else 0x00) + EmptyBytesBits(EmptyCount(|src|))] + SegmentBytes(src)
  {
    SegmentWire(f);
  }

  /** `upload_response(src).build().into()` on a segment builder: the toggle flips and the segment is sent. */
  method SendUploadResponse(b: WithoutIndexFrameBuilder, src: seq<u8>) returns (frame: CanFrame)
    requires b.Valid()
    modifies b`commandSpecifier, b`lengthOfEmptyBytes, b.data, b`toggle
    ensures b.Valid() && b.toggle == !old(b.toggle)
    ensures frame.data == [0x20 + (if b.toggle then 0x10 else 0x00) + EmptyBytesBits(EmptyCount(|src|))] + SegmentBytes(src)
  {
    b.UploadResponse(src);
    var f := b.Build();
    UploadResponseSegmentWire(f, b.toggle, src);
    frame := IntoCanFrame(f);
  }

  /**
   * Three `upload_response` segments (7, 9 and 4 bytes) send command bytes
   * 0x20, 0x30 and 0x27: the DownloadSegment specifier contributes 0x20 to each.
   */
  method UploadResponseExample() returns (first: CanFrame, second: CanFrame, third: CanFrame)
    ensures |first.data| == |second.data| == |third.data| == 8
    ensures first.data[0] == 0x20 && second.data[0] == 0x30 && third.data[0] == 0x27
    ensures third.data[1..] == SegmentBytes([1, 2, 3, 4])
  {
    var b := new WithoutIndexFrameBuilder(SdoFrameBuilder(1, SdoRx));
    first := SendUploadResponse(b, [1, 2, 3, 4, 5, 6, 7]);
    second := SendUploadResponse(b, [1, 2, 3, 4, 5, 6, 7, 8, 9]);
    third := SendUploadResponse(b, [1, 2, 3, 4]);
  }
}
