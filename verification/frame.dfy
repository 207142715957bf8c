/**
 * CANopen frames of frame/mod.rs: the COB-ID split into function code
 * (frame type) and node id of the CiA 301 pre-defined connection set, the
 * classification of a received CAN frame's payload, and the conversion back
 * into a CAN frame.
 */
module Frame {
  import opened Bytes
  import opened Wrappers
  import opened Errors
  import opened SdoPayload

  /** The 4-bit function code; 0b1101 and 0b1111 have no variant. */
  datatype FrameType =
    | Nmt | SyncEmergency | Time
    | Tpdo1 | Rpdo1 | Tpdo2 | Rpdo2 | Tpdo3 | Rpdo3 | Tpdo4 | Rpdo4
    | SdoTx | SdoRx | NmtErrorControl

  /** The `#[repr(u8)]` value of a frame type. */
  function FrameTypeValue(t: FrameType): (v: u8)
    ensures v < 16 && v != 13 && v != 15
  {
    match t
    case Nmt => 0
    case SyncEmergency => 1
    case Time => 2
    case Tpdo1 => 3
    case Rpdo1 => 4
    case Tpdo2 => 5
    case Rpdo2 => 6
    case Tpdo3 => 7
    case Rpdo3 => 8
    case Tpdo4 => 9
    case Rpdo4 => 10
    case SdoTx => 11
    case SdoRx => 12
    case NmtErrorControl => 14
  }

  /** `FrameType::try_from(u8)` (derived `TryFromPrimitive`). */
  function FrameTypeFromU8(v: u8): (r: Option<FrameType>)
    ensures r.Some? <==> v <= 12 || v == 14
    ensures r.Some? ==> FrameTypeValue(r.value) == v
  {
    match v
    case 0 => Some(Nmt)
    case 1 => Some(SyncEmergency)
    case 2 => Some(Time)
    case 3 => Some(Tpdo1)
    case 4 => Some(Rpdo1)
    case 5 => Some(Tpdo2)
    case 6 => Some(Rpdo2)
    case 7 => Some(Tpdo3)
    case 8 => Some(Rpdo3)
    case 9 => Some(Tpdo4)
    case 10 => Some(Rpdo4)
    case 11 => Some(SdoTx)
    case 12 => Some(SdoRx)
    case 14 => Some(NmtErrorControl)
    case _ => None
  }

  /** Every frame type is recovered from its value. */
  lemma FrameTypeRoundTrip(t: FrameType)
    ensures FrameTypeFromU8(FrameTypeValue(t)) == Some(t)
  {
  }

  /**
   * The foreign `tokio_socketcan::CANFrame`: identifier, data and remote flag.
   * Its constructor's own checks are not part of this model, so the data may
   * have any length here and the decoder's length check is visible.
   */
  datatype CanFrame = CanFrame(id: u32, data: seq<u8>, rtr: bool)

  datatype UnspecificPayload = UnspecificPayload(length: nat, data: SdoPayloadData)

  datatype Payload =
    | Unspecific(unspecific: UnspecificPayload)
    | SdoWithIndex(withIndex: WithIndexPayload)
    | SdoWithoutIndex(withoutIndex: WithoutIndexPayload)

  datatype CanOpenFrame = CanOpenFrame(nodeId: u8, frameType: FrameType, isRtr: bool, payload: Payload)

  /** `CANOpenFrame::cob_id`: node id + (function code << 7). */
  function CobId(f: CanOpenFrame): (r: u32)
    ensures r % 128 == f.nodeId % 128 && (f.nodeId < 128 ==> r / 128 == FrameTypeValue(f.frameType))
  {
    f.nodeId + FrameTypeValue(f.frameType) * 128
  }

  /** `extract_frame_type_and_node_id`: 11-bit range check, then `cob & 0x7F` and `(cob >> 7) & 0xF`. */
  function ExtractFrameTypeAndNodeId(cobId: u32): (r: Result<(FrameType, u8), CanOpenError>)
    ensures r.Err? <==> cobId > 0x77F || cobId / 128 % 16 == 13
    ensures r.Err? ==> r.error == InvalidCobId(cobId)
    ensures r.Ok? ==> r.value.1 == cobId % 128 && FrameTypeValue(r.value.0) == cobId / 128
  {
    if cobId > 0x77F then Err(InvalidCobId(cobId))
    else
      var nodeId := cobId % 128;
      match FrameTypeFromU8(cobId / 128 % 16)
      case None => Err(InvalidCobId(cobId))
      case Some(t) => Ok((t, nodeId))
  }

  /** Every accepted COB-ID is rebuilt by `cob_id` from the pair it splits into. */
  lemma ExtractThenCobId(cobId: u32, isRtr: bool, payload: Payload)
    requires ExtractFrameTypeAndNodeId(cobId).Ok?
    ensures var (t, n) := ExtractFrameTypeAndNodeId(cobId).value;
      CobId(CanOpenFrame(n, t, isRtr, payload)) == cobId
  {
  }

  /** Every node id below 128 and frame type are recovered from the COB-ID they make. */
  lemma CobIdThenExtract(f: CanOpenFrame)
    requires f.nodeId < 128
    ensures ExtractFrameTypeAndNodeId(CobId(f)) == Ok((f.frameType, f.nodeId))
  {
    var c := CobId(f);
    DivMod(c, 128, FrameTypeValue(f.frameType), f.nodeId);
  }

  /** The examples of the source's tests. */
  lemma ExtractExamples()
    ensures ExtractFrameTypeAndNodeId(0x601) == Ok((SdoRx, 1))
    ensures ExtractFrameTypeAndNodeId(0x581) == Ok((SdoTx, 1))
    ensures ExtractFrameTypeAndNodeId(0x1EF) == Ok((Tpdo1, 0x6F))
    ensures ExtractFrameTypeAndNodeId(0xFFFF) == Err(InvalidCobId(0xFFFF))
  {
  }

  /** The received bytes copied into a zeroed 8-byte array. */
  function PadTo8(data: seq<u8>): (r: SdoPayloadData)
    requires |data| <= 8
    ensures r[..|data|] == data
    ensures forall i :: |data| <= i < 8 ==> r[i] == 0
  {
    data + seq(8 - |data|, _ => 0)
  }

  /** The payload classification of `TryFrom<CANFrame>` once the frame type is known. */
  function Classify(t: FrameType, data: seq<u8>): Payload
    requires |data| <= 8
  {
    var padded := PadTo8(data);
    var unspecific := Unspecific(UnspecificPayload(|data|, padded));
    match t
    case SdoTx =>
      if |data| != 8 then unspecific
      else if ParseServerWithIndex(padded).Ok? then SdoWithIndex(ParseServerWithIndex(padded).value)
      else if ParseServerWithoutIndex(padded).Ok? then SdoWithoutIndex(ParseServerWithoutIndex(padded).value)
      else unspecific
    case SdoRx =>
      if |data| != 8 then unspecific
      else if ParseClientWithIndex(padded).Ok? then SdoWithIndex(ParseClientWithIndex(padded).value)
      else if ParseClientWithoutIndex(padded).Ok? then SdoWithoutIndex(ParseClientWithoutIndex(padded).value)
      else unspecific
    case _ => unspecific
  }

  /** `TryFrom<CANFrame> for CANOpenFrame`. */
  function TryFromCanFrame(f: CanFrame): (r: Result<CanOpenFrame, CanOpenError>)
    ensures ExtractFrameTypeAndNodeId(f.id).Err? ==> r == Err(ExtractFrameTypeAndNodeId(f.id).error)
    ensures ExtractFrameTypeAndNodeId(f.id).Ok? && |f.data| > 8 ==> r == Err(InvalidDataLength(|f.data|))
    ensures r.Ok? <==> ExtractFrameTypeAndNodeId(f.id).Ok? && |f.data| <= 8
    ensures r.Ok? ==> CobId(r.value) == f.id && r.value.nodeId < 128 && r.value.isRtr == f.rtr
  {
    match ExtractFrameTypeAndNodeId(f.id)
    case Err(e) => Err(e)
    case Ok((t, n)) =>
      if |f.data| > 8 then Err(InvalidDataLength(|f.data|))
      else Ok(CanOpenFrame(n, t, f.rtr, Classify(t, f.data)))
  }

  /** Bytes 5-7 of the first data byte of an 8-byte SDO frame. */
  function CommandBits(data: seq<u8>): u8
    requires |data| == 8
  {
    CsBits(data[0])
  }

  /** A frame that is not SDO, or an SDO frame that is not 8 bytes long, decodes to an unspecific payload. */
  lemma UnspecificClassification(f: CanFrame)
    requires TryFromCanFrame(f).Ok?
    requires var t := TryFromCanFrame(f).value.frameType; (t != SdoTx && t != SdoRx) || |f.data| != 8
    ensures TryFromCanFrame(f).value.payload == Unspecific(UnspecificPayload(|f.data|, PadTo8(f.data)))
  {
  }

  /**
   * An 8-byte SdoTx frame is an indexed payload exactly for server specifiers
   * 000..100 and unspecific otherwise: the segment parser is never reached with
   * a byte it accepts.
   */
  lemma SdoTxClassification(f: CanFrame)
    requires TryFromCanFrame(f).Ok? && TryFromCanFrame(f).value.frameType == SdoTx && |f.data| == 8
    ensures var p := TryFromCanFrame(f).value.payload;
      !p.SdoWithoutIndex? && (p.SdoWithIndex? <==> CommandBits(f.data) <= 0x80)
      && (p.SdoWithIndex? ==> p.withIndex == ParseServerWithIndex(f.data).value)
      && (p.Unspecific? ==> p.unspecific == UnspecificPayload(8, f.data))
  {
    assert PadTo8(f.data) == f.data;
  }

  /**
   * An 8-byte SdoRx frame is an indexed payload exactly for client specifiers
   * 001, 010 and 011 and unspecific otherwise; segments are never produced.
   */
  lemma SdoRxClassification(f: CanFrame)
    requires TryFromCanFrame(f).Ok? && TryFromCanFrame(f).value.frameType == SdoRx && |f.data| == 8
    ensures var p := TryFromCanFrame(f).value.payload;
      !p.SdoWithoutIndex? && (p.SdoWithIndex? <==> CommandBits(f.data) in {0x20, 0x40, 0x60})
      && (p.SdoWithIndex? ==> p.withIndex == ParseClientWithIndex(f.data).value)
      && (p.Unspecific? ==> p.unspecific == UnspecificPayload(8, f.data))
  {
    assert PadTo8(f.data) == f.data;
  }

  /** No received frame decodes to a segment payload, whatever its type, id or data. */
  lemma {:induction false} NeverSegment(f: CanFrame)
    requires TryFromCanFrame(f).Ok?
    ensures !TryFromCanFrame(f).value.payload.SdoWithoutIndex?
  {
    var t := TryFromCanFrame(f).value.frameType;
    if t == SdoTx && |f.data| == 8 {
      SdoTxClassification(f);
    } else if t == SdoRx && |f.data| == 8 {
      SdoRxClassification(f);
    } else {
      UnspecificClassification(f);
    }
  }

  /** The slice panic of `Into<CANFrame>`: an unspecific payload longer than the 8-byte array it slices. */
  predicate UnspecificSlicePanics(f: CanOpenFrame)
  {
    f.payload.Unspecific? && f.payload.unspecific.length > 8
  }

  /** `Into<CANFrame> for CANOpenFrame`. */
  function IntoCanFrame(f: CanOpenFrame): (r: CanFrame)
    requires !UnspecificSlicePanics(f)
    ensures r.id == CobId(f) && r.rtr == f.isRtr && |r.data| <= 8
    ensures f.payload.Unspecific? ==> r.data == f.payload.unspecific.data[..f.payload.unspecific.length]
    ensures f.payload.SdoWithIndex? ==> r.data == EncodeWithIndex(f.payload.withIndex)
    ensures f.payload.SdoWithoutIndex? ==> r.data == EncodeWithoutIndex(f.payload.withoutIndex)
  {
    match f.payload
    case Unspecific(p) => CanFrame(CobId(f), p.data[..p.length], f.isRtr)
    case SdoWithIndex(p) => CanFrame(CobId(f), EncodeWithIndex(p), f.isRtr)
    case SdoWithoutIndex(p) => CanFrame(CobId(f), EncodeWithoutIndex(p), f.isRtr)
  }

  /** Re-encoding a frame decoded with an unspecific payload gives back the received frame. */
  lemma DecodeEncodeUnspecific(f: CanFrame)
    requires TryFromCanFrame(f).Ok? && TryFromCanFrame(f).value.payload.Unspecific?
    ensures !UnspecificSlicePanics(TryFromCanFrame(f).value) && IntoCanFrame(TryFromCanFrame(f).value) == f
  {
  }

  /** A server frame with an indexed payload survives encoding and decoding. */
  lemma EncodeDecodeSdoTx(g: CanOpenFrame)
    requires g.nodeId < 128 && g.frameType == SdoTx && g.payload.SdoWithIndex?
    requires g.payload.withIndex.cs.Scs? && g.payload.withIndex.cs.scs in {ServerCommandSpecifier.Abort,
      ServerCommandSpecifier.Upload, ServerCommandSpecifier.UploadSegment, ServerCommandSpecifier.Download,
      ServerCommandSpecifier.DownloadSegment}
    ensures TryFromCanFrame(IntoCanFrame(g)) == Ok(g)
  {
    var e := EncodeWithIndex(g.payload.withIndex);
    CobIdThenExtract(g);
    ServerWithIndexRoundTrip(g.payload.withIndex);
    assert PadTo8(e) == e;
  }

  /** A client frame with an indexed payload survives encoding and decoding. */
  lemma EncodeDecodeSdoRx(g: CanOpenFrame)
    requires g.nodeId < 128 && g.frameType == SdoRx && g.payload.SdoWithIndex?
    requires g.payload.withIndex.cs.Ccs? && g.payload.withIndex.cs.ccs in {ClientCommandSpecifier.Download,
      ClientCommandSpecifier.Upload, ClientCommandSpecifier.UploadSegment}
    ensures TryFromCanFrame(IntoCanFrame(g)) == Ok(g)
  {
    var e := EncodeWithIndex(g.payload.withIndex);
    CobIdThenExtract(g);
    ClientWithIndexRoundTrip(g.payload.withIndex);
    assert PadTo8(e) == e;
  }
}
