/**
 * The older CANopen frame of frame/frame.rs: a COB-ID split into frame type
 * and node id, up to eight data bytes kept zero-padded together with their
 * length, and the conversions from and to a CAN frame.
 */
module LegacyFrame {
  import opened Bytes
  import opened Wrappers
  import Frame

  /** `CANOpenFrameError`. */
  datatype FrameError =
    | InvalidCobId(cobId: u32)
    | InvalidDataLength(length: nat)

  /** The 4-bit function code; 0b1101 and 0b1111 have no variant in this file. */
  datatype FrameType =
    | Nmt | SyncEmergency | Time
    | Tpdo1 | Rpdo1 | Tpdo2 | Rpdo2 | Tpdo3 | Rpdo3 | Tpdo4 | Rpdo4
    | SsdoTx | SsdoRx | NmtErrorControl

  /** The `#[repr(u8)]` value of a frame type. */
  function FrameTypeValue(t: FrameType): (v: u8)
    ensures v < 16 && v != 13 && v != 15
  {
    match t
    case Nmt => 0
    case SyncEmergency => 1
    case Time => 2
    case Tpdo1 => 3
    case Rpdo1 => 4
    case Tpdo2 => 5
    case Rpdo2 => 6
    case Tpdo3 => 7
    case Rpdo3 => 8
    case Tpdo4 => 9
    case Rpdo4 => 10
    case SsdoTx => 11
    case SsdoRx => 12
    case NmtErrorControl => 14
  }

  /** `FrameType::try_from(u8)` (derived `TryFromPrimitive`). */
  function FrameTypeFromU8(v: u8): (r: Option<FrameType>)
    ensures r.Some? <==> v <= 12 || v == 14
    ensures r.Some? ==> FrameTypeValue(r.value) == v
  {
    match v
    case 0 => Some(Nmt)
    case 1 => Some(SyncEmergency)
    case 2 => Some(Time)
    case 3 => Some(Tpdo1)
    case 4 => Some(Rpdo1)
    case 5 => Some(Tpdo2)
    case 6 => Some(Rpdo2)
    case 7 => Some(Tpdo3)
    case 8 => Some(Rpdo3)
    case 9 => Some(Tpdo4)
    case 10 => Some(Rpdo4)
    case 11 => Some(SsdoTx)
    case 12 => Some(SsdoRx)
    case 14 => Some(NmtErrorControl)
    case _ => None
  }

  /** Every frame type is recovered from its value. */
  lemma FrameTypeRoundTrip(t: FrameType)
    ensures FrameTypeFromU8(FrameTypeValue(t)) == Some(t)
  {
  }

  /** The `[u8; 8]` data array of a frame. */
  type FrameData = s: seq<u8> | |s| == 8 witness [0, 0, 0, 0, 0, 0, 0, 0]

  /** `CANOpenFrame`; the accessors `node_id`, `frame_type`, `length`, `data` and `is_rtr` are its fields. */
  datatype CanOpenFrame = CanOpenFrame(nodeId: u8, frameType: FrameType, length: u8, data: FrameData, isRtr: bool)

  /**
   * The foreign `tokio_socketcan::CANFrame`: identifier, data and remote flag.
   * Its constructor's own checks are not part of this model, so the data may
   * have any length here and the decoder's length check is visible.
   */
  datatype CanFrame = CanFrame(id: u32, data: seq<u8>, rtr: bool)

  /** `extract_frame_type_and_node_id`: 11-bit range check, then `cob & 0x7F` and `(cob >> 7) & 0xF`. */
  function ExtractFrameTypeAndNodeId(cobId: u32): (r: Result<(FrameType, u8), FrameError>)
    ensures r.Err? <==> cobId > 0x77F || cobId / 128 == 13
    ensures r.Err? ==> r.error == InvalidCobId(cobId)
    ensures r.Ok? ==> r.value.1 == cobId % 128 && FrameTypeValue(r.value.0) == cobId / 128
  {
    if cobId > 0x77F then Err(InvalidCobId(cobId))
    else
      match FrameTypeFromU8(cobId / 128 % 16)
      case None => Err(InvalidCobId(cobId))
      case Some(t) => Ok((t, cobId % 128))
  }

  /** `cob_id`: node id + (frame type << 7). */
  function CobId(f: CanOpenFrame): (r: u32)
    ensures r % 128 == f.nodeId % 128 && (f.nodeId < 128 ==> r / 128 == FrameTypeValue(f.frameType))
  {
    f.nodeId + FrameTypeValue(f.frameType) * 128
  }

  /**
   * `new_with_rtr`: the COB-ID is checked first, then the data length; an
   * accepted frame keeps the length and the data zero-padded to 8 bytes.
   */
  function NewWithRtr(cobId: u32, data: seq<u8>, isRtr: bool): (r: Result<CanOpenFrame, FrameError>)
    ensures ExtractFrameTypeAndNodeId(cobId).Err? ==> r == Err(InvalidCobId(cobId))
    ensures ExtractFrameTypeAndNodeId(cobId).Ok? && |data| > 8 ==> r == Err(InvalidDataLength(|data|))
    ensures r.Ok? <==> ExtractFrameTypeAndNodeId(cobId).Ok? && |data| <= 8
    ensures r.Ok? ==> CobId(r.value) == cobId && r.value.nodeId < 128 && r.value.isRtr == isRtr
    ensures r.Ok? ==> r.value.length as nat == |data| && r.value.data[..|data|] == data
    ensures r.Ok? ==> forall i :: |data| <= i < 8 ==> r.value.data[i] == 0
  {
    match ExtractFrameTypeAndNodeId(cobId)
    case Err(e) => Err(e)
    case Ok((t, n)) =>
      if |data| > 8 then Err(InvalidDataLength(|data|))
      else Ok(CanOpenFrame(n, t, |data|, Frame.PadTo8(data), isRtr))
  }

  /** `new`: a data frame, accepted exactly when `new_with_rtr` accepts it. */
  function New(cobId: u32, data: seq<u8>): (r: Result<CanOpenFrame, FrameError>)
    ensures r.Ok? <==> NewWithRtr(cobId, data, true).Ok?
    ensures r.Ok? ==> !r.value.isRtr && r.value == NewWithRtr(cobId, data, true).value.(isRtr := false)
  {
    NewWithRtr(cobId, data, false)
  }

  /** `new_rtr`: a remote frame, accepted exactly when a data frame would be. */
  function NewRtr(cobId: u32, data: seq<u8>): (r: Result<CanOpenFrame, FrameError>)
    ensures r.Ok? <==> New(cobId, data).Ok?
    ensures r.Ok? ==> r.value.isRtr && r.value == New(cobId, data).value.(isRtr := true)
  {
    NewWithRtr(cobId, data, true)
  }

  /** `Into<CANFrame>`: all eight data bytes are sent, whatever the recorded length. */
  function IntoCanFrame(f: CanOpenFrame): (r: CanFrame)
    ensures r.id == CobId(f) && r.rtr == f.isRtr && |r.data| == 8 && r.data == f.data
  {
    CanFrame(CobId(f), f.data, f.isRtr)
  }

  /** `TryFrom<CANFrame>`. */
  function TryFromCanFrame(f: CanFrame): (r: Result<CanOpenFrame, FrameError>)
    ensures r == NewWithRtr(f.id, f.data, f.rtr)
  {
    NewWithRtr(f.id, f.data, f.rtr)
  }

  /** Every node id below 128 and frame type are recovered from the COB-ID they make. */
  lemma CobIdThenExtract(f: CanOpenFrame)
    requires f.nodeId < 128
    ensures ExtractFrameTypeAndNodeId(CobId(f)) == Ok((f.frameType, f.nodeId))
  {
    DivMod(CobId(f), 128, FrameTypeValue(f.frameType), f.nodeId);
  }

  /**
   * Decoding a CAN frame and sending it again gives the same identifier and
   * remote flag and the data padded to eight bytes: the frame comes back
   * unchanged exactly when it carried eight bytes.
   */
  lemma DecodeEncode(f: CanFrame)
    requires TryFromCanFrame(f).Ok?
    ensures var g := IntoCanFrame(TryFromCanFrame(f).value);
      g.id == f.id && g.rtr == f.rtr && g.data == Frame.PadTo8(f.data) && (g == f <==> |f.data| == 8)
  {
    var d := TryFromCanFrame(f).value.data;
    assert d == d[..|f.data|] + d[|f.data|..];
    assert d == Frame.PadTo8(f.data);
  }

  /**
   * Encoding a frame and decoding it again gives the frame back with its
   * length raised to 8: the encoding forgets the recorded length.
   */
  lemma EncodeDecode(g: CanOpenFrame)
    requires g.nodeId < 128
    ensures TryFromCanFrame(IntoCanFrame(g)) == Ok(g.(length := 8))
  {
    CobIdThenExtract(g);
    assert Frame.PadTo8(g.data) == g.data;
  }

  /** A five-byte frame to node 1 is recorded with length 5 but sent with eight bytes. */
  lemma ShortFrameExample()
    ensures New(0x601, [0x40, 0x00, 0x10, 0x00, 0x00]).Ok?
    ensures var g := New(0x601, [0x40, 0x00, 0x10, 0x00, 0x00]).value;
      g.frameType == SsdoRx && g.nodeId == 1 && g.length == 5
      && IntoCanFrame(g).data == [0x40, 0x00, 0x10, 0x00, 0x00, 0, 0, 0]
    ensures New(0x6F1, []) == Err(InvalidCobId(0x6F1))
    ensures New(0x1FF, [0, 0, 0, 0, 0, 0, 0, 0, 0]) == Err(InvalidDataLength(9))
  {
    var g := New(0x601, [0x40, 0x00, 0x10, 0x00, 0x00]).value;
    assert g.data[..5] == [0x40, 0x00, 0x10, 0x00, 0x00];
    assert g.data == g.data[..5] + g.data[5..];
  }
}
