/**
 * The crate root's own frame type (lib.rs): all sixteen 4-bit function codes,
 * two of them as unused variants, and a split of a CAN identifier into frame
 * type and node id that never fails.
 */
module LegacyLib {
  import opened Bytes
  import opened Wrappers

  /** `FrameType`: `Unused_1101` and `Unused_1111` take the implicit values 13 and 15. */
  datatype FrameType =
    | Nmt | SyncEmergency | Time
    | Tpdo1 | Rpdo1 | Tpdo2 | Rpdo2 | Tpdo3 | Rpdo3 | Tpdo4 | Rpdo4
    | SsdoTx | SsdoRx | Unused1101 | NmtErrorControl | Unused1111

  /** The `#[repr(u8)]` value of a frame type. */
  function FrameTypeValue(t: FrameType): (v: u8)
    ensures v < 16
  {
    match t
    case Nmt => 0
    case SyncEmergency => 1
    case Time => 2
    case Tpdo1 => 3
    case Rpdo1 => 4
    case Tpdo2 => 5
    case Rpdo2 => 6
    case Tpdo3 => 7
    case Rpdo3 => 8
    case Tpdo4 => 9
    case Rpdo4 => 10
    case SsdoTx => 11
    case SsdoRx => 12
    case Unused1101 => 13
    case NmtErrorControl => 14
    case Unused1111 => 15
  }

  /** `FrameType::try_from(u8)`: defined on every 4-bit value. */
  function FrameTypeFromU8(v: u8): (r: Option<FrameType>)
    ensures r.Some? <==> v < 16
    ensures r.Some? ==> FrameTypeValue(r.value) == v
  {
    match v
    case 0 => Some(Nmt)
    case 1 => Some(SyncEmergency)
    case 2 => Some(Time)
    case 3 => Some(Tpdo1)
    case 4 => Some(Rpdo1)
    case 5 => Some(Tpdo2)
    case 6 => Some(Rpdo2)
    case 7 => Some(Tpdo3)
    case 8 => Some(Rpdo3)
    case 9 => Some(Tpdo4)
    case 10 => Some(Rpdo4)
    case 11 => Some(SsdoTx)
    case 12 => Some(SsdoRx)
    case 13 => Some(Unused1101)
    case 14 => Some(NmtErrorControl)
    case 15 => Some(Unused1111)
    case _ => None
  }

  /** Every frame type is recovered from its value. */
  lemma FrameTypeRoundTrip(t: FrameType)
    ensures FrameTypeFromU8(FrameTypeValue(t)) == Some(t)
  {
  }

  /**
   * `extract_node_and_type`: node `can_id & 0x7F`, type `(can_id >> 7) & 0xF`.
   * The `unwrap` never fails, so every identifier is accepted.
   */
  function ExtractNodeAndType(canId: u32): (r: (FrameType, u8))
    ensures r.1 == canId % 128 && FrameTypeValue(r.0) == canId / 128 % 16
  {
    var t := FrameTypeFromU8(canId / 128 % 16);
    (t.value, canId % 128)
  }

  /** The 11-bit identifier of a frame type and a node id. */
  function CanId(t: FrameType, nodeId: u8): (r: nat)
    requires nodeId < 128
    ensures r < 0x800
  {
    nodeId + FrameTypeValue(t) * 128
  }

  /** Every frame type and node id below 128 are recovered from their identifier. */
  lemma ExtractCanId(t: FrameType, nodeId: u8)
    requires nodeId < 128
    ensures ExtractNodeAndType(CanId(t, nodeId)) == (t, nodeId)
  {
    DivMod(CanId(t, nodeId), 128, FrameTypeValue(t), nodeId);
    FrameTypeRoundTrip(t);
    FrameTypeRoundTrip(ExtractNodeAndType(CanId(t, nodeId)).0);
  }

  /** Splitting and joining again keeps the low 11 bits of any identifier. */
  lemma {:induction false} CanIdOfExtract(canId: u32)
    ensures var (t, n) := ExtractNodeAndType(canId); n < 128 && CanId(t, n) == canId % 0x800
  {
    DivMod(canId, 0x800, canId / 0x800, canId % 0x800);
    DivMod(canId % 0x800, 128, canId / 128 % 16, canId % 128);
  }

  /** Bits above bit 10 are ignored: there is no range check. */
  lemma {:induction false} IgnoresHighBits(canId: u32)
    requires canId + 0x800 < 0x1_0000_0000
    ensures ExtractNodeAndType(canId + 0x800) == ExtractNodeAndType(canId)
  {
    var (t, n) := ExtractNodeAndType(canId);
    var (t', n') := ExtractNodeAndType(canId + 0x800);
    DivMod(canId + 0x800, 128, canId / 128 + 16, canId % 128);
    assert FrameTypeValue(t) == FrameTypeValue(t');
    FrameTypeRoundTrip(t);
    FrameTypeRoundTrip(t');
  }

  /** Codes 13 and 15 come back as the unused variants, and a 29-bit identifier is accepted. */
  lemma UnusedCodeExamples()
    ensures ExtractNodeAndType(0x685) == (Unused1101, 5)
    ensures ExtractNodeAndType(0x7FF) == (Unused1111, 0x7F)
    ensures ExtractNodeAndType(0x1FFF_FD81) == (SsdoTx, 1)
  {
    ExtractCanId(Unused1101, 5);
    ExtractCanId(Unused1111, 0x7F);
    CanIdOfExtract(0x1FFF_FD81);
    ExtractCanId(SsdoTx, 1);
  }
}
