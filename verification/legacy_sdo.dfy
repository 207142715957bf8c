/**
 * The older SDO server-response decoder of canopen/sdo.rs: the result byte,
 * the abort-code table over 64-bit codes, and the parse of an SsdoTx frame
 * into result, index, subindex and a 64-bit value read little-endian.
 */
module LegacySdo {
  import opened Bytes
  import opened Wrappers
  import SdoAbort
  import LegacyFrame

  /** `SDOResult`. */
  datatype SdoResult = Success | Failure | UnknownResult(result: u8)

  /** `From<u8> for SDOResult`: 0x60 succeeds, 0x80 fails, any other byte is kept. */
  function ResultFromU8(b: u8): (r: SdoResult)
    ensures r == Success <==> b == 0x60
    ensures r == Failure <==> b == 0x80
    ensures r.UnknownResult? ==> r.result == b
  {
    match b
    case 0x60 => Success
    case 0x80 => Failure
    case _ => UnknownResult(b)
  }

  /** The byte a result stands for. */
  function ResultByte(r: SdoResult): u8
  {
    match r
    case Success => 0x60
    case Failure => 0x80
    case UnknownResult(b) => b
  }

  /** The decoding loses nothing: the byte is recovered from its result. */
  lemma ResultRoundTrip(b: u8)
    ensures ResultByte(ResultFromU8(b)) == b
  {
  }

  /**
   * `SDOAbortCode` of this generation: an unknown code keeps no value and the
   * code 0x0504_0001 is called CommandSpecifierError.
   */
  datatype AbortCode =
    | UnknownAbortCode
    | ToggleBitNotAlternated
    | SDOProtocolTimedOut
    | CommandSpecifierError
    | InvalidBlockSize
    | InvalidSequenceNumber
    | CRCError
    | OutOfMemory
    | UnsupportedAccess
    | ReadWriteOnlyError
    | WriteReadOnlyError
    | ObjectDoesNotExist
    | ObjectCannotBeMapped
    | PDOOverflow
    | ParameterIncompatibility
    | InternalIncompatibility
    | HardwareError
    | WrongLength
    | TooLong
    | TooShort
    | SubindexDoesNotExist
    | WrongValue
    | ValueTooHigh
    | ValueTooLow
    | RangeError
    | GeneralError
    | StorageError
    | LocalControlError
    | DeviceStateError
    | DictionaryError

  /** `From<u64> for SDOAbortCode`: the 29 CiA 301 codes; every other value is unknown. */
  function AbortFromU64(x: u64): (r: AbortCode)
    ensures r == UnknownAbortCode <==> !(x < 0x1_0000_0000 && x as u32 in SdoAbort.KnownCodes)
  {
    match x
    case 0x0503_0000 => ToggleBitNotAlternated
    case 0x0504_0000 => SDOProtocolTimedOut
    case 0x0504_0001 => CommandSpecifierError
    case 0x0504_0002 => InvalidBlockSize
    case 0x0504_0003 => InvalidSequenceNumber
    case 0x0504_0004 => CRCError
    case 0x0504_0005 => OutOfMemory
    case 0x0601_0000 => UnsupportedAccess
    case 0x0601_0001 => ReadWriteOnlyError
    case 0x0601_0002 => WriteReadOnlyError
    case 0x0602_0000 => ObjectDoesNotExist
    case 0x0604_0041 => ObjectCannotBeMapped
    case 0x0604_0042 => PDOOverflow
    case 0x0604_0043 => ParameterIncompatibility
    case 0x0604_0047 => InternalIncompatibility
    case 0x0606_0000 => HardwareError
    case 0x0607_0010 => WrongLength
    case 0x0607_0012 => TooLong
    case 0x0607_0013 => TooShort
    case 0x0609_0011 => SubindexDoesNotExist
    case 0x0609_0030 => WrongValue
    case 0x0609_0031 => ValueTooHigh
    case 0x0609_0032 => ValueTooLow
    case 0x0609_0036 => RangeError
    case 0x0800_0000 => GeneralError
    case 0x0800_0020 => StorageError
    case 0x0800_0021 => LocalControlError
    case 0x0800_0022 => DeviceStateError
    case 0x0800_0023 => DictionaryError
    case _ => UnknownAbortCode
  }

  /** The variant of this generation that names the same abort as a variant of frame/sdo/mod.rs. */
  function FromCurrent(a: SdoAbort.SdoAbortCode): AbortCode
  {
    match a
    case UnknownAbortCode(_) => UnknownAbortCode
    case ToggleBitNotAlternated => ToggleBitNotAlternated
    case SDOProtocolTimedOut => SDOProtocolTimedOut
    case ClientCommandSpecifierError => CommandSpecifierError
    case InvalidBlockSize => InvalidBlockSize
    case InvalidSequenceNumber => InvalidSequenceNumber
    case CRCError => CRCError
    case OutOfMemory => OutOfMemory
    case UnsupportedAccess => UnsupportedAccess
    case ReadWriteOnlyError => ReadWriteOnlyError
    case WriteReadOnlyError => WriteReadOnlyError
    case ObjectDoesNotExist => ObjectDoesNotExist
    case ObjectCannotBeMapped => ObjectCannotBeMapped
    case PDOOverflow => PDOOverflow
    case ParameterIncompatibility => ParameterIncompatibility
    case InternalIncompatibility => InternalIncompatibility
    case HardwareError => HardwareError
    case WrongLength => WrongLength
    case TooLong => TooLong
    case TooShort => TooShort
    case SubindexDoesNotExist => SubindexDoesNotExist
    case WrongValue => WrongValue
    case ValueTooHigh => ValueTooHigh
    case ValueTooLow => ValueTooLow
    case RangeError => RangeError
    case GeneralError => GeneralError
    case StorageError => StorageError
    case LocalControlError => LocalControlError
    case DeviceStateError => DeviceStateError
    case DictionaryError => DictionaryError
  }

  /** On each of the 29 known codes the two tables name the same abort. */
  lemma KnownCodeAgrees(c: u32)
    requires c in SdoAbort.KnownCodes
    ensures AbortFromU64(c) == FromCurrent(SdoAbort.FromU32(c))
  {
    match c
    case 0x0503_0000 =>
    case 0x0504_0000 =>
    case 0x0504_0001 =>
    case 0x0504_0002 =>
    case 0x0504_0003 =>
    case 0x0504_0004 =>
    case 0x0504_0005 =>
    case 0x0601_0000 =>
    case 0x0601_0001 =>
    case 0x0601_0002 =>
    case 0x0602_0000 =>
    case 0x0604_0041 =>
    case 0x0604_0042 =>
    case 0x0604_0043 =>
    case 0x0604_0047 =>
    case 0x0606_0000 =>
    case 0x0607_0010 =>
    case 0x0607_0012 =>
    case 0x0607_0013 =>
    case 0x0609_0011 =>
    case 0x0609_0030 =>
    case 0x0609_0031 =>
    case 0x0609_0032 =>
    case 0x0609_0036 =>
    case 0x0800_0000 =>
    case 0x0800_0020 =>
    case 0x0800_0021 =>
    case 0x0800_0022 =>
    case 0x0800_0023 =>
    case _ => assert false;
  }

  /**
   * The 64-bit table agrees with the 32-bit table of frame/sdo/mod.rs on every
   * 32-bit code, up to the renamed variant and the value an unknown code drops;
   * every wider code is unknown.
   */
  lemma AbortAgreesWithCurrentTable(x: u64)
    ensures x < 0x1_0000_0000 ==> AbortFromU64(x) == FromCurrent(SdoAbort.FromU32(x as u32))
    ensures x >= 0x1_0000_0000 ==> AbortFromU64(x) == UnknownAbortCode
  {
    if x < 0x1_0000_0000 && x as u32 in SdoAbort.KnownCodes {
      KnownCodeAgrees(x as u32);
    }
  }

  /** A code that matches a known one in its low 32 bits only is still unknown. */
  lemma WideCodeExample()
    ensures AbortFromU64(0x0504_0000) == SDOProtocolTimedOut
    ensures AbortFromU64(0x1_0504_0000) == UnknownAbortCode
  {
  }

  /** `SDOServerResponse`. */
  datatype ServerResponse = ServerResponse(result: SdoResult, index: u16, subindex: u8, data: u64)

  /** Why a parse fails: not a server frame (`SDOError`), or a read past the end of the bytes. */
  datatype ParseError = SdoFrameParseError | UnexpectedEof

  /** `Cursor::read_uN::<LittleEndian>`: the first n bytes as a little-endian number, if there are n. */
  function ReadLe(bytes: seq<u8>, n: nat): (r: Option<nat>)
    ensures r.Some? <==> |bytes| >= n
    ensures r.Some? ==> r.value < Pow256(n) && LeBytes(r.value, n) == bytes[..n]
  {
    if |bytes| < n then None
    else
      LeBytesFromLe(bytes[..n]);
      Some(FromLe(bytes[..n]))
  }

  /**
   * The field reads of `parse`: result byte 0, index bytes 1-2, subindex
   * byte 3 and a u64 from byte 4 on. Indexing panics below 4 bytes.
   */
  function ReadResponse(data: seq<u8>): (r: Result<ServerResponse, ParseError>)
    requires |data| >= 4
    ensures r.Err? <==> |data| < 12
    ensures r.Err? ==> r.error == UnexpectedEof
    ensures r.Ok? ==> ResultByte(r.value.result) == data[0] && LeBytes(r.value.index, 2) == data[1..3]
    ensures r.Ok? ==> r.value.subindex == data[3] && LeBytes(r.value.data, 8) == data[4..12]
  {
    ResultRoundTrip(data[0]);
    var index := ReadLe(data[1..3], 2);
    var value := ReadLe(data[4..], 8);
    if value.None? then Err(UnexpectedEof)
    else
      assert Pow256(2) == 0x1_0000 && Pow256(8) == 0x1_0000_0000_0000_0000;
      Ok(ServerResponse(ResultFromU8(data[0]), index.value, data[3], value.value))
  }

  /** `SDOServerResponse::parse`: only SsdoTx frames are read. */
  function ParseServerResponse(frame: LegacyFrame.CanOpenFrame): (r: Result<ServerResponse, ParseError>)
    ensures frame.frameType != LegacyFrame.SsdoTx ==> r == Err(SdoFrameParseError)
    ensures frame.frameType == LegacyFrame.SsdoTx ==> r == ReadResponse(frame.data)
  {
    if frame.frameType == LegacyFrame.SsdoTx then ReadResponse(frame.data)
    else Err(SdoFrameParseError)
  }

  /**
   * No frame parses: the eight data bytes leave only four for the 64-bit
   * read, so an SsdoTx frame always fails with UnexpectedEof.
   */
  lemma ParseNeverSucceeds(frame: LegacyFrame.CanOpenFrame)
    ensures ParseServerResponse(frame).Err?
    ensures ParseServerResponse(frame).error == UnexpectedEof <==> frame.frameType == LegacyFrame.SsdoTx
  {
  }
}
