/**
 * The SDO abort-code table of frame/sdo/mod.rs: the 32-bit codes of CiA 301
 * section 7.2.4.3.17 and their decoding and encoding.
 */
module SdoAbort {
  import opened Bytes

  datatype SdoAbortCode =
    | UnknownAbortCode(code: u32)
    | ToggleBitNotAlternated
    | SDOProtocolTimedOut
    | ClientCommandSpecifierError
    | InvalidBlockSize
    | InvalidSequenceNumber
    | CRCError
    | OutOfMemory
    | UnsupportedAccess
    | ReadWriteOnlyError
    | WriteReadOnlyError
    | ObjectDoesNotExist
    | ObjectCannotBeMapped
    | PDOOverflow
    | ParameterIncompatibility
    | InternalIncompatibility
    | HardwareError
    | WrongLength
    | TooLong
    | TooShort
    | SubindexDoesNotExist
    | WrongValue
    | ValueTooHigh
    | ValueTooLow
    | RangeError
    | GeneralError
    | StorageError
    | LocalControlError
    | DeviceStateError
    | DictionaryError

  /** The 29 codes the table names. */
  const KnownCodes: set<u32> := {
    0x0503_0000,
    0x0504_0000,
    0x0504_0001,
    0x0504_0002,
    0x0504_0003,
    0x0504_0004,
    0x0504_0005,
    0x0601_0000,
    0x0601_0001,
    0x0601_0002,
    0x0602_0000,
    0x0604_0041,
    0x0604_0042,
    0x0604_0043,
    0x0604_0047,
    0x0606_0000,
    0x0607_0010,
    0x0607_0012,
    0x0607_0013,
    0x0609_0011,
    0x0609_0030,
    0x0609_0031,
    0x0609_0032,
    0x0609_0036,
    0x0800_0000,
    0x0800_0020,
    0x0800_0021,
    0x0800_0022,
    0x0800_0023
  }

  /** `From<u32>`: the code table, unknown codes kept verbatim. */
  function FromU32(x: u32): (r: SdoAbortCode)
    ensures r.UnknownAbortCode? <==> x !in KnownCodes
    ensures r.UnknownAbortCode? ==> r.code == x
  {
    match x
    case 0x0503_0000 => ToggleBitNotAlternated
    case 0x0504_0000 => SDOProtocolTimedOut
    case 0x0504_0001 => ClientCommandSpecifierError
    case 0x0504_0002 => InvalidBlockSize
    case 0x0504_0003 => InvalidSequenceNumber
    case 0x0504_0004 => CRCError
    case 0x0504_0005 => OutOfMemory
    case 0x0601_0000 => UnsupportedAccess
    case 0x0601_0001 => ReadWriteOnlyError
    case 0x0601_0002 => WriteReadOnlyError
    case 0x0602_0000 => ObjectDoesNotExist
    case 0x0604_0041 => ObjectCannotBeMapped
    case 0x0604_0042 => PDOOverflow
    case 0x0604_0043 => ParameterIncompatibility
    case 0x0604_0047 => InternalIncompatibility
    case 0x0606_0000 => HardwareError
    case 0x0607_0010 => WrongLength
    case 0x0607_0012 => TooLong
    case 0x0607_0013 => TooShort
    case 0x0609_0011 => SubindexDoesNotExist
    case 0x0609_0030 => WrongValue
    case 0x0609_0031 => ValueTooHigh
    case 0x0609_0032 => ValueTooLow
    case 0x0609_0036 => RangeError
    case 0x0800_0000 => GeneralError
    case 0x0800_0020 => StorageError
    case 0x0800_0021 => LocalControlError
    case 0x0800_0022 => DeviceStateError
    case 0x0800_0023 => DictionaryError
    case _ => UnknownAbortCode(x)
  }

  /**
   * `Into<u32>` as written: identical to the table except that
   * ReadWriteOnlyError is sent as 0x0601_0000, the code of UnsupportedAccess.
   */
  function IntoU32AsWritten(a: SdoAbortCode): (r: u32)
    ensures a != ReadWriteOnlyError ==> r == IntoU32(a)
    ensures a == ReadWriteOnlyError ==> r == IntoU32(UnsupportedAccess)
  {
    if a == ReadWriteOnlyError then 0x0601_0000 else IntoU32(a)
  }

  /** `Into<u32>` with every variant sent as the code it is decoded from. */
  function IntoU32(a: SdoAbortCode): (r: u32)
    ensures Decodable(a) ==> FromU32(r) == a
  {
    match a
    case UnknownAbortCode(x) => x
    case ToggleBitNotAlternated => 0x0503_0000
    case SDOProtocolTimedOut => 0x0504_0000
    case ClientCommandSpecifierError => 0x0504_0001
    case InvalidBlockSize => 0x0504_0002
    case InvalidSequenceNumber => 0x0504_0003
    case CRCError => 0x0504_0004
    case OutOfMemory => 0x0504_0005
    case UnsupportedAccess => 0x0601_0000
    case ReadWriteOnlyError => 0x0601_0001
    case WriteReadOnlyError => 0x0601_0002
    case ObjectDoesNotExist => 0x0602_0000
    case ObjectCannotBeMapped => 0x0604_0041
    case PDOOverflow => 0x0604_0042
    case ParameterIncompatibility => 0x0604_0043
    case InternalIncompatibility => 0x0604_0047
    case HardwareError => 0x0606_0000
    case WrongLength => 0x0607_0010
    case TooLong => 0x0607_0012
    case TooShort => 0x0607_0013
    case SubindexDoesNotExist => 0x0609_0011
    case WrongValue => 0x0609_0030
    case ValueTooHigh => 0x0609_0031
    case ValueTooLow => 0x0609_0032
    case RangeError => 0x0609_0036
    case GeneralError => 0x0800_0000
    case StorageError => 0x0800_0020
    case LocalControlError => 0x0800_0021
    case DeviceStateError => 0x0800_0022
    case DictionaryError => 0x0800_0023
  }

  /** A value the decoder can produce: an unknown code never carries a known one. */
  predicate Decodable(a: SdoAbortCode)
  {
    a.UnknownAbortCode? ==> a.code !in KnownCodes
  }

  /**
   * What the decoder makes of a code sent by `Into<u32>`: the code itself for
   * every variant it produces, except ReadWriteOnlyError, read as UnsupportedAccess.
   */
  lemma AbortReadBack(a: SdoAbortCode)
    ensures Decodable(a) && a != ReadWriteOnlyError ==> FromU32(IntoU32AsWritten(a)) == a
    ensures a == ReadWriteOnlyError ==> FromU32(IntoU32AsWritten(a)) == UnsupportedAccess
  {
    if a == ReadWriteOnlyError {
      FromIntoU32(UnsupportedAccess);
    } else if Decodable(a) {
      FromIntoU32(a);
    }
  }

  /** Encoding after decoding gives back every 32-bit code. */
  lemma IntoFromU32(x: u32)
    ensures IntoU32(FromU32(x)) == x
  {
  }

  /** Decoding after encoding gives back every value the decoder produces. */
  lemma FromIntoU32(a: SdoAbortCode)
    requires Decodable(a)
    ensures FromU32(IntoU32(a)) == a
  {
  }

  /** The as-written encoder breaks the round trip exactly at 0x0601_0001. */
  lemma AsWrittenRoundTrip(x: u32)
    ensures IntoU32AsWritten(FromU32(x)) == x <==> x != 0x0601_0001
  {
    IntoFromU32(x);
  }

  /** The witness: ReadWriteOnlyError is decoded from 0x0601_0001 and encoded as 0x0601_0000. */
  lemma ReadWriteOnlyErrorMisencoded()
    ensures FromU32(0x0601_0001) == ReadWriteOnlyError
    ensures IntoU32AsWritten(ReadWriteOnlyError) == 0x0601_0000
    ensures FromU32(IntoU32AsWritten(ReadWriteOnlyError)) == UnsupportedAccess
  {
  }
}
