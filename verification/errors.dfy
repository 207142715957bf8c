/**
 * The library-wide error type `CanOpenError`. Its declaration lies outside the
 * modelled files; the variants and payloads are the ones the modelled code
 * constructs.
 */
module Errors {
  import opened Bytes
  import opened Wrappers
  import SdoAbort

  datatype CanOpenError =
    | CannotWriteToConstStorage
    | InvalidCobId(cobId: u32)
    | InvalidDataLength(length: nat)
    | InvalidNodeId(nodeId: u8)
    | InvalidNumber(invalidNumber: string)
    | InvalidNumberType(numberType: string)
    | ObjectDoesNotExist(index: u16, subindex: u8)
    | ReadAccessImpossible
    | SdoAbortCode(abortCode: SdoAbort.SdoAbortCode)
    | SdoPayloadNotImplementedYet
    | SdoPayloadParseError
    | SdoProtocolTimedOut
    | SocketInstanciatingError
    | SocketWriteError
    | StringIsTooLong(maxLength: nat, givenLength: nat)
    | WritingForbidden

  /**
   * The end of an operation that may panic: a result, or a panic (an
   * `unwrap`, a slice index out of range, or a `todo!()` reached).
   */
  datatype Outcome<T> = Done(result: Result<T, CanOpenError>) | Panicked
}
