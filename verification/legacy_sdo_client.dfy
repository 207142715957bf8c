/**
 * The older SDO client of canopen/sdo_client.rs: a client addressed by node
 * id with the fixed SDO receive and transmit bases, and the dispatch of an
 * upload of one to four bytes to the helper for that width.
 *
 * The file declares private copies of `SDOResult`, `SDOAbortCode` and a
 * server-response parser identical to those of canopen/sdo.rs; they are
 * modelled once, in LegacySdo (`ResultFromU8`, `AbortFromU64`, `ReadResponse`).
 */
module LegacySdoClient {
  import opened Bytes
  import opened Wrappers
  import LegacySdo

  /** `SDOUploadError`. */
  datatype UploadError =
    | NoResponseReceived
    | UnknownResult(result: u8)
    | NoOutputQueue
    | TooMuchData(length: nat)

  /** `SDO_RECEIVE`, the COB-ID base of requests to a server. */
  const SdoReceive: u32 := 0x600

  /** `SDO_TRANSMIT`, the COB-ID base of a server's responses. */
  const SdoTransmit: u32 := 0x580

  /** `SDOClient`. */
  datatype SdoClient = SdoClient(nodeId: u8, rxAddress: u32, txAddress: u32)

  /** `SDOClient::new`: the fixed bases; the node id is stored without a range check. */
  function New(sdoServerNodeId: u8): (r: SdoClient)
    ensures r.nodeId == sdoServerNodeId && r.rxAddress == 0x600 && r.txAddress == 0x580
  {
    SdoClient(sdoServerNodeId, SdoReceive, SdoTransmit)
  }

  /**
   * A call of `upload_1_byte_frame` ... `upload_4_bytes_frame`: the helper is
   * the one for `|bytes|` bytes, and these are its arguments. The helpers are
   * not part of this model.
   */
  datatype UploadCall = UploadCall(nodeId: u8, rxAddress: u32, index: u16, subindex: u8, bytes: seq<u8>)

  /**
   * `upload_frame`: one to four bytes go to the helper of that width with the
   * client's node id and receive base; any other length, none included, is
   * refused as too much data.
   */
  function UploadFrame(client: SdoClient, index: u16, subindex: u8, data: seq<u8>): (r: Result<UploadCall, UploadError>)
    ensures r.Ok? <==> 1 <= |data| <= 4
    ensures r.Ok? ==> r.value.bytes == data && r.value.nodeId == client.nodeId && r.value.rxAddress == client.rxAddress
    ensures r.Ok? ==> r.value.index == index && r.value.subindex == subindex
    ensures r.Err? ==> r.error == TooMuchData(|data|)
  {
    match |data|
    case 1 => Ok(UploadCall(client.nodeId, client.rxAddress, index, subindex, [data[0]]))
    case 2 => Ok(UploadCall(client.nodeId, client.rxAddress, index, subindex, [data[0], data[1]]))
    case 3 => Ok(UploadCall(client.nodeId, client.rxAddress, index, subindex, [data[0], data[1], data[2]]))
    case 4 => Ok(UploadCall(client.nodeId, client.rxAddress, index, subindex, [data[0], data[1], data[2], data[3]]))
    case _ => Err(TooMuchData(|data|))
  }

  /**
   * A client of any node id, even one above 0x7F, keeps it; an upload hands
   * the width's helper the node id 5 and the receive base 0x600 as separate
   * arguments, and an empty upload is reported as too much data.
   */
  lemma UploadExamples()
    ensures New(0xFF).nodeId == 0xFF
    ensures UploadFrame(New(5), 0x1000, 0, [1, 2]) == Ok(UploadCall(5, 0x600, 0x1000, 0, [1, 2]))
    ensures UploadFrame(New(5), 0x1000, 0, []) == Err(TooMuchData(0))
    ensures UploadFrame(New(5), 0x1000, 0, [1, 2, 3, 4, 5]) == Err(TooMuchData(5))
  {
  }

  /**
   * The file's server-response parser reads a 64-bit value from byte 4 on, so
   * it succeeds exactly on twelve bytes or more; an 8-byte CAN payload never
   * parses.
   */
  lemma ResponseNeedsTwelveBytes(data: seq<u8>)
    requires |data| >= 4
    ensures LegacySdo.ReadResponse(data).Ok? <==> |data| >= 12
    ensures |data| == 8 ==> LegacySdo.ReadResponse(data) == Err(LegacySdo.UnexpectedEof)
  {
  }
}
