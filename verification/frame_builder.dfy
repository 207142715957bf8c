/**
 * `CanOpenFrameBuilder` of frame/builder.rs: the entry points that check a
 * node id or a PDO COB-ID, and the builder of unspecific (PDO) payloads.
 * Both builders are `Copy` values whose setters return an updated copy.
 */
module FrameBuilder {
  import opened Bytes
  import opened Wrappers
  import opened Errors
  import opened SdoAbort
  import opened SdoPayload
  import opened Frame
  import opened SdoBuilder

  datatype CanOpenFrameBuilder = CanOpenFrameBuilder(isRtr: bool)

  /** `Default`: not a remote frame. */
  const DefaultBuilder := CanOpenFrameBuilder(false)

  /** The largest node id a frame can address. */
  const MaxNodeId := 0x7F

  /** `sdo_request`: a client request to `nodeId`, sent on SdoRx. */
  function SdoRequest(nodeId: u8): (r: Result<SdoFrameBuilder, CanOpenError>)
    ensures r.Ok? <==> nodeId <= MaxNodeId
    ensures r.Err? ==> r.error == InvalidNodeId(nodeId)
    ensures r.Ok? ==> r.value.nodeId == nodeId && r.value.frameType == SdoRx
  {
    if nodeId > MaxNodeId then Err(InvalidNodeId(nodeId)) else Ok(SdoFrameBuilder(nodeId, SdoRx))
  }

  /** `sdo_response`: a server response from `nodeId`, sent on SdoTx. */
  function SdoResponse(nodeId: u8): (r: Result<SdoFrameBuilder, CanOpenError>)
    ensures r.Ok? <==> nodeId <= MaxNodeId
    ensures r.Err? ==> r.error == InvalidNodeId(nodeId)
    ensures r.Ok? ==> r.value.nodeId == nodeId && r.value.frameType == SdoTx
  {
    if nodeId > MaxNodeId then Err(InvalidNodeId(nodeId)) else Ok(SdoFrameBuilder(nodeId, SdoTx))
  }

  /** `set_rtr`. */
  function SetRtr(b: CanOpenFrameBuilder, rtrFlag: bool): (r: CanOpenFrameBuilder)
    ensures r.isRtr == rtrFlag
  {
    b.(isRtr := rtrFlag)
  }

  predicate IsPdo(t: FrameType)
  {
    t in {Tpdo1, Tpdo2, Tpdo3, Tpdo4, Rpdo1, Rpdo2, Rpdo3, Rpdo4}
  }

  datatype UnspecificPayloadBuilder = UnspecificPayloadBuilder(
    nodeId: u8,
    frameType: FrameType,
    isRtr: bool,
    length: nat,
    data: SdoPayloadData)

  /** `pdo`: a COB-ID is accepted exactly when its function code is one of the eight PDO codes 3..10. */
  function Pdo(b: CanOpenFrameBuilder, cobId: u32): (r: Result<UnspecificPayloadBuilder, CanOpenError>)
    ensures r.Ok? <==> 3 <= cobId / 128 <= 10
    ensures r.Err? ==> r.error == InvalidCobId(cobId)
    ensures r.Ok? ==> IsPdo(r.value.frameType) && r.value.isRtr == b.isRtr && r.value.length == 0
    ensures r.Ok? ==> r.value.nodeId + FrameTypeValue(r.value.frameType) * 128 == cobId
    ensures r.Ok? ==> r.value.data == [0, 0, 0, 0, 0, 0, 0, 0]
  {
    match ExtractFrameTypeAndNodeId(cobId)
    case Err(e) => Err(e)
    case Ok((t, nodeId)) =>
      if !IsPdo(t) then Err(InvalidCobId(cobId))
      else Ok(UnspecificPayloadBuilder(nodeId, t, b.isRtr, 0, [0, 0, 0, 0, 0, 0, 0, 0]))
  }

  /**
   * `payload`: up to 8 bytes overwrite the front of the buffer; the bytes
   * after them keep what the builder held before.
   */
  function SetPayload(b: UnspecificPayloadBuilder, src: seq<u8>): (r: Result<UnspecificPayloadBuilder, CanOpenError>)
    ensures r.Ok? <==> |src| <= 8
    ensures r.Err? ==> r.error == InvalidDataLength(|src|)
    ensures r.Ok? ==> r.value.length == |src| && r.value.data[..|src|] == src && r.value.data[|src|..] == b.data[|src|..]
    ensures r.Ok? ==> r.value.(length := b.length, data := b.data) == b
  {
    if |src| > 8 then Err(InvalidDataLength(|src|))
    else
      var d: SdoPayloadData := src + b.data[|src|..];
      assert d[..|src|] == src;
      Ok(b.(length := |src|, data := d))
  }

  /** `build`: an unspecific frame carrying the first `length` buffer bytes. */
  function BuildUnspecific(b: UnspecificPayloadBuilder): (r: CanOpenFrame)
    ensures UnspecificSlicePanics(r) <==> b.length > 8
    ensures b.length <= 8 ==> IntoCanFrame(r) == CanFrame(b.nodeId + FrameTypeValue(b.frameType) * 128, b.data[..b.length], b.isRtr)
    ensures r.nodeId == b.nodeId && r.frameType == b.frameType
  {
    CanOpenFrame(b.nodeId, b.frameType, b.isRtr, Unspecific(UnspecificPayload(b.length, b.data)))
  }

  /** A PDO built from an accepted COB-ID and payload is sent with that COB-ID, that payload and the builder's RTR flag. */
  lemma PdoWire(b: CanOpenFrameBuilder, cobId: u32, src: seq<u8>)
    requires Pdo(b, cobId).Ok? && SetPayload(Pdo(b, cobId).value, src).Ok?
    ensures var f := BuildUnspecific(SetPayload(Pdo(b, cobId).value, src).value);
      !UnspecificSlicePanics(f) && IntoCanFrame(f) == CanFrame(cobId, src, b.isRtr)
  {
  }

  /** Decoding the frame a PDO builder sends gives back the frame it built. */
  lemma PdoRoundTrip(b: CanOpenFrameBuilder, cobId: u32, src: seq<u8>)
    requires Pdo(b, cobId).Ok? && SetPayload(Pdo(b, cobId).value, src).Ok?
    ensures var f := BuildUnspecific(SetPayload(Pdo(b, cobId).value, src).value);
      !UnspecificSlicePanics(f) && TryFromCanFrame(IntoCanFrame(f)) == Ok(f)
  {
    var f := BuildUnspecific(SetPayload(Pdo(b, cobId).value, src).value);
    PdoWire(b, cobId, src);
    var g := CanFrame(cobId, src, b.isRtr);
    UnspecificClassification(g);
    assert f.payload.unspecific.data == PadTo8(src);
  }

  /** `pdo(0x1ef)` is accepted: function code 3 (Tpdo1), node 0x6F. */
  lemma PdoExample()
    ensures Pdo(DefaultBuilder, 0x1EF) == Ok(UnspecificPayloadBuilder(0x6F, Tpdo1, false, 0, [0, 0, 0, 0, 0, 0, 0, 0]))
  {
  }

  /** The abort a server on node 1 sends for 0x1122/0x33: `80 22 11 33 03 00 04 05` at 0x581. */
  lemma AbortResponseExample()
    ensures SdoResponse(1).Ok?
    ensures Wire(SdoBuilder.Abort(WithIndex(SdoResponse(1).value, 0x1122, 0x33), InvalidSequenceNumber))
      == CanFrame(0x581, [0x80, 0x22, 0x11, 0x33, 0x03, 0x00, 0x04, 0x05], false)
  {
    assert SdoResponse(1).value == SdoFrameBuilder(1, SdoTx);
    AbortExampleFields();
    AbortExampleWire(SdoBuilder.Abort(WithIndex(SdoFrameBuilder(1, SdoTx), 0x1122, 0x33), InvalidSequenceNumber));
  }

  /** The fields of the example abort builder: node 1, server side, object 0x1122/0x33, abort command, code 0x0504_0003. */
  lemma AbortExampleFields()
    ensures var b := SdoBuilder.Abort(WithIndex(SdoFrameBuilder(1, SdoTx), 0x1122, 0x33), InvalidSequenceNumber);
      b.nodeId == 1 && b.frameType == SdoTx && b.index == 0x1122 && b.subindex == 0x33 && b.data == 0x0504_0003
      && b.commandSpecifier == Scs(ServerCommandSpecifier.Abort) && b.size == NotSet && !b.expeditedFlag
  {
    assert IntoU32AsWritten(InvalidSequenceNumber) == 0x0504_0003;
  }

  /** A builder with the example's abort fields is sent as `80 22 11 33 03 00 04 05` at 0x581. */
  lemma AbortExampleWire(b: WithIndexFrameBuilder)
    requires b.nodeId == 1 && b.frameType == SdoTx && b.index == 0x1122 && b.subindex == 0x33 && b.data == 0x0504_0003
    requires b.commandSpecifier == Scs(ServerCommandSpecifier.Abort) && b.size == NotSet && !b.expeditedFlag
    ensures Wire(b) == CanFrame(0x581, [0x80, 0x22, 0x11, 0x33, 0x03, 0x00, 0x04, 0x05], false)
  {
    assert LeBytes(b.data, 4) == [0x03, 0x00, 0x04, 0x05];
    assert LeBytes(b.index, 2) == [0x22, 0x11];
    WireBytes(b, 0x80, 0x22, 0x11, 0x03, 0x00, 0x04, 0x05);
  }

  /** A one-byte download from a client to node 1: `2F 22 11 33 44 00 00 00` at 0x601. */
  lemma DownloadOneByteExample()
    ensures SdoRequest(1).Ok?
    ensures Wire(DownloadOneByte(WithIndex(SdoRequest(1).value, 0x1122, 0x33), 0x44))
      == CanFrame(0x601, [0x2F, 0x22, 0x11, 0x33, 0x44, 0x00, 0x00, 0x00], false)
  {
    var b := DownloadOneByte(WithIndex(SdoFrameBuilder(1, SdoRx), 0x1122, 0x33), 0x44);
    WireBytes(b, 0x2F, 0x22, 0x11, 0x44, 0x00, 0x00, 0x00);
  }

  /** A four-byte download from a client to node 1: `23 22 11 33 44 55 66 77` at 0x601. */
  lemma DownloadFourBytesExample()
    ensures SdoRequest(1).Ok?
    ensures Wire(DownloadFourBytes(WithIndex(SdoRequest(1).value, 0x1122, 0x33), 0x7766_5544))
      == CanFrame(0x601, [0x23, 0x22, 0x11, 0x33, 0x44, 0x55, 0x66, 0x77], false)
  {
    assert SdoRequest(1).value == SdoFrameBuilder(1, SdoRx);
    DownloadFourBytesExampleWire(DownloadFourBytes(WithIndex(SdoFrameBuilder(1, SdoRx), 0x1122, 0x33), 0x7766_5544));
  }

  /** A four-byte download of 0x7766_5544 from a client to node 1 for 0x1122/0x33 is sent as `23 22 11 33 44 55 66 77` at 0x601. */
  lemma DownloadFourBytesExampleWire(b: WithIndexFrameBuilder)
    requires b.nodeId == 1 && b.frameType == SdoRx && b.index == 0x1122 && b.subindex == 0x33 && b.data == 0x7766_5544
    requires b.commandSpecifier == InitiateDownload && b.size == FourBytes && b.expeditedFlag
    ensures Wire(b) == CanFrame(0x601, [0x23, 0x22, 0x11, 0x33, 0x44, 0x55, 0x66, 0x77], false)
  {
    assert LeBytes(b.data, 4) == [0x44, 0x55, 0x66, 0x77];
    assert LeBytes(b.index, 2) == [0x22, 0x11];
    WireBytes(b, 0x23, 0x22, 0x11, 0x44, 0x55, 0x66, 0x77);
  }

  /** A three-byte `download` from a client to node 1: `27 22 11 33 44 55 66 00` at 0x601. */
  lemma DownloadThreeBytesExample()
    ensures SdoRequest(1).Ok?
    ensures Wire(SdoBuilder.Download(WithIndex(SdoRequest(1).value, 0x1122, 0x33), [0x44, 0x55, 0x66]))
      == CanFrame(0x601, [0x27, 0x22, 0x11, 0x33, 0x44, 0x55, 0x66, 0x00], false)
  {
    var b0 := WithIndex(SdoFrameBuilder(1, SdoRx), 0x1122, 0x33);
    ThreeBytePacking(b0);
    var b := b0.(commandSpecifier := InitiateDownload, size := ThreeBytes, data := 0x66_5544, expeditedFlag := true);
    WireBytes(b, 0x27, 0x22, 0x11, 0x44, 0x55, 0x66, 0x00);
  }

  /** A three-byte upload response from node 1 for 0x7766_5544: `47 22 11 33 44 55 66 00` at 0x581, the top byte masked off. */
  lemma UploadThreeBytesExample()
    ensures SdoResponse(1).Ok?
    ensures Wire(UploadThreeBytesExpeditedResponse(WithIndex(SdoResponse(1).value, 0x1122, 0x33), 0x7766_5544))
      == CanFrame(0x581, [0x47, 0x22, 0x11, 0x33, 0x44, 0x55, 0x66, 0x00], false)
  {
    assert SdoResponse(1).value == SdoFrameBuilder(1, SdoTx);
    var b0 := WithIndex(SdoFrameBuilder(1, SdoTx), 0x1122, 0x33);
    assert 0x7766_5544 % 0x100_0000 == 0x66_5544;
    UploadThreeBytesExampleWire(UploadThreeBytesExpeditedResponse(b0, 0x7766_5544));
  }

  /** A three-byte upload response of 0x66_5544 from node 1 for 0x1122/0x33 is sent as `47 22 11 33 44 55 66 00` at 0x581. */
  lemma UploadThreeBytesExampleWire(b: WithIndexFrameBuilder)
    requires b.nodeId == 1 && b.frameType == SdoTx && b.index == 0x1122 && b.subindex == 0x33 && b.data == 0x66_5544
    requires b.commandSpecifier == UploadResponse && b.size == ThreeBytes && b.expeditedFlag
    ensures Wire(b) == CanFrame(0x581, [0x47, 0x22, 0x11, 0x33, 0x44, 0x55, 0x66, 0x00], false)
  {
    assert LeBytes(b.data, 4) == [0x44, 0x55, 0x66, 0x00];
    assert LeBytes(b.index, 2) == [0x22, 0x11];
    WireBytes(b, 0x47, 0x22, 0x11, 0x44, 0x55, 0x66, 0x00);
  }

  /** The three bytes of the example pack into 0x66_5544 with size ThreeBytes. */
  lemma ThreeBytePacking(b0: WithIndexFrameBuilder)
    ensures SdoBuilder.Download(b0, [0x44, 0x55, 0x66])
      == b0.(commandSpecifier := InitiateDownload, size := ThreeBytes, data := 0x66_5544, expeditedFlag := true)
    ensures LeBytes(0x66_5544, 4) == [0x44, 0x55, 0x66, 0x00]
  {
    assert [0x44, 0x55, 0x66][1..] == [0x55, 0x66];
    assert [0x55, 0x66][1..] == [0x66];
    assert FromLe([0x44, 0x55, 0x66]) == 0x66_5544;
  }
}
