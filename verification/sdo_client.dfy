/**
 * The SDO client of sdo_client.rs: expedited and segmented reads and
 * expedited writes against one server node.
 *
 * The CAN socket is a class holding the frames still to arrive, already
 * decoded by `CANOpenFrame::try_from`, and the frames written so far. An
 * exhausted inbox is the 500 ms response timeout firing; a `None` or
 * `Some(Err(_))` from the stream is one `NoFrame` item.
 *
 * Each async operation is a method with the source's waiting loop. It is
 * specified by a function of the session it starts from: the inbox, the
 * frames sent and the caller's buffer.
 */
module SdoClient {
  import opened Bytes
  import opened Wrappers
  import opened Errors
  import opened SdoAbort
  import opened SdoPayload
  import opened Frame
  import opened SdoBuilder
  import opened FrameBuilder

  /** The node ids `SdoClient::new` accepts. */
  type NodeId = x: u8 | x <= 0x7F

  /** One item of the socket's frame stream. */
  datatype Incoming = Received(frame: Result<CanOpenFrame, CanOpenError>) | NoFrame

  /** How `write_frame` behaves: it may fail to create the write future, or the future may fail. */
  datatype WriteStatus = Writable | CannotInstantiate | WriteFails

  /** What an operation reads and changes: the inbox, the frames sent and the caller's buffer. */
  datatype Session = Session(inbox: seq<Incoming>, sent: seq<CanFrame>, buf: seq<u8>)

  /** How the wait for a response ended. */
  datatype Awaited =
    | Matched(frame: CanOpenFrame, rest: seq<Incoming>)
    | Failed(error: CanOpenError, rest: seq<Incoming>)
    | Ended(rest: seq<Incoming>)
    | TimedOut

  /** `write_frame(..)?.await?`. */
  function Send(w: WriteStatus, sent: seq<CanFrame>, f: CanFrame): (r: Result<seq<CanFrame>, CanOpenError>)
    ensures r.Ok? <==> w == Writable
    ensures w == CannotInstantiate ==> r == Err(SocketInstanciatingError)
    ensures w == WriteFails ==> r == Err(SocketWriteError)
    ensures r.Ok? ==> |r.value| == |sent| + 1 && r.value[..|sent|] == sent && r.value[|sent|] == f
  {
    match w
    case Writable => Ok(sent + [f])
    case CannotInstantiate => Err(SocketInstanciatingError)
    case WriteFails => Err(SocketWriteError)
  }

  /**
   * The frames the waiting loops stop at: from the server node on SdoTx, with
   * an indexed payload for the requested object, or (while reading a segment)
   * any segment payload.
   */
  predicate Relevant(f: CanOpenFrame, nodeId: u8, index: u16, subindex: u8, segmented: bool)
  {
    f.nodeId == nodeId && f.frameType == SdoTx &&
    match f.payload
    case SdoWithIndex(p) => p.index == index && p.subindex == subindex
    case SdoWithoutIndex(_) => segmented
    case Unspecific(_) => false
  }

  /** A stream item the waiting loops skip. */
  predicate Skipped(item: Incoming, nodeId: u8, index: u16, subindex: u8, segmented: bool)
  {
    item.Received? && item.frame.Ok? && !Relevant(item.frame.value, nodeId, index, subindex, segmented)
  }

  /**
   * The `while let Some(Ok(frame))` loop: skips irrelevant frames, stops at
   * the first relevant one, at a decode error (the `?` on `try_from`) or at
   * the end of the stream.
   */
  function Await(inbox: seq<Incoming>, nodeId: u8, index: u16, subindex: u8, segmented: bool): (a: Awaited)
    decreases |inbox|
    ensures !a.TimedOut? ==> |a.rest| < |inbox|
    ensures a.Matched? ==> Relevant(a.frame, nodeId, index, subindex, segmented)
  {
    if inbox == [] then TimedOut
    else
      match inbox[0]
      case NoFrame => Ended(inbox[1..])
      case Received(Err(e)) => Failed(e, inbox[1..])
      case Received(Ok(f)) =>
        if Relevant(f, nodeId, index, subindex, segmented) then Matched(f, inbox[1..])
        else
          Await(inbox[1..], nodeId, index, subindex, segmented)
  }

  /**
   * The wait consumes skipped frames up to the item it stops at: a relevant
   * frame, a decode error or the end of the stream; it times out only when
   * every remaining item is skipped.
   */
  lemma {:induction false} AwaitStopsAtFirst(inbox: seq<Incoming>, nodeId: u8, index: u16, subindex: u8, segmented: bool)
    ensures var a := Await(inbox, nodeId, index, subindex, segmented);
      (a.TimedOut? ==> forall k :: 0 <= k < |inbox| ==> Skipped(inbox[k], nodeId, index, subindex, segmented))
      && (!a.TimedOut? ==>
        var stop := |inbox| - |a.rest| - 1;
        (forall k :: 0 <= k < stop ==> Skipped(inbox[k], nodeId, index, subindex, segmented))
        && a.rest == inbox[stop + 1..]
        && inbox[stop] == match a
          case Matched(f, _) => Received(Ok(f))
          case Failed(e, _) => Received(Err(e))
          case Ended(_) => NoFrame)
  {
    if inbox != [] && inbox[0].Received? && inbox[0].frame.Ok?
      && !Relevant(inbox[0].frame.value, nodeId, index, subindex, segmented) {
      AwaitStopsAtFirst(inbox[1..], nodeId, index, subindex, segmented);
      var a := Await(inbox[1..], nodeId, index, subindex, segmented);
      if !a.TimedOut? {
        assert inbox[1..][|inbox[1..]| - |a.rest|..] == inbox[|inbox| - |a.rest|..];
      }
    }
  }

  /** The inbox left after a wait: nothing once it timed out. */
  function Remaining(a: Awaited): seq<Incoming>
  {
    if a.TimedOut? then [] else a.rest
  }

  /** The upload request `read_indexed` sends. */
  function UploadRequestWire(nodeId: NodeId, index: u16, subindex: u8): CanFrame
  {
    Wire(UploadRequestFrame(WithIndex(SdoRequest(nodeId).value, index, subindex)))
  }

  /**
   * The segment upload request `read_segment` sends for its toggle argument:
   * `build` flips the toggle first, so a clear argument sends 0x71 and a set one 0x61.
   */
  function SegmentRequestWire(nodeId: NodeId, toggle: bool): CanFrame
  {
    CanFrame(0x600 + nodeId, [if toggle then 0x61 else 0x71, 0, 0, 0, 0, 0, 0, 0], false)
  }

  /** The segment upload request is the frame the segment builder makes for the client's node. */
  lemma SegmentRequestWireBuilt(nodeId: NodeId, toggle: bool)
    ensures SegmentRequestWire(nodeId, toggle) == IntoCanFrame(CanOpenFrame(nodeId, SdoRx, false, SdoWithoutIndex(
      WithoutIndexPayload(Ccs(ClientCommandSpecifier.UploadSegment), !toggle, Some(0), [0, 0, 0, 0, 0, 0, 0]))))
  {
    var f := CanOpenFrame(nodeId, SdoRx, false, SdoWithoutIndex(
      WithoutIndexPayload(Ccs(ClientCommandSpecifier.UploadSegment), !toggle, Some(0), [0, 0, 0, 0, 0, 0, 0])));
    SegmentWire(f);
  }

  /** The expedited download `write_object` sends. */
  function DownloadWire(nodeId: NodeId, index: u16, subindex: u8, data: seq<u8>): CanFrame
    requires !ExpeditedDataPanics(data)
  {
    Wire(SdoBuilder.Download(WithIndex(SdoRequest(nodeId).value, index, subindex), data))
  }

  predicate IsAbort(p: WithIndexPayload)
  {
    p.cs == Scs(ServerCommandSpecifier.Abort)
  }

  /** The buffer after an expedited response: its first `len` bytes are the value's little-endian bytes. */
  function ExpeditedFill(buf: seq<u8>, value: u32, len: nat): (r: seq<u8>)
    requires len <= 4
    ensures |r| == |buf|
    ensures forall i :: 0 <= i < |buf| ==> r[i] == if i < len then LeBytes(value, 4)[i] else buf[i]
  {
    seq(|buf|, i requires 0 <= i < |buf| => if i < len then LeBytes(value, 4)[i] else buf[i])
  }

  /** The buffer after a segment is copied in at `offset`. */
  function SegmentFill(buf: seq<u8>, offset: nat, seg: seq<u8>): (r: seq<u8>)
    requires offset + |seg| <= |buf|
    ensures |r| == |buf| && r[offset..offset + |seg|] == seg
    ensures forall i :: 0 <= i < |buf| ==> r[i] == if offset <= i < offset + |seg| then seg[i - offset] else buf[i]
  {
    var r := seq(|buf|, i requires 0 <= i < |buf| => if offset <= i < offset + |seg| then seg[i - offset] else buf[i]);
    assert r[offset..offset + |seg|] == seg;
    r
  }

  /** What `read_indexed` makes of the end of its wait, with `sent` the frames sent so far. */
  function IndexedResponse(a: Awaited, sent: seq<CanFrame>, buf: seq<u8>): (r: (Result<nat, CanOpenError>, Session))
    requires a.Matched? ==> a.frame.payload.SdoWithIndex?
    ensures r.1.inbox == Remaining(a) && r.1.sent == sent && |r.1.buf| == |buf|
    ensures r.0.Ok? && r.0.value > 4 ==> r.0.value <= |buf|
  {
    var s1 := Session(Remaining(a), sent, buf);
    match a
    case TimedOut => (Err(SdoProtocolTimedOut), s1)
    case Failed(e, _) => (Err(e), s1)
    case Ended(_) => (Ok(0), s1)
    case Matched(f, _) =>
      var p := f.payload.withIndex;
      if IsAbort(p) then (Err(SdoAbortCode(FromU32(p.data))), s1)
      else if p.expeditedFlag then
        (Ok(ExtractLength(p.size)), s1.(buf := ExpeditedFill(buf, p.data, ExtractLength(p.size))))
      else if p.data > |buf| then (Err(StringIsTooLong(|buf|, p.data)), s1)
      else (Ok(p.data), s1)
  }

  /** `read_indexed`: an upload request, then the first matching response. */
  function ReadIndexedSpec(w: WriteStatus, nodeId: NodeId, index: u16, subindex: u8, s: Session): (r: (Result<nat, CanOpenError>, Session))
    ensures |r.1.buf| == |s.buf| && |r.1.inbox| <= |s.inbox|
    ensures r.0.Ok? && r.0.value > 4 ==> r.0.value <= |s.buf|
  {
    match Send(w, s.sent, UploadRequestWire(nodeId, index, subindex))
    case Err(e) => (Err(e), s)
    case Ok(sent) => IndexedResponse(Await(s.inbox, nodeId, index, subindex, false), sent, s.buf)
  }

  /** The bytes a segment carries: 7 less its empty-byte count, `None` counting as 0. */
  function SegmentLength(p: WithoutIndexPayload): int
  {
    7 - if p.lengthOfEmptyBytes.Some? then p.lengthOfEmptyBytes.value else 0
  }

  /**
   * The segment copy panics when the empty-byte count exceeds 7 (the `usize`
   * subtraction underflows) or the segment does not fit the buffer's tail.
   */
  predicate SegmentCopyPanics(p: WithoutIndexPayload, offset: nat, bufLength: nat)
  {
    SegmentLength(p) < 0 || offset + SegmentLength(p) > bufLength
  }

  /** What `read_segment` makes of the end of its wait, copying a segment into the buffer from `offset`. */
  function SegmentResponse(a: Awaited, sent: seq<CanFrame>, buf: seq<u8>, offset: nat): (r: (Outcome<nat>, Session))
    requires offset <= |buf|
    requires a.Matched? ==> !a.frame.payload.Unspecific?
    ensures r.1.inbox == Remaining(a) && r.1.sent == sent && |r.1.buf| == |buf|
    ensures r.0.Done? && r.0.result.Ok? ==> !a.TimedOut? && r.0.result.value <= 7
  {
    var s1 := Session(Remaining(a), sent, buf);
    match a
    case TimedOut => (Done(Err(SdoProtocolTimedOut)), s1)
    case Failed(e, _) => (Done(Err(e)), s1)
    case Ended(_) => (Done(Ok(0)), s1)
    case Matched(f, _) =>
      if f.payload.SdoWithIndex? then
        var p := f.payload.withIndex;
        if IsAbort(p) then (Done(Err(SdoAbortCode(FromU32(p.data)))), s1)
        else (Done(Ok(0)), s1)
      else
        var p := f.payload.withoutIndex;
        if SegmentCopyPanics(p, offset, |buf|) then (Panicked, s1)
        else
          var n := SegmentLength(p);
          (Done(Ok(n)), s1.(buf := SegmentFill(buf, offset, p.data[..n])))
  }

  /** `read_segment` into the buffer from `offset`: a segment request, then the first matching response. */
  function ReadSegmentSpec(w: WriteStatus, nodeId: NodeId, index: u16, subindex: u8, toggle: bool, s: Session, offset: nat)
    : (r: (Outcome<nat>, Session))
    requires offset <= |s.buf|
    ensures |r.1.buf| == |s.buf|
    ensures r.0.Done? && r.0.result.Ok? ==> |r.1.inbox| < |s.inbox| && r.0.result.value <= 7
  {
    match Send(w, s.sent, SegmentRequestWire(nodeId, toggle))
    case Err(e) => (Done(Err(e)), s)
    case Ok(sent) => SegmentResponse(Await(s.inbox, nodeId, index, subindex, true), sent, s.buf, offset)
  }

  /** Every segment read sends one segment request, for its toggle argument, unless the write fails. */
  lemma ReadSegmentSends(w: WriteStatus, nodeId: NodeId, index: u16, subindex: u8, toggle: bool, s: Session, offset: nat)
    requires offset <= |s.buf|
    ensures ReadSegmentSpec(w, nodeId, index, subindex, toggle, s, offset).1.sent
      == if w == Writable then s.sent + [SegmentRequestWire(nodeId, toggle)] else s.sent
  {
  }

  /** The `while bytes_already_read < len` loop of `read_object`, flipping the toggle argument after each segment. */
  function SegmentLoop(w: WriteStatus, nodeId: NodeId, index: u16, subindex: u8, s: Session, read: nat, len: nat, toggle: bool)
    : (r: (Outcome<nat>, Session))
    requires len <= |s.buf|
    decreases |s.inbox|, 1
    ensures |r.1.buf| == |s.buf|
    ensures r.0.Done? && r.0.result.Ok? ==> r.0.result.value == len
  {
    if read >= len then (Done(Ok(len)), s)
    else SegmentLoopAfter(w, nodeId, index, subindex, ReadSegmentSpec(w, nodeId, index, subindex, toggle, s, read), read, len, toggle)
  }

  /** The loop after one segment read `step`: it stops at a panic or an error and otherwise goes on with the toggle flipped. */
  function SegmentLoopAfter(w: WriteStatus, nodeId: NodeId, index: u16, subindex: u8, step: (Outcome<nat>, Session),
                            read: nat, len: nat, toggle: bool): (r: (Outcome<nat>, Session))
    requires len <= |step.1.buf|
    decreases if step.0.Done? && step.0.result.Ok? then |step.1.inbox| + 1 else 0, 0
    ensures |r.1.buf| == |step.1.buf|
    ensures r.0.Done? && r.0.result.Ok? ==> r.0.result.value == len
  {
    if step.0.Panicked? || step.0.result.Err? then step
    else SegmentLoop(w, nodeId, index, subindex, step.1, read + step.0.result.value, len, !toggle)
  }

  /** After a segment read that neither failed nor panicked, the loop goes on from the new session with the toggle flipped. */
  lemma {:induction false} SegmentLoopStep(w: WriteStatus, nodeId: NodeId, index: u16, subindex: u8, before: Session,
                                           after: Session, read: nat, len: nat, toggle: bool, n: nat,
                                           target: (Outcome<nat>, Session))
    requires len <= |before.buf| && read < len
    requires SegmentLoop(w, nodeId, index, subindex, before, read, len, toggle) == target
    requires ReadSegmentSpec(w, nodeId, index, subindex, toggle, before, read) == (Done(Ok(n)), after)
    ensures len <= |after.buf|
    ensures SegmentLoop(w, nodeId, index, subindex, after, read + n, len, !toggle) == target
  {
    var step := ReadSegmentSpec(w, nodeId, index, subindex, toggle, before, read);
    assert SegmentLoop(w, nodeId, index, subindex, before, read, len, toggle)
      == SegmentLoopAfter(w, nodeId, index, subindex, step, read, len, toggle);
  }

  /** `read_object`: an indexed read, then segments while the announced length exceeds 4. */
  function ReadObjectSpec(w: WriteStatus, nodeId: NodeId, index: u16, subindex: u8, s: Session): (r: (Outcome<nat>, Session))
    ensures |r.1.buf| == |s.buf|
  {
    var (first, s1) := ReadIndexedSpec(w, nodeId, index, subindex, s);
    match first
    case Err(e) => (Done(Err(e)), s1)
    case Ok(len) => if len > 4 then SegmentLoop(w, nodeId, index, subindex, s1, 0, len, false) else (Done(Ok(len)), s1)
  }

  /** `write_object`: an expedited download, then the first matching response, whatever it says. */
  function WriteObjectSpec(w: WriteStatus, nodeId: NodeId, index: u16, subindex: u8, data: seq<u8>, s: Session)
    : (r: (Result<(), CanOpenError>, Session))
    requires !ExpeditedDataPanics(data)
    ensures r.1.buf == s.buf
  {
    match Send(w, s.sent, DownloadWire(nodeId, index, subindex, data))
    case Err(e) => (Err(e), s)
    case Ok(sent) =>
      var a := Await(s.inbox, nodeId, index, subindex, false);
      var s1 := Session(Remaining(a), sent, s.buf);
      match a
      case TimedOut => (Err(SdoProtocolTimedOut), s1)
      case Failed(e, _) => (Err(e), s1)
      case Ended(_) => (Ok(()), s1)
      case Matched(_, _) => (Ok(()), s1)
  }

  /** `write_object` as its documentation describes it: a server abort is reported as its abort code. */
  function WriteObjectReportingAbort(w: WriteStatus, nodeId: NodeId, index: u16, subindex: u8, data: seq<u8>, s: Session)
    : (r: (Result<(), CanOpenError>, Session))
    requires !ExpeditedDataPanics(data)
    ensures r.1 == WriteObjectSpec(w, nodeId, index, subindex, data, s).1
    ensures r.0.Ok? ==> WriteObjectSpec(w, nodeId, index, subindex, data, s).0.Ok?
  {
    var (r, s1) := WriteObjectSpec(w, nodeId, index, subindex, data, s);
    var a := Await(s.inbox, nodeId, index, subindex, false);
    if w == Writable && a.Matched? && IsAbort(a.frame.payload.withIndex) then
      (Err(SdoAbortCode(FromU32(a.frame.payload.withIndex.data))), s1)
    else (r, s1)
  }

  // ---------------------------------------------------------------- properties of the session

  /** The stream a socket delivers: each received CAN frame decoded by `try_from`, `None` where no frame came. */
  function Decoded(raws: seq<Option<CanFrame>>): (inbox: seq<Incoming>)
    ensures |inbox| == |raws|
  {
    seq(|raws|, k requires 0 <= k < |raws| => if raws[k].Some? then Received(TryFromCanFrame(raws[k].value)) else NoFrame)
  }

  predicate CarriesSegment(item: Incoming)
  {
    item.Received? && item.frame.Ok? && item.frame.value.payload.SdoWithoutIndex?
  }

  /** No item of the stream is a segment frame. */
  predicate NoSegments(inbox: seq<Incoming>)
  {
    forall k :: 0 <= k < |inbox| ==> !CarriesSegment(inbox[k])
  }

  /** A stream of decoded CAN frames holds no segment frame, since `try_from` never produces one. */
  lemma {:induction false} DecodedHasNoSegments(raws: seq<Option<CanFrame>>)
    ensures NoSegments(Decoded(raws))
  {
    var inbox := Decoded(raws);
    forall k | 0 <= k < |inbox|
      ensures !CarriesSegment(inbox[k])
    {
      if raws[k].Some? && TryFromCanFrame(raws[k].value).Ok? {
        NeverSegment(raws[k].value);
      }
    }
  }

  /** What is left of a stream without segment frames has none either. */
  lemma NoSegmentsDrop(inbox: seq<Incoming>, j: nat)
    requires j <= |inbox| && NoSegments(inbox)
    ensures NoSegments(inbox[j..])
  {
    forall k | 0 <= k < |inbox| - j
      ensures !CarriesSegment(inbox[j..][k])
    {
      assert inbox[j..][k] == inbox[j + k];
    }
  }

  /**
   * Without segment frames in the stream, the segment loop never completes:
   * every segment read that does not fail reads 0 bytes, until the stream
   * runs out and the wait times out.
   */
  lemma {:induction false} SegmentLoopFailsWithoutSegments(w: WriteStatus, nodeId: NodeId, index: u16, subindex: u8, s: Session,
                                                           read: nat, len: nat, toggle: bool)
    requires len <= |s.buf| && read < len && NoSegments(s.inbox)
    decreases |s.inbox|
    ensures SegmentLoop(w, nodeId, index, subindex, s, read, len, toggle).0.Done?
    ensures SegmentLoop(w, nodeId, index, subindex, s, read, len, toggle).0.result.Err?
  {
    var step := ReadSegmentSpec(w, nodeId, index, subindex, toggle, s, read);
    assert SegmentLoop(w, nodeId, index, subindex, s, read, len, toggle)
      == SegmentLoopAfter(w, nodeId, index, subindex, step, read, len, toggle);
    if w == Writable {
      var a := Await(s.inbox, nodeId, index, subindex, true);
      var sent := s.sent + [SegmentRequestWire(nodeId, toggle)];
      assert step == SegmentResponse(a, sent, s.buf, read);
      AwaitStopsAtFirst(s.inbox, nodeId, index, subindex, true);
      if a.Matched? {
        assert !CarriesSegment(s.inbox[|s.inbox| - |a.rest| - 1]);
      }
      if step.0.Done? && step.0.result.Ok? {
        assert step.0.result.value == 0 && step.1.inbox == a.rest;
        NoSegmentsDrop(s.inbox, |s.inbox| - |a.rest|);
        SegmentLoopFailsWithoutSegments(w, nodeId, index, subindex, step.1, read, len, !toggle);
      }
    }
  }

  /**
   * `read_object` on a stream of decoded frames never returns more than 4
   * bytes: a length announced for a segmented transfer always ends in an error.
   */
  lemma {:induction false} SegmentedReadNeverSucceeds(w: WriteStatus, nodeId: NodeId, index: u16, subindex: u8,
                                                      raws: seq<Option<CanFrame>>, sent: seq<CanFrame>, buf: seq<u8>)
    ensures var r := ReadObjectSpec(w, nodeId, index, subindex, Session(Decoded(raws), sent, buf)).0;
      r.Done? && (r.result.Ok? ==> r.result.value <= 4)
  {
    var s := Session(Decoded(raws), sent, buf);
    DecodedHasNoSegments(raws);
    var (first, s1) := ReadIndexedSpec(w, nodeId, index, subindex, s);
    if first.Ok? && first.value > 4 {
      var a := Await(s.inbox, nodeId, index, subindex, false);
      assert s1.inbox == a.rest;
      AwaitStopsAtFirst(s.inbox, nodeId, index, subindex, false);
      NoSegmentsDrop(s.inbox, |s.inbox| - |a.rest|);
      SegmentLoopFailsWithoutSegments(w, nodeId, index, subindex, s1, 0, first.value, false);
    }
  }

  /** The with-index builder a server on `nodeId` starts from for the object `index`/`subindex`. */
  function ServerFor(nodeId: NodeId, index: u16, subindex: u8): WithIndexFrameBuilder
  {
    WithIndex(SdoResponse(nodeId).value, index, subindex)
  }

  /** The frame the server sends for an expedited upload of `bytes`. */
  function ExpeditedResponseWire(nodeId: NodeId, index: u16, subindex: u8, bytes: seq<u8>): CanFrame
    requires !ExpeditedDataPanics(bytes)
  {
    Wire(UploadExpeditedResponse(ServerFor(nodeId, index, subindex), bytes))
  }

  /** The frame the server sends to announce a segmented upload of `length` bytes. */
  function SegmentedResponseWire(nodeId: NodeId, index: u16, subindex: u8, length: u32): CanFrame
  {
    Wire(UploadSegmentedResponse(ServerFor(nodeId, index, subindex), length))
  }

  /** The frame the server sends to abort the transfer of the object with `code`. */
  function AbortResponseWire(nodeId: NodeId, index: u16, subindex: u8, code: SdoAbortCode): CanFrame
  {
    Wire(SdoBuilder.Abort(ServerFor(nodeId, index, subindex), code))
  }

  /** The upload request the client sends decodes, on the server side, to a client upload of the object. */
  lemma UploadRequestDecoded(nodeId: NodeId, index: u16, subindex: u8)
    ensures TryFromCanFrame(UploadRequestWire(nodeId, index, subindex))
      == Ok(CanOpenFrame(nodeId, SdoRx, false,
           SdoWithIndex(WithIndexPayload(Ccs(ClientCommandSpecifier.Upload), NotSet, false, index, subindex, 0))))
  {
    var g := CanOpenFrame(nodeId, SdoRx, false,
      SdoWithIndex(WithIndexPayload(Ccs(ClientCommandSpecifier.Upload), NotSet, false, index, subindex, 0)));
    assert IntoCanFrame(g) == UploadRequestWire(nodeId, index, subindex);
    EncodeDecodeSdoRx(g);
  }

  /**
   * The expedited upload response decodes to a server Upload frame for the
   * object (the builder's client specifier has the same bits 5-7).
   */
  lemma ExpeditedResponseDecoded(nodeId: NodeId, index: u16, subindex: u8, bytes: seq<u8>)
    requires !ExpeditedDataPanics(bytes)
    ensures var b := UploadExpeditedResponse(ServerFor(nodeId, index, subindex), bytes);
      TryFromCanFrame(ExpeditedResponseWire(nodeId, index, subindex, bytes))
        == Ok(CanOpenFrame(nodeId, SdoTx, false,
             SdoWithIndex(WithIndexPayload(Scs(ServerCommandSpecifier.Upload), b.size, true, index, subindex, b.data))))
  {
    var b := UploadExpeditedResponse(ServerFor(nodeId, index, subindex), bytes);
    var g := CanOpenFrame(nodeId, SdoTx, false,
      SdoWithIndex(WithIndexPayload(Scs(ServerCommandSpecifier.Upload), b.size, true, index, subindex, b.data)));
    assert IntoCanFrame(g) == Wire(b);
    EncodeDecodeSdoTx(g);
  }

  /**
   * An expedited upload of up to 4 bytes reaches the caller: `read_object`
   * returns their number and the buffer starts with them, the rest of it untouched.
   */
  lemma {:induction false} ExpeditedUploadDelivered(nodeId: NodeId, index: u16, subindex: u8, bytes: seq<u8>,
                                                    rest: seq<Incoming>, sent: seq<CanFrame>, buf: seq<u8>)
    requires !ExpeditedDataPanics(bytes)
    ensures var s := Session([Received(TryFromCanFrame(ExpeditedResponseWire(nodeId, index, subindex, bytes)))] + rest, sent, buf);
      var (r, s1) := ReadObjectSpec(Writable, nodeId, index, subindex, s);
      r == Done(Ok(|bytes|)) && s1.inbox == rest && s1.sent == sent + [UploadRequestWire(nodeId, index, subindex)]
      && forall i :: 0 <= i < |buf| ==> s1.buf[i] == if i < |bytes| then bytes[i] else buf[i]
  {
    var b := UploadExpeditedResponse(ServerFor(nodeId, index, subindex), bytes);
    ExpeditedResponseDecoded(nodeId, index, subindex, bytes);
    var s := Session([Received(TryFromCanFrame(ExpeditedResponseWire(nodeId, index, subindex, bytes)))] + rest, sent, buf);
    var f := CanOpenFrame(nodeId, SdoTx, false,
      SdoWithIndex(WithIndexPayload(Scs(ServerCommandSpecifier.Upload), b.size, true, index, subindex, b.data)));
    assert s.inbox[1..] == rest;
    assert Await(s.inbox, nodeId, index, subindex, false) == Matched(f, rest);
  }

  /** The server's abort frame is the first frame the client's wait accepts. */
  lemma AbortMatched(nodeId: NodeId, index: u16, subindex: u8, code: SdoAbortCode, rest: seq<Incoming>)
    ensures var inbox := [Received(TryFromCanFrame(AbortResponseWire(nodeId, index, subindex, code)))] + rest;
      Await(inbox, nodeId, index, subindex, false) == Matched(Build(SdoBuilder.Abort(ServerFor(nodeId, index, subindex), code)), rest)
  {
    var g := Build(SdoBuilder.Abort(ServerFor(nodeId, index, subindex), code));
    EncodeDecodeSdoTx(g);
    var inbox := [Received(TryFromCanFrame(AbortResponseWire(nodeId, index, subindex, code)))] + rest;
    assert inbox[1..] == rest;
  }

  /**
   * A server abort reaches the caller of `read_object` as the code the decoder
   * reads from the frame: the server's own code, except that ReadWriteOnlyError
   * arrives as UnsupportedAccess.
   */
  lemma {:induction false} AbortDelivered(nodeId: NodeId, index: u16, subindex: u8, code: SdoAbortCode,
                                          rest: seq<Incoming>, sent: seq<CanFrame>, buf: seq<u8>)
    ensures var s := Session([Received(TryFromCanFrame(AbortResponseWire(nodeId, index, subindex, code)))] + rest, sent, buf);
      var (r, s1) := ReadObjectSpec(Writable, nodeId, index, subindex, s);
      r == Done(Err(SdoAbortCode(FromU32(IntoU32AsWritten(code))))) && s1.buf == buf && s1.inbox == rest
      && (Decodable(code) && code != ReadWriteOnlyError ==> r == Done(Err(SdoAbortCode(code))))
      && (code == ReadWriteOnlyError ==> r == Done(Err(SdoAbortCode(UnsupportedAccess))))
  {
    AbortMatched(nodeId, index, subindex, code, rest);
    AbortReadBack(code);
  }

  /** A server that aborts a read with ReadWriteOnlyError is reported to the client as refusing access. */
  lemma ReadWriteOnlyAbortMisreported(nodeId: NodeId, index: u16, subindex: u8, rest: seq<Incoming>, sent: seq<CanFrame>, buf: seq<u8>)
    ensures var s := Session([Received(TryFromCanFrame(AbortResponseWire(nodeId, index, subindex, ReadWriteOnlyError)))] + rest, sent, buf);
      ReadObjectSpec(Writable, nodeId, index, subindex, s).0 == Done(Err(SdoAbortCode(UnsupportedAccess)))
  {
    AbortDelivered(nodeId, index, subindex, ReadWriteOnlyError, rest, sent, buf);
  }

  /**
   * The length a segmented upload announces is accepted when the buffer can
   * hold it and reported as too long otherwise.
   */
  lemma {:induction false} AnnouncedLengthChecked(nodeId: NodeId, index: u16, subindex: u8, length: u32,
                                                  rest: seq<Incoming>, sent: seq<CanFrame>, buf: seq<u8>)
    ensures var s := Session([Received(TryFromCanFrame(SegmentedResponseWire(nodeId, index, subindex, length)))] + rest, sent, buf);
      var (r, s1) := ReadIndexedSpec(Writable, nodeId, index, subindex, s);
      r == (if length <= |buf| then Ok(length) else Err(StringIsTooLong(|buf|, length))) && s1.buf == buf && s1.inbox == rest
  {
    var g := Build(UploadSegmentedResponse(ServerFor(nodeId, index, subindex), length));
    EncodeDecodeSdoTx(g);
    var s := Session([Received(TryFromCanFrame(SegmentedResponseWire(nodeId, index, subindex, length)))] + rest, sent, buf);
    assert s.inbox[1..] == rest;
    assert Await(s.inbox, nodeId, index, subindex, false) == Matched(g, rest);
  }

  /** `write_object` answers `Ok` to a download the server aborts. */
  lemma {:induction false} WriteObjectIgnoresAbort(nodeId: NodeId, index: u16, subindex: u8, data: seq<u8>, code: SdoAbortCode,
                                                   rest: seq<Incoming>, sent: seq<CanFrame>)
    requires !ExpeditedDataPanics(data)
    ensures var s := Session([Received(TryFromCanFrame(AbortResponseWire(nodeId, index, subindex, code)))] + rest, sent, []);
      WriteObjectSpec(Writable, nodeId, index, subindex, data, s).0 == Ok(())
  {
    AbortMatched(nodeId, index, subindex, code, rest);
  }

  /** With aborts reported, the same download ends in the server's abort code. */
  lemma {:induction false} WriteObjectReportsAbort(nodeId: NodeId, index: u16, subindex: u8, data: seq<u8>, code: SdoAbortCode,
                                                   rest: seq<Incoming>, sent: seq<CanFrame>)
    requires !ExpeditedDataPanics(data)
    ensures var s := Session([Received(TryFromCanFrame(AbortResponseWire(nodeId, index, subindex, code)))] + rest, sent, []);
      var r := WriteObjectReportingAbort(Writable, nodeId, index, subindex, data, s).0;
      r == Err(SdoAbortCode(FromU32(IntoU32AsWritten(code))))
      && (Decodable(code) && code != ReadWriteOnlyError ==> r == Err(SdoAbortCode(code)))
      && (code == ReadWriteOnlyError ==> r == Err(SdoAbortCode(UnsupportedAccess)))
  {
    AbortMatched(nodeId, index, subindex, code, rest);
    AbortReadBack(code);
  }

  /**
   * `after` is `sent` followed by segment requests whose toggle arguments
   * alternate, starting from `toggle`.
   */
  predicate AlternatingRequests(sent: seq<CanFrame>, after: seq<CanFrame>, nodeId: NodeId, toggle: bool)
  {
    |sent| <= |after| && after[..|sent|] == sent
    && forall i :: |sent| <= i < |after| ==>
      after[i] == SegmentRequestWire(nodeId, if (i - |sent|) % 2 == 0 then toggle else !toggle)
  }

  /** The frames the segment loop sends: segment requests with toggle arguments alternating from `toggle`. */
  lemma {:induction false} SegmentRequestsAlternate(w: WriteStatus, nodeId: NodeId, index: u16, subindex: u8, s: Session,
                                                    read: nat, len: nat, toggle: bool)
    requires len <= |s.buf|
    decreases |s.inbox|
    ensures AlternatingRequests(s.sent, SegmentLoop(w, nodeId, index, subindex, s, read, len, toggle).1.sent, nodeId, toggle)
  {
    var s1 := SegmentLoop(w, nodeId, index, subindex, s, read, len, toggle).1;
    if read >= len {
      assert s1 == s;
      AlternatingNone(s.sent, nodeId, toggle);
    } else {
      var step := ReadSegmentSpec(w, nodeId, index, subindex, toggle, s, read);
      assert s1 == SegmentLoopAfter(w, nodeId, index, subindex, step, read, len, toggle).1;
      var s2 := step.1;
      ReadSegmentSends(w, nodeId, index, subindex, toggle, s, read);
      if w != Writable {
        assert s1 == s2 && s2.sent == s.sent;
        AlternatingNone(s.sent, nodeId, toggle);
      } else if step.0.Panicked? || step.0.result.Err? {
        assert s1 == s2;
        AlternatingShift(s.sent, s2.sent, nodeId, toggle);
      } else {
        assert s1 == SegmentLoop(w, nodeId, index, subindex, s2, read + step.0.result.value, len, !toggle).1;
        SegmentRequestsAlternate(w, nodeId, index, subindex, s2, read + step.0.result.value, len, !toggle);
        AlternatingShift(s.sent, s1.sent, nodeId, toggle);
      }
    }
  }

  lemma AlternatingNone(sent: seq<CanFrame>, nodeId: NodeId, toggle: bool)
    ensures AlternatingRequests(sent, sent, nodeId, toggle)
  {
    assert sent[..|sent|] == sent;
  }

  /** One request with `toggle`, then requests alternating from `!toggle`, alternate from `toggle`. */
  lemma AlternatingShift(sent: seq<CanFrame>, after: seq<CanFrame>, nodeId: NodeId, toggle: bool)
    requires |sent| + 1 <= |after| && after[..|sent| + 1] == sent + [SegmentRequestWire(nodeId, toggle)]
    requires after == sent + [SegmentRequestWire(nodeId, toggle)]
      || AlternatingRequests(sent + [SegmentRequestWire(nodeId, toggle)], after, nodeId, !toggle)
    ensures AlternatingRequests(sent, after, nodeId, toggle)
  {
    var first := sent + [SegmentRequestWire(nodeId, toggle)];
    assert after[..|sent|] == first[..|sent|] == sent;
    forall i | |sent| <= i < |after|
      ensures after[i] == SegmentRequestWire(nodeId, if (i - |sent|) % 2 == 0 then toggle else !toggle)
    {
      if i == |sent| {
        assert after[i] == first[i];
      } else {
        assert AlternatingRequests(first, after, nodeId, !toggle);
        var t := if (i - |first|) % 2 == 0 then !toggle else toggle;
        assert after[i] == SegmentRequestWire(nodeId, t);
        assert i - |sent| == (i - |first|) + 1;
        assert t == if (i - |sent|) % 2 == 0 then toggle else !toggle;
      }
    }
  }

  /**
   * A segment the server builder fills with `src` is copied back in full up to
   * 7 bytes: its empty-byte count leaves exactly min(|src|, 7) bytes to copy.
   */
  lemma BuiltSegmentCopied(src: seq<u8>, toggle: bool)
    ensures var p := WithoutIndexPayload(Scs(ServerCommandSpecifier.DownloadSegment), toggle, EmptyCount(|src|), SegmentBytes(src));
      var n := if |src| < 7 then |src| else 7;
      SegmentLength(p) == n && p.data[..n] == src[..n]
  {
  }

  /** The socket: frames still to arrive and frames written. */
  class CanSocket {
    var inbox: seq<Incoming>
    var sent: seq<CanFrame>
    const writeStatus: WriteStatus

    constructor (incoming: seq<Incoming>, status: WriteStatus)
      ensures inbox == incoming && sent == [] && writeStatus == status
    {
      inbox := incoming;
      sent := [];
      writeStatus := status;
    }

    /** `write_frame(frame)?.await?`. */
    method WriteFrame(f: CanFrame) returns (r: Result<(), CanOpenError>)
      modifies this`sent
      ensures match Send(writeStatus, old(sent), f)
        case Ok(s) => r.Ok? && sent == s
        case Err(e) => r == Err(e) && sent == old(sent)
    {
      match Send(writeStatus, sent, f)
      case Ok(s) =>
        sent := s;
        r := Ok(());
      case Err(e) =>
        r := Err(e);
    }

    /** `next().await` under the timeout: `None` once nothing is left to arrive. */
    method Next() returns (item: Option<Incoming>)
      modifies this`inbox
      ensures old(inbox) == [] ==> item == None && inbox == []
      ensures old(inbox) != [] ==> item == Some(old(inbox)[0]) && inbox == old(inbox)[1..]
    {
      if inbox == [] {
        item := None;
      } else {
        item := Some(inbox[0]);
        inbox := inbox[1..];
      }
    }
  }

  class SdoClient {
    const nodeId: NodeId
    const socket: CanSocket

    /** `SdoClient::new` panics for a node id above 0x7F. */
    constructor (id: u8, canSocket: CanSocket)
      requires id <= 0x7F
      ensures nodeId == id && socket == canSocket
    {
      nodeId := id;
      socket := canSocket;
    }

    /** The session an operation starts from or leaves. */
    function SessionOf(data: array<u8>): Session
      reads socket, data
    {
      Session(socket.inbox, socket.sent, data[..])
    }

    /** The waiting loop shared by the three operations. */
    method AwaitResponse(index: u16, subindex: u8, segmented: bool) returns (a: Awaited)
      modifies socket`inbox
      ensures a == Await(old(socket.inbox), nodeId, index, subindex, segmented)
      ensures socket.inbox == Remaining(a) && socket.sent == old(socket.sent)
    {
      while true
        invariant Await(socket.inbox, nodeId, index, subindex, segmented) == Await(old(socket.inbox), nodeId, index, subindex, segmented)
        invariant socket.sent == old(socket.sent)
        decreases |socket.inbox|
      {
        var item := socket.Next();
        match item
        case None =>
          return TimedOut;
        case Some(NoFrame) =>
          return Ended(socket.inbox);
        case Some(Received(Err(e))) =>
          return Failed(e, socket.inbox);
        case Some(Received(Ok(f))) =>
          if Relevant(f, nodeId, index, subindex, segmented) {
            return Matched(f, socket.inbox);
          }
      }
    }

    /** `read_indexed`. */
    method ReadIndexed(index: u16, subindex: u8, data: array<u8>) returns (r: Result<nat, CanOpenError>)
      modifies socket`inbox, socket`sent, data
      ensures (r, SessionOf(data)) == ReadIndexedSpec(socket.writeStatus, nodeId, index, subindex, old(SessionOf(data)))
    {
      var written := socket.WriteFrame(UploadRequestWire(nodeId, index, subindex));
      if written.Err? {
        return Err(written.error);
      }
      var a := AwaitResponse(index, subindex, false);
      match a
      case TimedOut =>
        r := Err(SdoProtocolTimedOut);
      case Failed(e, _) =>
        r := Err(e);
      case Ended(_) =>
        r := Ok(0);
      case Matched(f, _) =>
        var p := f.payload.withIndex;
        if IsAbort(p) {
          return Err(SdoAbortCode(FromU32(p.data)));
        }
        if p.expeditedFlag {
          var len := ExtractLength(p.size);
          FillExpedited(data, p.data, len);
          r := Ok(len);
        } else {
          var len := p.data;
          if len > data.Length {
            return Err(StringIsTooLong(data.Length, len));
          }
          r := Ok(len);
        }
    }

    /** The expedited copy: byte i of the response value into `data[i]` for every i below `len`. */
    method FillExpedited(data: array<u8>, value: u32, len: nat)
      requires len <= 4
      modifies data
      ensures data[..] == ExpeditedFill(old(data[..]), value, len)
    {
      var bytes := LeBytes(value, 4);
      for i := 0 to data.Length
        invariant forall k :: 0 <= k < data.Length ==> data[k] == if k < i && k < len then bytes[k] else old(data[k])
      {
        if i < len {
          data[i] := bytes[i];
        }
      }
    }

    /** The segment copy `for i in 0..len { data[i] = payload.data[i] }` on the slice from `offset`. */
    method CopySegment(data: array<u8>, offset: nat, seg: seq<u8>)
      requires offset + |seg| <= data.Length
      modifies data
      ensures data[..] == SegmentFill(old(data[..]), offset, seg)
    {
      for i := 0 to |seg|
        invariant forall k :: 0 <= k < data.Length ==>
          data[k] == if offset <= k < offset + i then seg[k - offset] else old(data[k])
      {
        data[offset + i] := seg[i];
      }
    }

    /** The request `read_segment` builds: `without_index().upload_request().toggle(toggle)`, then `build()`. */
    method SegmentRequest(toggle: bool) returns (f: CanFrame)
      ensures f == SegmentRequestWire(nodeId, toggle)
    {
      var builder := new WithoutIndexFrameBuilder(SdoRequest(nodeId).value);
      builder.UploadRequest();
      builder.SetToggle(toggle);
      var frame := builder.Build();
      f := IntoCanFrame(frame);
      SegmentRequestWireBuilt(nodeId, toggle);
    }

    /** `read_segment` on the slice `data[offset..]`. */
    method ReadSegment(index: u16, subindex: u8, toggle: bool, data: array<u8>, offset: nat) returns (r: Outcome<nat>)
      requires offset <= data.Length
      modifies socket`inbox, socket`sent, data
      ensures (r, SessionOf(data)) == ReadSegmentSpec(socket.writeStatus, nodeId, index, subindex, toggle, old(SessionOf(data)), offset)
    {
      var frame := SegmentRequest(toggle);
      var written := socket.WriteFrame(frame);
      if written.Err? {
        return Done(Err(written.error));
      }
      var a := AwaitResponse(index, subindex, true);
      match a
      case TimedOut =>
        r := Done(Err(SdoProtocolTimedOut));
      case Failed(e, _) =>
        r := Done(Err(e));
      case Ended(_) =>
        r := Done(Ok(0));
      case Matched(f, _) =>
        if f.payload.SdoWithIndex? {
          if IsAbort(f.payload.withIndex) {
            return Done(Err(SdoAbortCode(FromU32(f.payload.withIndex.data))));
          }
          r := Done(Ok(0));
        } else {
          var p := f.payload.withoutIndex;
          if SegmentCopyPanics(p, offset, data.Length) {
            return Panicked;
          }
          var len := SegmentLength(p);
          CopySegment(data, offset, p.data[..len]);
          r := Done(Ok(len));
        }
    }

    /** `read_object`: the number of bytes the server announced. */
    method ReadObject(index: u16, subindex: u8, data: array<u8>) returns (r: Outcome<nat>)
      modifies socket`inbox, socket`sent, data
      ensures (r, SessionOf(data)) == ReadObjectSpec(socket.writeStatus, nodeId, index, subindex, old(SessionOf(data)))
    {
      var first := ReadIndexed(index, subindex, data);
      if first.Err? {
        return Done(Err(first.error));
      }
      var len := first.value;
      if len > 4 {
        r := ReadSegments(index, subindex, data, len);
        return;
      }
      return Done(Ok(len));
    }

    /** The segment loop of `read_object`: segments until `len` bytes were read, the toggle argument starting clear. */
    method ReadSegments(index: u16, subindex: u8, data: array<u8>, len: nat) returns (r: Outcome<nat>)
      requires len <= data.Length
      modifies socket`inbox, socket`sent, data
      ensures (r, SessionOf(data)) == SegmentLoop(socket.writeStatus, nodeId, index, subindex, old(SessionOf(data)), 0, len, false)
    {
      ghost var w := socket.writeStatus;
      ghost var target := SegmentLoop(w, nodeId, index, subindex, SessionOf(data), 0, len, false);
      var read: nat := 0;
      var toggle := false;
      while read < len
        invariant w == socket.writeStatus && len <= data.Length
        invariant SegmentLoop(w, nodeId, index, subindex, SessionOf(data), read, len, toggle) == target
        decreases |socket.inbox|
      {
        ghost var before := SessionOf(data);
        var o := ReadSegment(index, subindex, toggle, data, read);
        if o.Panicked? {
          return Panicked;
        }
        if o.result.Err? {
          return Done(Err(o.result.error));
        }
        SegmentLoopStep(w, nodeId, index, subindex, before, SessionOf(data), read, len, toggle, o.result.value, target);
        read := read + o.result.value;
        toggle := !toggle;
      }
      return Done(Ok(len));
    }

    /** `write_object`: panics through `download` for more than four bytes. */
    method WriteObject(index: u16, subindex: u8, data: seq<u8>) returns (r: Result<(), CanOpenError>)
      requires !ExpeditedDataPanics(data)
      modifies socket`inbox, socket`sent
      ensures (r, Session(socket.inbox, socket.sent, [])) == WriteObjectSpec(socket.writeStatus, nodeId, index, subindex, data,
        Session(old(socket.inbox), old(socket.sent), []))
    {
      var written := socket.WriteFrame(DownloadWire(nodeId, index, subindex, data));
      if written.Err? {
        return Err(written.error);
      }
      var a := AwaitResponse(index, subindex, false);
      match a
      case TimedOut =>
        r := Err(SdoProtocolTimedOut);
      case Failed(e, _) =>
        r := Err(e);
      case Ended(_) =>
        r := Ok(());
      case Matched(_, _) =>
        r := Ok(());
    }
  }
}
