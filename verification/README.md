# CANopen frames, SDO transfers and the node object dictionary

This project models the core of `canopen-lib`, a Rust CANopen library, in
Dafny, and proves properties of the model. It covers:

- **Frames.** The CANopen frame: a COB-ID split into a 4-bit function code and
  a 7-bit node id, and a payload that is either unspecific bytes or an SDO
  payload. Also the conversions from and to the CAN frame of the socket
  (`Frame`, `FrameBuilder`).
- **SDO payloads.** The 8-byte SDO payload codec: command specifiers, the
  size, toggle and expedited bits, and the with-index and without-index
  payloads (`SdoPayload`). The CiA 301 abort-code table (`SdoAbort`).
- **SDO frame builders.** The expedited and segmented request and response
  builders (`SdoBuilder`).
- **SDO client.** The asynchronous client that reads and writes objects of a
  remote node (`SdoClient`). It is a class over a socket whose incoming
  frames are a sequence, a send status and a caller's byte buffer. Each
  operation is proved equal to a specification function over
  (inbox, frames sent, buffer).
- **Object dictionary.** A node's objects with their storage classes, held in
  shared value cells (`NodeObject`). The fixed-size, ordered object table,
  its builder that inserts in order, and the binary-search lookup behind the
  SDO reads and writes (`NodeDictionary`).
- **Helpers.** The payload and range parsers and the little-endian writer of
  the utilities (`Util`), and the CiA 301 data types with their
  serialisation and their parser from text (`DataTypes`).
- **The older generation** still present in the crate: the frame of
  `frame/frame.rs` (`LegacyFrame`), its SDO codec `frame/sdo.rs`
  (`LegacySdoFrame`), the server-response decoder and client of
  `canopen/sdo.rs` and `canopen/sdo_client.rs` (`LegacySdo`,
  `LegacySdoClient`), and the frame type of `lib.rs` (`LegacyLib`).

## Conventions

- **Integer widths.** Fixed-width integers are subset types of `int`
  (`u8` … `u64`) in `Bytes`. The little-endian encoding is written out there
  with its round trips.
- **Panics.** A panic that the caller's arguments decide is a precondition
  named after the panic (`ExpeditedDataPanics`, `EntryPanics`,
  `StorageObjectPanics`). A panic that incoming data decides, and a reached
  `todo!()`, is the `Panicked` outcome of `Errors.Outcome`.
- **Foreign code.** Calls into code that is not modelled are parameters: the
  digit readers and float casts of `num`, the callback of a no-storage
  object, and the socket's stream of frames.

## What the proofs show about the library

- **Segmented upload.** A segmented SDO upload never succeeds on frames the
  socket decodes (`SdoClient.SegmentedReadNeverSucceeds`).
  `TryFrom<CANFrame>` never produces a segment payload (`Frame.NeverSegment`):
  - an SdoTx segment byte is always taken by the with-index parser first;
  - the SdoRx segment parser only accepts client specifiers.

  So the segment loop of `read_object` only sees the stream run out.
- **First segment request.** The first segment request of that loop is sent
  with the toggle bit set (0x71): `read_segment` passes `false` and `build()`
  flips the toggle before building (`SdoClient.SegmentRequestsAlternate`,
  `SdoBuilder.ToggleSequenceExample`).
- **Response specifier.** `WithoutIndexFrameBuilder::upload_response` sets the
  server specifier 001. Its own test expects 000, the specifier of an upload
  segment response (`SdoBuilder.UploadResponseExample`).
- **Length and emptiness.** `Data::len` and `Data::is_empty` disagree: only
  NIL is empty, while a zero-length VOID or an empty string has length 0
  (`DataTypes.EmptyIsOnlyNil`).
- **Legacy response parser.** `SDOServerResponse::parse` never succeeds,
  because it reads 8 bytes from offset 4 of an 8-byte array
  (`LegacySdo.ParseNeverSucceeds`).
- **Legacy frame length.** The legacy frame's `Into<CANFrame>` sends all eight
  data bytes and forgets the recorded length (`LegacyFrame.EncodeDecode`).
- **Legacy initiate frames.** The legacy SDO parser reads InitiateDownload and
  InitiateUpload frames as segments (`LegacySdoFrame.InitiateIsSegmentExample`).
- **Legacy upload.** The legacy `upload_frame` reports an empty upload as
  `TooMuchData(0)` (`LegacySdoClient.UploadExamples`).
- **Identifier split in `lib.rs`.** `extract_node_and_type` accepts every
  identifier and ignores the bits above bit 10 (`LegacyLib.IgnoresHighBits`).

## Model

| member | source | states |
|---|---|---|
| DataTypes.Code | canopen-lib/src/canopen/data_type.rs:200-233 | Every type but NIL and VOID has a code in 0x01..0x1B outside the gaps 0x0E and 0x17 |
| DataTypes.TypeOfCode | canopen-lib/src/canopen/data_type.rs:200-233 | A code is refused (`InvalidDataType`) exactly when it is 0, a gap 0x0E or 0x17, or above 0x1B; an accepted code never names NIL or VOID |
| DataTypes.TypeCodeRoundTrip | canopen-lib/src/canopen/data_type.rs:200-233 | Every type other than NIL and VOID is found again under its code |
| DataTypes.CodeTypeRoundTrip | canopen-lib/src/canopen/data_type.rs:200-233 | Every accepted code is the code of the type it names, so the table is a bijection |
| DataTypes.ParseDataType | canopen-lib/src/canopen/data_type.rs:192-198 | Text the `u32` reader refuses is a `ParseIntError`; otherwise the result is the table lookup of the number read |
| DataTypes.TypeOf | canopen-lib/src/canopen/data_type.rs:83-106 | The tag is never one of the unimplemented types, and it is NIL exactly for the NIL value; the unimplemented variants panic |
| DataTypes.AsBool | canopen-lib/src/canopen/data_type.rs:108-117 | Exactly a BOOLEAN converts, to its own value; every other value is `MismatchingDataType` |
| DataTypes.AsU8 | canopen-lib/src/canopen/data_type.rs:119-128 | Only an UNSIGNED8 converts, to its own value |
| DataTypes.AsU16 | canopen-lib/src/canopen/data_type.rs:130-139 | Only an UNSIGNED16 converts, to its own value |
| DataTypes.AsU32 | canopen-lib/src/canopen/data_type.rs:141-150 | Only an UNSIGNED32 converts, to its own value |
| DataTypes.AsU64 | canopen-lib/src/canopen/data_type.rs:152-161 | Only an UNSIGNED64 converts, to its own value |
| DataTypes.Len | canopen-lib/src/canopen/data_type.rs:163-185 | 0 for NIL, 1 for a BOOLEAN, the VOID length, eight times the byte width of a number or float, and the byte count of a string or domain |
| DataTypes.EmptyIsOnlyNil | canopen-lib/src/canopen/data_type.rs:163-190 | `is_empty` holds for NIL only: a zero-length VOID and an empty string have length 0 but are not empty |
| DataTypes.IsEmpty | canopen-lib/src/canopen/data_type.rs:187-189 | An empty value is a NIL, implemented, of length 0 |
| DataTypes.BitPattern | canopen-lib/src/canopen/data_type.rs:235-265 | The bit pattern of a fixed-width value fits its width and is the two's complement of a negative integer |
| DataTypes.ToSignedPattern | canopen-lib/src/canopen/data_type.rs:279-308 | The `as iN` reinterpretation keeps the bit pattern: the two's complement of the signed result is the unsigned input |
| DataTypes.SignedFromPattern | canopen-lib/src/canopen/data_type.rs:279-308 | A signed value in range is recovered from its two's complement |
| DataTypes.Encoding | canopen-lib/src/canopen/data_type.rs:235-265 | The serialised bytes: none for NIL, one byte 1/0 for a BOOLEAN, zeros for a VOID, the bit pattern little-endian at the value's width, or the string bytes |
| DataTypes.Zeros | canopen-lib/src/canopen/data_type.rs:235-265 | `n` bytes, all zero |
| DataTypes.WriteLe | canopen-lib/src/canopen/data_type.rs:235-265 | The byte-by-byte little-endian writer appends exactly the `n`-byte little-endian encoding of the value |
| DataTypes.ToBytes | canopen-lib/src/canopen/data_type.rs:235-265 | The vector filled by the conversion is the value's serialisation, and the conversion never fails |
| DataTypes.EncodingIsBitPattern | canopen-lib/src/canopen/data_type.rs:235-265 | A number or float read back little-endian from its bytes is its bit pattern |
| DataTypes.EncodingDecodes | canopen-lib/src/canopen/data_type.rs:235-265 | Reading the bytes back gives the value: directly for unsigned numbers, through the two's complement for signed ones |
| DataTypes.EncodingExamples | canopen-lib/src/canopen/data_type.rs:235-265 | The bytes of a u16, a negative i16 and a negative i8 |
| DataTypes.EncodingFlagExamples | canopen-lib/src/canopen/data_type.rs:235-265 | A BOOLEAN is one byte 1 or 0, a VOID is zeros, NIL is nothing |
| DataTypes.NumberBase | canopen-lib/src/canopen/data_type.rs:334-351 | The radix and digits `as_num` uses: hex after "0x", octal after a leading '0' of a longer string, decimal otherwise |
| DataTypes.NumberBaseByPrefix | canopen-lib/src/canopen/data_type.rs:334-351 | The radix depends only on the first two bytes, and "0" alone is decimal |
| DataTypes.AsNum | canopen-lib/src/canopen/data_type.rs:324-351 | A string is read exactly when the radix reader accepts its digits and the value fits the type; the result is that value |
| DataTypes.NumberModulus | canopen-lib/src/canopen/data_type.rs:267-322 | Each numeric type is read through the unsigned type of its width: 2^8, 2^16, 2^32 or 2^64 values |
| DataTypes.NumberData | canopen-lib/src/canopen/data_type.rs:279-308 | The value built from the unsigned number has the requested type: the number, its signed reinterpretation, or its float cast |
| DataTypes.NumberDataEncoding | canopen-lib/src/canopen/data_type.rs:279-308 | An integer built from `n` serialises to the little-endian bytes of `n`, for signed types too |
| DataTypes.FromStr | canopen-lib/src/canopen/data_type.rs:267-322 | Text that does not panic reads to a value of exactly the requested type; a BOOLEAN is true exactly for "1" and false exactly for "0"; the three string types hold the text's bytes; REAL32/REAL64 are the float casts of the `as_num` value |
| DataTypes.FromStrEncoding | canopen-lib/src/canopen/data_type.rs:267-322 | An integer read from text serialises to the bytes of the number its digits denote |
| DataTypes.FromStrStringEncoding | canopen-lib/src/canopen/data_type.rs:309-318 | An OCTETSTRING, VISIBLESTRING or UNICODESTRING read from text serialises back to the text's bytes |
| DataTypes.IntegerFromStrExample | canopen-lib/src/canopen/data_type.rs:291-293 | "0xff" read as INTEGER8 is -1 |
| DataTypes.FromStrExamples | canopen-lib/src/canopen/data_type.rs:267-314 | A BOOLEAN is read from "1" and "0" only, and a VISIBLESTRING with a control byte panics |
| Frame.FrameTypeValue | canopen-lib/src/frame/mod.rs:48-64 | Each function code is a 4-bit value other than 13 and 15 |
| Frame.FrameTypeFromU8 | canopen-lib/src/frame/mod.rs:48-64 | A byte names a frame type exactly when it is a declared code, and that type has the byte as its value |
| Frame.FrameTypeRoundTrip | canopen-lib/src/frame/mod.rs:48-64 | Every frame type is recovered from its value |
| Frame.CobId | canopen-lib/src/frame/mod.rs:173-176 | The low 7 bits of the COB-ID are the node id, and the bits above them are the function code |
| Frame.ExtractFrameTypeAndNodeId | canopen-lib/src/frame/mod.rs:260-273 | A COB-ID is refused exactly when it is above 0x77F or its code is 13; otherwise the node id is the low 7 bits and the code is the bits above them |
| Frame.ExtractThenCobId | canopen-lib/src/frame/mod.rs:173-176 | Every accepted COB-ID is rebuilt by `cob_id` from its split |
| Frame.CobIdThenExtract | canopen-lib/src/frame/mod.rs:260-273 | A node id below 128 and a frame type are recovered from the COB-ID they make |
| Frame.ExtractExamples | canopen-lib/src/frame/mod.rs:276-300 | The accepted and refused COB-IDs of the tests |
| Frame.PadTo8 | canopen-lib/src/frame/mod.rs:211-212 | The received bytes at the front of a zeroed 8-byte array |
| Frame.TryFromCanFrame | canopen-lib/src/frame/mod.rs:199-258 | The COB-ID is checked first, then the length (`InvalidDataLength` above 8); an accepted frame rebuilds the received COB-ID and keeps the remote flag |
| Frame.UnspecificClassification | canopen-lib/src/frame/mod.rs:239-248 | Non-SDO frames, and SDO frames not 8 bytes long, carry their bytes unspecific, with their length |
| Frame.SdoTxClassification | canopen-lib/src/frame/mod.rs:215-224 | An 8-byte SdoTx frame is a with-index payload exactly for server specifiers 000..100, and unspecific otherwise |
| Frame.SdoRxClassification | canopen-lib/src/frame/mod.rs:226-235 | An 8-byte SdoRx frame is a with-index payload exactly for client specifiers 001, 010 and 011, and unspecific otherwise |
| Frame.NeverSegment | canopen-lib/src/frame/mod.rs:199-258 | No received CAN frame decodes to a without-index (segment) payload |
| Frame.IntoCanFrame | canopen-lib/src/frame/mod.rs:180-197 | The CAN frame has the COB-ID and remote flag, and carries the unspecific bytes up to their length or the encoded 8-byte SDO payload |
| Frame.DecodeEncodeUnspecific | canopen-lib/src/frame/mod.rs:180-258 | Re-encoding a frame decoded as unspecific gives back the received CAN frame |
| Frame.EncodeDecodeSdoTx | canopen-lib/src/frame/mod.rs:180-258 | A server frame with an accepted with-index payload survives encoding and decoding |
| Frame.EncodeDecodeSdoRx | canopen-lib/src/frame/mod.rs:180-258 | A client frame with an accepted with-index payload survives encoding and decoding |
| FrameBuilder.SdoRequest | canopen-lib/src/frame/builder.rs:10-18 | A node id up to 0x7F gives an SdoRx builder for that node; a larger one is `InvalidNodeId` |
| FrameBuilder.SdoResponse | canopen-lib/src/frame/builder.rs:20-28 | A node id up to 0x7F gives an SdoTx builder for that node; a larger one is `InvalidNodeId` |
| FrameBuilder.SetRtr | canopen-lib/src/frame/builder.rs:56-59 | The builder's remote flag is the argument |
| FrameBuilder.Pdo | canopen-lib/src/frame/builder.rs:30-54 | A COB-ID is accepted exactly when it splits and its code is one of the eight PDO codes; the builder starts empty |
| FrameBuilder.SetPayload | canopen-lib/src/frame/builder.rs:76-87 | Up to 8 bytes overwrite the front of the buffer and set the length; the rest of the buffer is kept; more is `InvalidDataLength` |
| FrameBuilder.BuildUnspecific | canopen-lib/src/frame/builder.rs:88-99 | The built frame is for the builder's node and type; it can be sent exactly when the length is at most 8, and then carries the first `length` bytes at the builder's COB-ID with its remote flag |
| FrameBuilder.PdoWire | canopen-lib/src/frame/builder.rs:30-99 | A built PDO is sent at the requested COB-ID with exactly the payload and the remote flag |
| FrameBuilder.PdoRoundTrip | canopen-lib/src/frame/builder.rs:30-99 | Decoding the sent PDO frame gives back the built frame |
| FrameBuilder.PdoExample | canopen-lib/src/frame/builder.rs:180-184 | `pdo(0x1ef)` is accepted as Tpdo1 for node 0x6F |
| FrameBuilder.AbortResponseExample | canopen-lib/src/frame/sdo/builder.rs:377-391 | The abort of node 1 for 0x1122/0x33 is `80 22 11 33 03 00 04 05` at 0x581 |
| FrameBuilder.DownloadOneByteExample | canopen-lib/src/frame/sdo/builder.rs:392-406 | A one-byte download to node 1 is `2F 22 11 33 44 00 00 00` at 0x601 |
| FrameBuilder.DownloadFourBytesExample | canopen-lib/src/frame/sdo/builder.rs:422-436 | A four-byte download to node 1 is `23 22 11 33 44 55 66 77` at 0x601 |
| FrameBuilder.DownloadThreeBytesExample | canopen-lib/src/frame/sdo/builder.rs:600-648 | A three-byte `download` to node 1 is `27 22 11 33 44 55 66 00` at 0x601 |
| FrameBuilder.UploadThreeBytesExample | canopen-lib/src/frame/sdo/builder.rs:498-510 | A three-byte upload response of 0x77665544 from node 1 is `47 22 11 33 44 55 66 00` at 0x581, the top byte masked off |
| FrameBuilder.ThreeBytePacking | canopen-lib/src/frame/sdo/builder.rs:214-250 | Three bytes pack into 0x665544 with size ThreeBytes |
| SdoAbort.FromU32 | canopen-lib/src/frame/sdo/mod.rs:236-271 | A code is unknown exactly when it is not one of the 29 table codes, and an unknown code keeps its value |
| SdoAbort.IntoU32AsWritten | canopen-lib/src/frame/sdo/mod.rs:274-309 | The as-written encoder agrees with the table except for ReadWriteOnlyError, which it sends as 0x0601_0000 |
| SdoAbort.IntoU32 | canopen-lib/src/frame/sdo/mod.rs:274-309 | The corrected encoder: the decoder reads every value it produces back from its code (ReadWriteOnlyError sent as 0x0601_0001) |
| SdoAbort.IntoFromU32 | canopen-lib/src/frame/sdo/mod.rs:236-309 | With the corrected encoder, encoding after decoding gives back every 32-bit code |
| SdoAbort.FromIntoU32 | canopen-lib/src/frame/sdo/mod.rs:236-309 | With the corrected encoder, decoding after encoding gives back every value the decoder produces |
| SdoAbort.AbortReadBack | canopen-lib/src/frame/sdo/mod.rs:236-309 | A code sent by the as-written `Into<u32>` decodes to itself, except ReadWriteOnlyError, which decodes to UnsupportedAccess |
| SdoAbort.AsWrittenRoundTrip | canopen-lib/src/frame/sdo/mod.rs:236-309 | The as-written encoder breaks the round trip at 0x0601_0001 and nowhere else |
| SdoAbort.ReadWriteOnlyErrorMisencoded | canopen-lib/src/frame/sdo/mod.rs:247-285 | ReadWriteOnlyError is decoded from 0x0601_0001 and encoded as 0x0601_0000, which decodes to UnsupportedAccess |
| SdoPayload.CsBits | canopen-lib/src/frame/sdo/mod.rs:69-137 | The specifier bits 5-7 kept in place: a multiple of 32 |
| SdoPayload.CsValue | canopen-lib/src/frame/sdo/mod.rs:156-163 | A specifier's byte has only bits 5-7 set |
| SdoPayload.CcsFromU8 | canopen-lib/src/frame/sdo/mod.rs:69-88 | Bits 5-7 decide: the specifier whose value they are, and Unspecified exactly for 100 and 111 |
| SdoPayload.ScsFromU8 | canopen-lib/src/frame/sdo/mod.rs:116-137 | Bits 5-7 decide: the specifier whose value they are, and Unspecified exactly for 111 |
| SdoPayload.CcsRoundTrip | canopen-lib/src/frame/sdo/mod.rs:50-88 | Every client specifier is decoded from its value plus any low five bits |
| SdoPayload.ScsRoundTrip | canopen-lib/src/frame/sdo/mod.rs:95-137 | Every server specifier is decoded from its value plus any low five bits |
| SdoPayload.SizeBits | canopen-lib/src/frame/sdo/mod.rs:311-327 | Bits 0, 2 and 3 kept in place, a value below 16 |
| SdoPayload.SizeFromU8 | canopen-lib/src/frame/sdo/mod.rs:311-327 | NotSet exactly when bit 0 is clear; otherwise the size whose value is bits 0, 2 and 3 |
| SdoPayload.ExtractLength | canopen-lib/src/frame/sdo/mod.rs:643-651 | At most 4: 0 exactly for NotSet, otherwise 4 less the unused-byte count of bits 2-3 |
| SdoPayload.SizeRoundTrip | canopen-lib/src/frame/sdo/mod.rs:311-327 | Every size is decoded from its value, whatever the specifier, toggle and expedited bits |
| SdoPayload.CommandByteFields | canopen-lib/src/frame/sdo/mod.rs:412-433 | A command byte assembled from specifier, toggle, size and expedited bit reads each of them back |
| SdoPayload.LengthOfEmptyBytes | canopen-lib/src/frame/sdo/mod.rs:424-433 | A count is given exactly when bit 0 is set, and it is bits 1-3 |
| SdoPayload.IsSizeFlagSet | canopen-lib/src/frame/sdo/mod.rs:412-416 | Bit 0 of the command byte; its mask form is stated by `SdoPayload.FlagMasks` |
| SdoPayload.IsToggleFlagSet | canopen-lib/src/frame/sdo/mod.rs:418-422 | Bit 4 of the command byte; its mask form is stated by `SdoPayload.FlagMasks` |
| SdoPayload.IsExpeditedFlagSet | canopen-lib/src/frame/sdo/mod.rs:449 | Bit 1 of the command byte; its mask form is stated by `SdoPayload.FlagMasks` |
| SdoPayload.FlagMasks | canopen-lib/src/frame/sdo/mod.rs:412-422 | The size, toggle and expedited flags are the source's mask tests `& 0x01`, `& 0x10` and `& 0x02` |
| SdoPayload.ParseServerWithIndex | canopen-lib/src/frame/sdo/mod.rs:437-461 | Accepted exactly for server specifiers 000..100, with the specifier of bits 5-7; anything else is `SdoPayloadParseError` |
| SdoPayload.ParseClientWithIndex | canopen-lib/src/frame/sdo/mod.rs:462-487 | Accepted exactly for client specifiers 001, 010 and 011; 101 and 110 are `SdoPayloadNotImplementedYet`; 000, 100 and 111 are `SdoPayloadParseError` |
| SdoPayload.EncodeWithIndex | canopen-lib/src/frame/sdo/mod.rs:491-519 | Byte 0 carries the specifier, size and expedited bit with the toggle clear; bytes 1-7 read back as the index, subindex and data, little-endian |
| SdoPayload.ServerWithIndexRoundTrip | canopen-lib/src/frame/sdo/mod.rs:437-519 | Parsing an encoded server payload gives it back |
| SdoPayload.ClientWithIndexRoundTrip | canopen-lib/src/frame/sdo/mod.rs:462-519 | Parsing an encoded client payload gives it back |
| SdoPayload.IndexCommandByteReencode | canopen-lib/src/frame/sdo/mod.rs:437-519 | The command byte rebuilt from its decoded fields equals the byte exactly when it carries no ignored bit |
| SdoPayload.FieldsReencode | canopen-lib/src/frame/sdo/mod.rs:437-519 | Re-encoding decoded fields reproduces bytes 1-7, and byte 0 exactly when it is canonical |
| SdoPayload.WithIndexReencode | canopen-lib/src/frame/sdo/mod.rs:437-519 | Re-encoding what was parsed reproduces the 8 bytes exactly when byte 0 carries no ignored bit |
| SdoPayload.EncodeWithIndexBytes | canopen-lib/src/frame/sdo/mod.rs:491-519 | The encoding byte by byte, given the command byte and the little-endian fields |
| SdoPayload.WithIndexEncodeExamples | canopen-lib/src/frame/sdo/mod.rs:692-723 | The encoder's own examples: command bytes 0xCD and 0x03 followed by the fields |
| SdoPayload.ParseServerWithoutIndex | canopen-lib/src/frame/sdo/mod.rs:544-563 | Accepted exactly for specifier bits 010, as a server Upload carrying bytes 1-7 |
| SdoPayload.ParseClientWithoutIndex | canopen-lib/src/frame/sdo/mod.rs:564-590 | Accepted exactly for specifier bits 011, as a client UploadSegment carrying bytes 1-7 |
| SdoPayload.EmptyBytesBits | canopen-lib/src/frame/sdo/mod.rs:594-624 | The size part of the command byte, below 16 |
| SdoPayload.EncodeWithoutIndex | canopen-lib/src/frame/sdo/mod.rs:594-624 | Byte 0 carries the specifier, the toggle, the size flag exactly when a count is given and the count modulo 8; bytes 1-7 are the raw bytes |
| SdoPayload.ServerWithoutIndexRoundTrip | canopen-lib/src/frame/sdo/mod.rs:544-624 | A server segment whose count fits three bits is parsed back from its encoding |
| SdoPayload.ClientWithoutIndexRoundTrip | canopen-lib/src/frame/sdo/mod.rs:564-624 | A client segment whose count fits three bits is parsed back from its encoding |
| SdoPayload.EmptyCountTruncated | canopen-lib/src/frame/sdo/mod.rs:594-624 | An oversized count loses its high bits: Some(9) comes back as Some(1) |
| SdoPayload.SegmentCommandByteReencode | canopen-lib/src/frame/sdo/mod.rs:544-624 | The segment command byte is rebuilt from its fields unless bits 1-3 were set without bit 0 |
| SdoPayload.WithoutIndexReencode | canopen-lib/src/frame/sdo/mod.rs:544-624 | A parsed segment re-encodes to its bytes unless bits 1-3 were set without the size bit |
| SdoBuilder.UnspecifiedFor | canopen-lib/src/frame/sdo/builder.rs:63-92 | A fresh builder's specifier is client-side on SdoRx and server-side otherwise |
| SdoBuilder.WithIndex | canopen-lib/src/frame/sdo/builder.rs:63-78 | A builder for the node, direction and object, with the Unspecified specifier of its direction, nothing announced, not expedited and zero data |
| SdoBuilder.Build | canopen-lib/src/frame/sdo/builder.rs:109-124 | A sendable data frame for the builder's node and direction whose with-index payload carries its object, data and announced length |
| SdoBuilder.Expedited | canopen-lib/src/frame/sdo/builder.rs:125-213 | Every expedited setter keeps the node, direction and object, and sets the expedited flag |
| SdoBuilder.Abort | canopen-lib/src/frame/sdo/builder.rs:125-133 | Same target, no size announced, not expedited, the code as `Into<u32>` encodes it as data (so ReadWriteOnlyError as 0x0601_0000) |
| SdoBuilder.DownloadOneByte | canopen-lib/src/frame/sdo/builder.rs:134-141 | Same target, expedited, announcing one byte, the byte as data |
| SdoBuilder.DownloadTwoBytes | canopen-lib/src/frame/sdo/builder.rs:142-149 | Same target, expedited, announcing two bytes, the value as data |
| SdoBuilder.DownloadFourBytes | canopen-lib/src/frame/sdo/builder.rs:150-157 | Same target, expedited, announcing four bytes, the value as data |
| SdoBuilder.DownloadResponseFrame | canopen-lib/src/frame/sdo/builder.rs:158-165 | Same target, no size announced, not expedited, zero data |
| SdoBuilder.UploadRequestFrame | canopen-lib/src/frame/sdo/builder.rs:166-173 | Same target, no size announced, not expedited, zero data |
| SdoBuilder.UploadOneByteExpeditedResponse | canopen-lib/src/frame/sdo/builder.rs:174-181 | Same target, expedited, announcing one byte, the byte as data |
| SdoBuilder.UploadTwoBytesExpeditedResponse | canopen-lib/src/frame/sdo/builder.rs:182-189 | Same target, expedited, announcing two bytes, the value as data |
| SdoBuilder.UploadThreeBytesExpeditedResponse | canopen-lib/src/frame/sdo/builder.rs:190-197 | Same target, expedited, announcing three bytes, with the value masked to its low 24 bits (`& 0x00ffffff`) as data |
| SdoBuilder.UploadFourBytesExpeditedResponse | canopen-lib/src/frame/sdo/builder.rs:198-205 | Same target, expedited, announcing four bytes, the value as data |
| SdoBuilder.UploadSegmentedResponse | canopen-lib/src/frame/sdo/builder.rs:206-213 | Same target, not expedited, `length` as data |
| SdoBuilder.SizeFor | canopen-lib/src/frame/sdo/builder.rs:214-286 | The size whose announced length is `n`, for 0 to 4 bytes |
| SdoBuilder.PackedFits | canopen-lib/src/frame/sdo/builder.rs:214-250 | Up to four bytes read little-endian fit a `u32` |
| SdoBuilder.FromLeAppendZero | canopen-lib/src/frame/sdo/builder.rs:214-250 | A trailing zero does not change a little-endian value |
| SdoBuilder.Download | canopen-lib/src/frame/sdo/builder.rs:214-250 | Expedited InitiateDownload of 0 to 4 bytes packed little-endian, with the size announcing their number |
| SdoBuilder.UploadExpeditedResponse | canopen-lib/src/frame/sdo/builder.rs:251-286 | The same packing with the InitiateUpload specifier |
| SdoBuilder.PackedPrefix | canopen-lib/src/frame/sdo/builder.rs:214-286 | The first `n` data bytes sent are the packed bytes |
| SdoBuilder.LeBytesSplit | canopen-lib/src/frame/sdo/builder.rs:214-286 | The low `n` bytes of a 4-byte encoding are the `n`-byte encoding |
| SdoBuilder.WireLayout | canopen-lib/src/frame/sdo/builder.rs:109-124 | A built frame is a non-remote frame at the builder's COB-ID, laid out as the with-index payload |
| SdoBuilder.WireBytes | canopen-lib/src/frame/sdo/builder.rs:109-124 | The wire frame byte by byte, given the command byte and the little-endian fields |
| SdoBuilder.AbortWireBytes | canopen-lib/src/frame/sdo/builder.rs:125-133 | An abort frame starts 0x80 and carries its data little-endian in bytes 4-7 |
| SdoBuilder.AbortWire | canopen-lib/src/frame/sdo/builder.rs:125-133 | An abort frame starts 0x80 and carries the as-written encoding; the decoder reads back every code it produces except ReadWriteOnlyError, which it reads as UnsupportedAccess |
| SdoBuilder.WireFirstByte | canopen-lib/src/frame/sdo/builder.rs:109-124 | The first byte sent is the payload's command byte |
| SdoBuilder.DownloadFixedCommandBytes | canopen-lib/src/frame/sdo/builder.rs:134-157 | The fixed-width downloads send 0x2F, 0x2B and 0x23 |
| SdoBuilder.UploadFixedCommandBytes | canopen-lib/src/frame/sdo/builder.rs:174-213 | The fixed-width upload responses send 0x4F, 0x4B, 0x47 and 0x43, and a segmented one 0x41 |
| SdoBuilder.NoDataCommandBytes | canopen-lib/src/frame/sdo/builder.rs:158-173 | A download response sends 0x60 and an upload request 0x40, with zero data |
| SdoBuilder.ThreeByteResponseMasked | canopen-lib/src/frame/sdo/builder.rs:190-197 | The data fit three bytes, and equal the value exactly when it fits |
| SdoBuilder.ThreeByteResponseBytes | canopen-lib/src/frame/sdo/builder.rs:190-197 | The data bytes sent are the value's low three bytes followed by a zero byte, whatever its top byte |
| SdoBuilder.ExpeditedDataCommandBytes | canopen-lib/src/frame/sdo/builder.rs:214-286 | `download` sends 0x22/0x2F/0x2B/0x27/0x23 and `upload_expedited_response` 0x42/0x4F/0x4B/0x47/0x43 for 0-4 bytes |
| SdoBuilder.DownloadParsed | canopen-lib/src/frame/sdo/builder.rs:214-250 | The client-side parser reads the downloaded bytes back in the bytes their size announces |
| SdoBuilder.EmptyCount | canopen-lib/src/frame/sdo/builder.rs:325-362 | `7 - len` unused bytes for a segment shorter than 7, none announced otherwise |
| SdoBuilder.SegmentBytes | canopen-lib/src/frame/sdo/builder.rs:325-362 | The 7 segment bytes: the first min(len, 7) input bytes, then zeros |
| SdoBuilder.WithoutIndexFrameBuilder.constructor | canopen-lib/src/frame/sdo/builder.rs:79-92 | A segment builder for the node and direction, its toggle set so that the first build sends it clear |
| SdoBuilder.WithoutIndexFrameBuilder.Build | canopen-lib/src/frame/sdo/builder.rs:302-316 | Flips the toggle, then builds a non-remote frame of the flipped fields |
| SdoBuilder.WithoutIndexFrameBuilder.SetToggle | canopen-lib/src/frame/sdo/builder.rs:290-298 | Only the toggle changes |
| SdoBuilder.WithoutIndexFrameBuilder.UploadRequest | canopen-lib/src/frame/sdo/builder.rs:317-324 | Client UploadSegment with zero unused bytes announced and zero data |
| SdoBuilder.WithoutIndexFrameBuilder.UploadResponse | canopen-lib/src/frame/sdo/builder.rs:325-343 | Server specifier 001 and the segment bytes of the input |
| SdoBuilder.WithoutIndexFrameBuilder.DownloadRequest | canopen-lib/src/frame/sdo/builder.rs:344-362 | Client DownloadSegment and the segment bytes of the input |
| SdoBuilder.WithoutIndexFrameBuilder.DownloadResponseSegment | canopen-lib/src/frame/sdo/builder.rs:363-370 | Server DownloadResponse, zero unused bytes, zero data |
| SdoBuilder.WithoutIndexFrameBuilder.Fill | canopen-lib/src/frame/sdo/builder.rs:325-362 | After the copy loop the seven segment bytes are the first input bytes, then zeros |
| SdoBuilder.SegmentWire | canopen-lib/src/frame/sdo/builder.rs:302-316 | A segment frame is its command byte followed by the seven segment bytes |
| SdoBuilder.UploadRequestSegmentWire | canopen-lib/src/frame/sdo/builder.rs:317-324 | An upload-request segment is 0x61, or 0x71 with the toggle set, followed by seven zeros |
| SdoBuilder.ToggleSequenceExample | canopen-lib/src/frame/sdo/builder.rs:658-682 | Three builds of an upload request to node 1 send 0x61, 0x71, 0x61 at 0x601 |
| SdoBuilder.UploadResponseSegmentWire | canopen-lib/src/frame/sdo/builder.rs:325-343 | An `upload_response` segment is sent as 0x20 plus the toggle bit and the empty-byte bits, then its seven bytes |
| SdoBuilder.SendUploadResponse | canopen-lib/src/frame/sdo/builder.rs:302-343 | `upload_response(src).build()` flips the toggle and sends the segment with the new toggle |
| SdoBuilder.UploadResponseExample | canopen-lib/src/frame/sdo/builder.rs:683-707 | Segments of 7, 9 and 4 bytes are sent as 0x20, 0x30 and 0x27 |
| SdoClient.Send | canopen-lib/src/sdo_client.rs:129-133 | A successful write appends exactly the frame to those sent; a failed one sends nothing and reports the error |
| SdoClient.Await | canopen-lib/src/sdo_client.rs:138-141 | The wait skips irrelevant frames and stops at the first relevant one, a decode error or the end of the stream |
| SdoClient.AwaitStopsAtFirst | canopen-lib/src/sdo_client.rs:138-141 | Everything before the item the wait stops at is skipped, and a timeout means every remaining item was skipped |
| SdoClient.SegmentRequestWireBuilt | canopen-lib/src/sdo_client.rs:204-208 | The segment request is the frame the segment builder makes for the client's node |
| SdoClient.ExpeditedFill | canopen-lib/src/sdo_client.rs:152-159 | The buffer's first `len` bytes become the value's little-endian bytes; the rest is unchanged |
| SdoClient.SegmentFill | canopen-lib/src/sdo_client.rs:237-243 | The segment is copied in at the offset; the rest is unchanged |
| SdoClient.IndexedResponse | canopen-lib/src/sdo_client.rs:138-175 | An abort gives its code, an expedited response fills the buffer and gives its length, a segmented one gives the announced length or `StringIsTooLong` |
| SdoClient.ReadIndexedSpec | canopen-lib/src/sdo_client.rs:117-193 | The upload request is sent first, then the first matching response decides; an exhausted stream is `SdoProtocolTimedOut` |
| SdoClient.SegmentResponse | canopen-lib/src/sdo_client.rs:217-247 | An abort gives its code; a segment is copied in at the offset and gives its length, or panics when it does not fit |
| SdoClient.ReadSegmentSpec | canopen-lib/src/sdo_client.rs:194-265 | One segment request for the toggle argument, then the first matching response decides |
| SdoClient.ReadSegmentSends | canopen-lib/src/sdo_client.rs:194-215 | Every segment read sends exactly one request for its toggle argument, unless the write fails |
| SdoClient.SegmentLoop | canopen-lib/src/sdo_client.rs:99-111 | Segments are read until `len` bytes were read, the toggle flipping after each; an error or panic ends the loop |
| SdoClient.SegmentLoopAfter | canopen-lib/src/sdo_client.rs:99-111 | After a step the loop stops at a panic or an error and otherwise continues with the toggle flipped |
| SdoClient.SegmentLoopStep | canopen-lib/src/sdo_client.rs:99-111 | A step that neither failed nor panicked continues from the new session with the toggle flipped |
| SdoClient.ReadObjectSpec | canopen-lib/src/sdo_client.rs:88-116 | An indexed read, followed by the segment loop while the announced length exceeds 4 |
| SdoClient.WriteObjectSpec | canopen-lib/src/sdo_client.rs:306-349 | The expedited download is sent, then the first matching response ends the wait with `Ok` whatever it says |
| SdoClient.WriteObjectReportingAbort | canopen-lib/src/sdo_client.rs:280-305 | The documented `write_object`: an abort response is reported as its code |
| SdoClient.Decoded | canopen-lib/src/sdo_client.rs:138-139 | The stream holds each received CAN frame decoded by `try_from` |
| SdoClient.DecodedHasNoSegments | canopen-lib/src/sdo_client.rs:138-139 | A stream of decoded frames holds no segment frame |
| SdoClient.NoSegmentsDrop | canopen-lib/src/sdo_client.rs:217-218 | What remains of a segment-free stream is segment-free |
| SdoClient.SegmentLoopFailsWithoutSegments | canopen-lib/src/sdo_client.rs:99-111 | Without segment frames the loop never completes: it ends in an error |
| SdoClient.SegmentedReadNeverSucceeds | canopen-lib/src/sdo_client.rs:88-116 | On decoded frames `read_object` never returns more than 4 bytes: a segmented transfer always ends in an error |
| SdoClient.UploadRequestDecoded | canopen-lib/src/sdo_client.rs:123-129 | The upload request decodes, on the server side, to a client upload of the object |
| SdoClient.ExpeditedResponseDecoded | canopen-lib/src/sdo_client.rs:138-160 | An expedited upload response decodes to a server Upload frame for the object |
| SdoClient.ExpeditedUploadDelivered | canopen-lib/src/sdo_client.rs:88-175 | An expedited upload of up to 4 bytes returns their number, and the buffer starts with them |
| SdoClient.AbortMatched | canopen-lib/src/sdo_client.rs:138-147 | A server's abort frame is the first frame the wait accepts |
| SdoClient.AbortDelivered | canopen-lib/src/sdo_client.rs:138-150 | A server abort reaches the caller of `read_object` as the code the decoder reads: the server's own code, except ReadWriteOnlyError, which arrives as UnsupportedAccess |
| SdoClient.ReadWriteOnlyAbortMisreported | canopen-lib/src/frame/sdo/builder.rs:125-133 | A server's ReadWriteOnlyError abort reaches `read_object` as UnsupportedAccess |
| SdoClient.AnnouncedLengthChecked | canopen-lib/src/sdo_client.rs:160-170 | A segmented upload's announced length is accepted when the buffer holds it and is `StringIsTooLong` otherwise |
| SdoClient.WriteObjectIgnoresAbort | canopen-lib/src/sdo_client.rs:325-336 | As written, a download the server aborts ends in `Ok` |
| SdoClient.WriteObjectReportsAbort | canopen-lib/src/sdo_client.rs:280-305 | With aborts reported, the same download ends in the server's code, except that ReadWriteOnlyError arrives as UnsupportedAccess |
| SdoClient.SegmentRequestsAlternate | canopen-lib/src/sdo_client.rs:99-111 | The loop sends segment requests whose toggle arguments alternate, the first one clear, so the first sent byte is 0x71 |
| SdoClient.AlternatingNone | canopen-lib/src/sdo_client.rs:99-111 | No requests alternate trivially |
| SdoClient.AlternatingShift | canopen-lib/src/sdo_client.rs:99-111 | One request with a toggle, then requests alternating from its negation, alternate from that toggle |
| SdoClient.BuiltSegmentCopied | canopen-lib/src/sdo_client.rs:237-243 | A segment built from up to 7 bytes is copied back in full |
| SdoClient.CanSocket.constructor | canopen-lib/src/sdo_client.rs:16-19 | The socket starts with the given inbox, nothing written |
| SdoClient.CanSocket.WriteFrame | canopen-lib/src/sdo_client.rs:129-133 | The sent frames become `Send` of the old ones |
| SdoClient.CanSocket.Next | canopen-lib/src/sdo_client.rs:138 | Takes the first inbox item, or nothing once the inbox is empty |
| SdoClient.SdoClient.constructor | canopen-lib/src/sdo_client.rs:35-45 | A client for a node id up to 0x7F over the socket |
| SdoClient.SdoClient.AwaitResponse | canopen-lib/src/sdo_client.rs:138-141 | The loop's result is `Await` of the old inbox, the inbox left is what remains after it, and nothing is sent |
| SdoClient.SdoClient.ReadIndexed | canopen-lib/src/sdo_client.rs:117-193 | Result and new (inbox, sent, buffer) are `ReadIndexedSpec` of the old state |
| SdoClient.SdoClient.FillExpedited | canopen-lib/src/sdo_client.rs:152-159 | The buffer becomes `ExpeditedFill` of the old buffer |
| SdoClient.SdoClient.CopySegment | canopen-lib/src/sdo_client.rs:237-243 | The buffer becomes `SegmentFill` of the old buffer |
| SdoClient.SdoClient.SegmentRequest | canopen-lib/src/sdo_client.rs:200-208 | The request frame is `SegmentRequestWire` for the toggle |
| SdoClient.SdoClient.ReadSegment | canopen-lib/src/sdo_client.rs:194-265 | Result and new state are `ReadSegmentSpec` of the old state |
| SdoClient.SdoClient.ReadObject | canopen-lib/src/sdo_client.rs:88-116 | Result and new state are `ReadObjectSpec` of the old state |
| SdoClient.SdoClient.ReadSegments | canopen-lib/src/sdo_client.rs:99-111 | Result and new state are `SegmentLoop` of the old state, the toggle starting clear |
| SdoClient.SdoClient.WriteObject | canopen-lib/src/sdo_client.rs:306-349 | Result and new state are `WriteObjectSpec` of the old state |
| NodeObject.ValueCell.constructor | canopen-lib/src/node/object.rs:39-44 | A fresh cell holding the value |
| NodeObject.MapIndexOrder | canopen-lib/src/node/object.rs:170-174 | Addresses compare as (index, subindex) pairs compare lexicographically, and equal addresses mean equal pairs |
| NodeObject.ConstObject | canopen-lib/src/node/object.rs:62-68 | A read-only object at the address of (index, subindex) that reads back as the value |
| NodeObject.StorageObjectGuardInverted | canopen-lib/src/node/object.rs:70-94 | As written, a numeric variable object panics and a string one does not |
| NodeObject.VariableObject | canopen-lib/src/node/object.rs:70-80 | With the intended guard: a read-write object whose value is in a fresh cell |
| NodeObject.PersistentObject | canopen-lib/src/node/object.rs:81-95 | With the intended guard: a persistent read-write object whose value is in a fresh cell |
| NodeObject.NoStorageObject | canopen-lib/src/node/object.rs:96-119 | A write-only object at the address; reading it is `ReadAccessImpossible` |
| NodeObject.GetValue | canopen-lib/src/node/object.rs:145-158 | Fails exactly for a no-storage object, with `ReadAccessImpossible` |
| NodeObject.SetValueResult | canopen-lib/src/node/object.rs:120-144 | A constant refuses the write; a value of another variant is refused; otherwise `Ok(true)` exactly when the value differs; a no-storage object succeeds exactly when its handler does |
| NodeObject.SetValue | canopen-lib/src/node/object.rs:120-144 | Returns `SetValueResult`; only the object's cell changes, and a successful write reads back as the written value |
| NodeObject.PartialCmp | canopen-lib/src/node/object.rs:164-174 | Objects order as their addresses and are equal exactly when their addresses are |
| NodeObject.Equal | canopen-lib/src/node/object.rs:164-168 | Two objects are equal exactly when their index and subindex parts of the address agree, whatever they hold |
| NodeObject.PartialCmpAntisymmetric | canopen-lib/src/node/object.rs:170-174 | Swapping the operands swaps Less and Greater |
| NodeObject.ConstObjectsCompareByAddress | canopen-lib/src/node/object.rs:164-174 | Constant objects compare by (index, subindex), ignoring their values |
| NodeObject.ComparisonExamples | canopen-lib/src/node/object.rs:187-205 | The comparisons of the object tests |
| NodeObject.DefaultObject | canopen-lib/src/node/object.rs:176-180 | A read-only object at address (0, 0), equal to any object there, reading U8(0) |
| NodeDictionary.Find | canopen-lib/src/node/object_dictionary.rs:195-221 | The first slot holding the address, or none when no slot does |
| NodeDictionary.FindOrdered | canopen-lib/src/node/object_dictionary.rs:195-221 | In an ordered table every slot holding the address is the one `Find` returns |
| NodeDictionary.InsertPosition | canopen-lib/src/node/object_dictionary.rs:99-110 | The insertion point has every smaller address before it and only larger ones after |
| NodeDictionary.InsertedAt | canopen-lib/src/node/object_dictionary.rs:112-120 | Slots before the point keep their object, the new one is at the point, later ones moved up one |
| NodeDictionary.InsertedOrdered | canopen-lib/src/node/object_dictionary.rs:96-123 | Inserting a new address into an ordered table keeps it ordered |
| NodeDictionary.InsertedContents | canopen-lib/src/node/object_dictionary.rs:96-123 | An insertion loses no object and adds exactly the new one |
| NodeDictionary.InsertAllOrdered | canopen-lib/src/node/object_dictionary.rs:96-123 | A chain of insertions that does not panic keeps the table ordered, one object more per call, never above the slot count |
| NodeDictionary.SeedEntries | canopen-lib/src/node/object_dictionary.rs:65-80 | Device type, error register 0 and vendor id at 0x1000/1, 0x1001/1 and 0x1018/1, in address order |
| NodeDictionary.DuplicateEntryPanics | canopen-lib/src/node/object_dictionary.rs:437-445 | Registering the device type a second time panics |
| NodeDictionary.Subindex13Objects | canopen-lib/src/node/object_dictionary.rs:449-460 | n objects, the i-th at address (i, 13) |
| NodeDictionary.FullDictionaryPanics | canopen-lib/src/node/object_dictionary.rs:449-460 | Adding 256 more objects to a new builder panics |
| NodeDictionary.InsertedRegistered | canopen-lib/src/node/object_dictionary.rs:96-123 | After an insertion the registered addresses are the old ones and the new one |
| NodeDictionary.OrderingExample | canopen-lib/src/node/object_dictionary.rs:402-435 | The test's insertions at the end, just before it and in the middle keep the table ordered |
| NodeDictionary.ObjectDictionaryBuilder.constructor | canopen-lib/src/node/object_dictionary.rs:65-80 | The seed objects in slots 0-2, the default object in every other slot |
| NodeDictionary.ObjectDictionaryBuilder.CustomEntry | canopen-lib/src/node/object_dictionary.rs:96-123 | The entries become `Inserted` of the old ones; the table stays ordered |
| NodeDictionary.ObjectDictionaryBuilder.ShiftUp | canopen-lib/src/node/object_dictionary.rs:112-115 | Slots from..n-1 move one slot up, and every other slot is unchanged |
| NodeDictionary.ObjectDictionaryBuilder.DeviceName | canopen-lib/src/node/object_dictionary.rs:125-133 | Inserts a constant string at 0x1008/1 |
| NodeDictionary.ObjectDictionaryBuilder.HardwareVersion | canopen-lib/src/node/object_dictionary.rs:134-142 | Inserts a constant string at 0x1009/1 |
| NodeDictionary.ObjectDictionaryBuilder.SoftwareVersion | canopen-lib/src/node/object_dictionary.rs:143-151 | Inserts a constant string at 0x100A/1 |
| NodeDictionary.ObjectDictionaryBuilder.ProductIdentifier | canopen-lib/src/node/object_dictionary.rs:152-160 | Inserts a constant u32 at 0x1018/2 |
| NodeDictionary.ObjectDictionaryBuilder.ProductRevision | canopen-lib/src/node/object_dictionary.rs:161-169 | Inserts a constant u32 at 0x1018/3 |
| NodeDictionary.ObjectDictionaryBuilder.SerialNumber | canopen-lib/src/node/object_dictionary.rs:170-178 | Inserts a constant u32 at 0x1018/4 |
| NodeDictionary.ObjectDictionaryBuilder.Build | canopen-lib/src/node/object_dictionary.rs:179-185 | A valid dictionary over the builder's entries for the node |
| NodeDictionary.WriteOutcome | canopen-lib/src/node/object_dictionary.rs:292-319 | Errors propagate; an unchanged value is `Ok`; a changed variable or persistent value panics in `update_pdo` |
| NodeDictionary.ObjectDictionary.constructor | canopen-lib/src/node/object_dictionary.rs:188-192 | The dictionary holds the given table and node id |
| NodeDictionary.ObjectDictionary.ArrayIndex | canopen-lib/src/node/object_dictionary.rs:195-221 | The binary search finds exactly the slot linear search finds, and reports a missing address as `ObjectDoesNotExist` |
| NodeDictionary.ObjectDictionary.InitializeFromPersistentStorage | canopen-lib/src/node/object_dictionary.rs:224-226 | Every call panics |
| NodeDictionary.ObjectDictionary.PersistValue | canopen-lib/src/node/object_dictionary.rs:229-231 | Every call panics |
| NodeDictionary.ObjectDictionary.UpdatePdo | canopen-lib/src/node/object_dictionary.rs:239-241 | Every call panics |
| NodeDictionary.ObjectDictionary.SetObjectValue | canopen-lib/src/node/object_dictionary.rs:292-319 | A missing object is `ObjectDoesNotExist`; otherwise the outcome is `WriteOutcome` of the object's `set_value`, and only its cell changes |
| NodeDictionary.ObjectDictionary.DownloadExpedited | canopen-lib/src/node/object_dictionary.rs:245-259 | Read-only objects refuse with `WritingForbidden` and nothing changes; others are written as by `set_object_value`: its outcome, the written cell's new value, and every other cell unchanged |
| NodeDictionary.ObjectDictionary.Upload | canopen-lib/src/node/object_dictionary.rs:263-271 | Write-only objects refuse with `ReadAccessImpossible`; others give their value |
| NodeDictionary.ObjectDictionary.GetObjectValue | canopen-lib/src/node/object_dictionary.rs:329-336 | The object's value whatever its access right; a missing object is `ObjectDoesNotExist` |
| Util.SplitOn | canopen-lib/src/util.rs:7-19 | At least one piece, and no piece contains the separator |
| Util.SplitJoin | canopen-lib/src/util.rs:7-19 | Joining the pieces with the separator gives the string back |
| Util.PiecesRead | canopen-lib/src/util.rs:7-19 | All pieces are read, but at most 8 |
| Util.PayloadBytes | canopen-lib/src/util.rs:7-19 | One byte per piece read, each the parsed value of its piece |
| Util.ParsePayload | canopen-lib/src/util.rs:7-19 | An 8-byte buffer starting with the parsed bytes, zero after, and their count |
| Util.SplitWithoutSeparator | canopen-lib/src/util.rs:7-19 | A string without the separator is one piece |
| Util.SplitAtSeparator | canopen-lib/src/util.rs:7-19 | The text before the first separator is the first piece, and the rest splits on its own |
| Util.SplitThree | canopen-lib/src/util.rs:7-19 | Three separator-free pieces joined by the separator split back into them |
| Util.PayloadSplitExample | canopen-lib/src/util.rs:295-313 | The test string splits into "01", "0b10" and "0x0_3" |
| Util.PayloadExample | canopen-lib/src/util.rs:295-313 | With those pieces read as 1, 2 and 3, the test string fills three bytes |
| Util.PayloadOfThree | canopen-lib/src/util.rs:7-19 | Three parseable pieces give their three values |
| Util.PdoCobIdParser | canopen-lib/src/util.rs:21-34 | Accepted exactly when the text is an integer in 0x180..=0x5FF, giving that integer; otherwise the reason |
| Util.NodeIdParser | canopen-lib/src/util.rs:36-49 | Accepted exactly when the text is an integer in 0..=0x7F, giving it as a byte; otherwise the reason |
| Util.Lo | canopen-lib/src/util.rs:200-289 | The low half fits the half width |
| Util.Hi | canopen-lib/src/util.rs:200-289 | The high half fits the half width |
| Util.SplitHalves | canopen-lib/src/util.rs:200-289 | Both halves fit the half width, and high times the half modulus plus low is the value's pattern at twice the half width |
| Util.RecomposeAt | canopen-lib/src/util.rs:200-289 | Quotient and remainder at m recompose the remainder at m * m |
| Util.SplitRecompose | canopen-lib/src/util.rs:200-289 | The halves recompose the value's bit pattern at twice the half width, for signed values too |
| Util.SplitUnsigned | canopen-lib/src/util.rs:207-247 | An unsigned value is hi * 2^half + lo |
| Util.SplitExamples | canopen-lib/src/util.rs:355-381 | -256 as i16 splits to (0xFF, 0x00) and -1 as i32 to (0xFFFF, 0xFFFF) |
| Util.Pattern | canopen-lib/src/util.rs:129-195 | A numeric variant's bit pattern fits its width |
| Util.PatternIsTwosComplement | canopen-lib/src/util.rs:129-195 | The pattern is the value itself when it is non-negative, and the value plus 2^(8·width) when negative |
| Util.ToLittleEndianBuffer | canopen-lib/src/util.rs:129-195 | The returned prefix is the little-endian encoding of the pattern at the variant's width, and later buffer bytes are unchanged |
| Util.FromLe4 | canopen-lib/src/util.rs:129-195 | Four bytes read little-endian |
| Util.FromLe2 | canopen-lib/src/util.rs:129-195 | Two bytes read little-endian |
| Util.WordBytesValue | canopen-lib/src/util.rs:129-195 | The four bytes taken through two levels of `Split` read back as the value |
| Util.WriterBytesAreLittleEndian | canopen-lib/src/util.rs:129-195 | The bytes stored through `Split` are the little-endian encoding of the pattern |
| Util.WrittenBytesDecode | canopen-lib/src/util.rs:129-195 | The written bytes read back little-endian as the pattern |
| Util.LittleEndianExamples | canopen-lib/src/util.rs:355-381 | The buffer tests: I32(-1), U32(0x01020304), U16(0x0102), I16(-256), U8(1), I8(-1) |
| LegacyFrame.FrameTypeValue | canopen-lib/src/frame/frame.rs:22-39 | Each code is a 4-bit value other than 13 and 15 |
| LegacyFrame.FrameTypeFromU8 | canopen-lib/src/frame/frame.rs:22-39 | A byte names a type exactly when it is a declared code, and that type has it as its value |
| LegacyFrame.FrameTypeRoundTrip | canopen-lib/src/frame/frame.rs:22-39 | Every frame type is recovered from its value |
| LegacyFrame.ExtractFrameTypeAndNodeId | canopen-lib/src/frame/frame.rs:153-166 | A COB-ID is refused exactly above 0x77F or with code 13; otherwise node id and code are its low and high bits |
| LegacyFrame.CobId | canopen-lib/src/frame/frame.rs:132-136 | The low 7 bits are the node id and the bits above it the code |
| LegacyFrame.NewWithRtr | canopen-lib/src/frame/frame.rs:88-105 | The COB-ID is checked first, then the length; an accepted frame keeps the COB-ID, the length and the zero-padded data |
| LegacyFrame.New | canopen-lib/src/frame/frame.rs:80-83 | Accepted exactly as `new_with_rtr`, as a data frame |
| LegacyFrame.NewRtr | canopen-lib/src/frame/frame.rs:84-87 | Accepted exactly as `new`, as a remote frame |
| LegacyFrame.IntoCanFrame | canopen-lib/src/frame/frame.rs:139-143 | All eight data bytes are sent, whatever the recorded length |
| LegacyFrame.TryFromCanFrame | canopen-lib/src/frame/frame.rs:146-151 | The same as `new_with_rtr` on the identifier, data and remote flag |
| LegacyFrame.CobIdThenExtract | canopen-lib/src/frame/frame.rs:132-166 | A node id below 128 and a code are recovered from their COB-ID |
| LegacyFrame.DecodeEncode | canopen-lib/src/frame/frame.rs:139-151 | A decoded frame is sent again padded to eight bytes: unchanged exactly when it had eight |
| LegacyFrame.EncodeDecode | canopen-lib/src/frame/frame.rs:139-151 | A frame sent and decoded again comes back with its length raised to 8 |
| LegacyFrame.ShortFrameExample | canopen-lib/src/frame/frame.rs:80-151 | A five-byte frame to node 1 is recorded with length 5 but sent with eight bytes; bad COB-IDs and lengths are refused |
| LegacySdoFrame.CommandSpecifierFromU8 | canopen-lib/src/frame/sdo.rs:146-159 | Bits 5-7 decide; for 111 the whole byte is kept |
| LegacySdoFrame.CommandSpecifierIntoU8 | canopen-lib/src/frame/sdo.rs:161-174 | An `Unspecified` byte is sent as kept; a named specifier is its code in bits 5-7 (low five bits clear, below 0xE0) and decodes back to itself |
| LegacySdoFrame.CommandSpecifierIntoFrom | canopen-lib/src/frame/sdo.rs:146-174 | Encoding a decoded byte keeps bits 5-7 and clears the rest, unless they are 111 |
| LegacySdoFrame.CommandSpecifierFromInto | canopen-lib/src/frame/sdo.rs:146-174 | Every specifier but an `Unspecified` byte below 0xE0 is recovered from its encoding |
| LegacySdoFrame.CommandSpecifierExamples | canopen-lib/src/frame/sdo.rs:356-382 | The decoding examples of the tests, and an `Unspecified` byte that does not survive |
| LegacySdoFrame.DataSizeFromU8 | canopen-lib/src/frame/sdo.rs:176-190 | Total over bits 2-3, which it reads and nothing else |
| LegacySdoFrame.DataSizeRoundTrip | canopen-lib/src/frame/sdo.rs:176-190 | Every size is recovered from its bits |
| LegacySdoFrame.LengthOfEmptyBytes | canopen-lib/src/frame/sdo.rs:271-279 | A count is given exactly with bit 0 set, and it is below 8 |
| LegacySdoFrame.IsSizeFlagSet | canopen-lib/src/frame/sdo.rs:261-264 | Bit 0 of the command byte; its mask form is stated by `LegacySdoFrame.FlagMasks` |
| LegacySdoFrame.IsToggleFlagSet | canopen-lib/src/frame/sdo.rs:266-269 | Bit 4 of the command byte; its mask form is stated by `LegacySdoFrame.FlagMasks` |
| LegacySdoFrame.FlagMasks | canopen-lib/src/frame/sdo.rs:261-269 | The size and toggle flags are the source's mask tests `& 0x01` and `& 0x10` |
| LegacySdoFrame.CommandByteFields | canopen-lib/src/frame/sdo.rs:261-279 | A byte assembled from specifier, toggle, count and size flag reads each of them back |
| LegacySdoFrame.FlagExamples | canopen-lib/src/frame/sdo.rs:383-403 | The size and toggle flag examples of the tests, plus two added `length_of_empty_bytes` examples (0x0B gives 5, 0x0A none), the source's own test of it being `todo!()` |
| LegacySdoFrame.ExpeditedFields | canopen-lib/src/frame/sdo.rs:282-312 | Index, subindex and data are read little-endian so that bytes 1-7 are recovered from them |
| LegacySdoFrame.Parse | canopen-lib/src/frame/sdo.rs:282-312 | Only SDO frames parse; Abort, Download and Upload are expedited, every other specifier is a segment |
| LegacySdoFrame.ExpeditedParseLossless | canopen-lib/src/frame/sdo.rs:282-312 | Parsing an expedited frame loses only bits 0-4 of its command byte |
| LegacySdoFrame.InitiateIsSegmentExample | canopen-lib/src/frame/sdo.rs:282-312 | An initiate-download request 0x23 is read as a segment |
| LegacySdo.ResultFromU8 | canopen-lib/src/canopen/sdo.rs:127-135 | 0x60 is success, 0x80 failure, any other byte is kept |
| LegacySdo.ResultRoundTrip | canopen-lib/src/canopen/sdo.rs:127-135 | The byte is recovered from its result |
| LegacySdo.AbortFromU64 | canopen-lib/src/canopen/sdo.rs:90-125 | A code is unknown exactly when it is not one of the 29 32-bit table codes |
| LegacySdo.KnownCodeAgrees | canopen-lib/src/canopen/sdo.rs:90-125 | On each known code the 64-bit table names the same abort as the current table |
| LegacySdo.AbortAgreesWithCurrentTable | canopen-lib/src/canopen/sdo.rs:90-125 | The two tables agree on every 32-bit code, and wider codes are unknown |
| LegacySdo.WideCodeExample | canopen-lib/src/canopen/sdo.rs:90-125 | A code matching a known one only in its low 32 bits is unknown |
| LegacySdo.ReadLe | canopen-lib/src/canopen/sdo.rs:170-173 | A read succeeds exactly when there are n bytes, and its value encodes back to them |
| LegacySdo.ReadResponse | canopen-lib/src/canopen/sdo.rs:169-174 | The field reads fail exactly below 12 bytes; otherwise each field encodes back to its bytes |
| LegacySdo.ParseServerResponse | canopen-lib/src/canopen/sdo.rs:165-178 | Only SsdoTx frames are read |
| LegacySdo.ParseNeverSucceeds | canopen-lib/src/canopen/sdo.rs:165-178 | No frame parses: SsdoTx frames fail with `UnexpectedEof`, others with the parse error |
| LegacySdoClient.New | canopen-lib/src/canopen/sdo_client.rs:172-181 | The node id is kept without a range check, with the fixed bases 0x600 and 0x580 |
| LegacySdoClient.UploadFrame | canopen-lib/src/canopen/sdo_client.rs:183-199 | One to four bytes go to the helper of that width with the client's node id and base; any other length is `TooMuchData` |
| LegacySdoClient.UploadExamples | canopen-lib/src/canopen/sdo_client.rs:172-199 | Any node id is kept; the width's helper receives the node id and the base 0x600 as separate arguments; an empty upload is `TooMuchData(0)` |
| LegacySdoClient.ResponseNeedsTwelveBytes | canopen-lib/src/canopen/sdo_client.rs:138-149 | The server-response parse needs twelve bytes, so an 8-byte payload never parses |
| LegacyLib.FrameTypeValue | canopen-lib/src/lib.rs:14-31 | Every code is a 4-bit value |
| LegacyLib.FrameTypeFromU8 | canopen-lib/src/lib.rs:14-31 | Every 4-bit value names a type, whose value it is |
| LegacyLib.FrameTypeRoundTrip | canopen-lib/src/lib.rs:14-31 | Every frame type is recovered from its value |
| LegacyLib.ExtractNodeAndType | canopen-lib/src/lib.rs:41-49 | The node id is the low 7 bits and the code is bits 7-10, for every identifier |
| LegacyLib.CanId | canopen-lib/src/lib.rs:41-49 | The identifier of a code and node id is below 0x800 |
| LegacyLib.ExtractCanId | canopen-lib/src/lib.rs:41-49 | A code and a node id below 128 are recovered from their identifier |
| LegacyLib.CanIdOfExtract | canopen-lib/src/lib.rs:41-49 | Splitting and joining keeps the low 11 bits of any identifier |
| LegacyLib.IgnoresHighBits | canopen-lib/src/lib.rs:41-49 | Bits above bit 10 are ignored |
| LegacyLib.UnusedCodeExamples | canopen-lib/src/lib.rs:14-49 | Codes 13 and 15 give the unused variants, and a 29-bit identifier is accepted |

## Left out

- **Floating point.** REAL32 and REAL64 values are held as their IEEE 754 bit
  patterns. The integer-to-float casts of `Data::from_str` are parameters
  (`NumberReaders`). `Util.TypeVariant` has no `F32` variant, so the
  `f32::to_le_bytes` branch of `to_little_endian_buffer` is not modelled;
  its integer and string variants are.
- **Number parser.** `number_parser` in `util.rs` is defined by a regular
  expression, and it is not part of this model. The payload and range
  parsers take the foreign integer reader as a parameter.
- **Foreign readers.** `from_str_radix` and `str::parse` are parameters.
- **Concurrency.** The mutex around the object cells is not modelled: a cell
  is a plain object, and `SharedOdAccessError` never arises.
- **Timers.** The `select!` timeouts and `Delay` timers are not modelled. A
  timeout is the inbox running out of frames.
- **Out of scope by design.** Block transfer and its CRC, heartbeat, NMT, the
  node state machine, the SDO server, the `Display` impls and the `bdd` and
  `cot` crates are not modelled.
- **Declarations outside the modelled files.** `map_index`, `ValueVariant` and
  `CanOpenError` are declared outside the modelled files, and those files are
  not part of this model. `map_index` is modelled as index * 256 + subindex,
  and only the variants the modelled code uses are declared.
- **Legacy upload helpers.** The helpers `upload_1_byte_frame` …
  `upload_4_bytes_frame` are not part of this model.
  `LegacySdoClient.UploadFrame` returns the call it would make.
- **Legacy duplicates.** The private copies of `SDOResult`, `SDOAbortCode` and
  the response parser in `canopen/sdo_client.rs`, and the 32-bit abort table
  of `frame/sdo.rs`, are identical to those of `canopen/sdo.rs`. They are
  modelled once, in `LegacySdo`, and that parser is modelled on the 8 data
  bytes.
- **`lib.rs` frame struct.** The `CANOpenFrame` struct of `lib.rs` has no
  operations and is not modelled.
- **Time values.** `Instant` and `Duration` data values are tick counts.
  Every conversion of the source leaves them `unimplemented!()`.
- **Panic and error messages.** The texts of panics and error messages, such
  as the "todo" of `InvalidNumberType`, are not modelled.
- **Unreachable persistence.** The `persist_value` call after `update_pdo` in
  `set_object_value` is never reached, because `update_pdo` panics first.
- NodeObject.VariableObject and NodeObject.PersistentObject: they use the
  guard the panic message describes (strings refused), not the inverted guard
  as written. `NodeObject.StorageObjectGuardInverted` states what the written
  guard does.
- SdoClient.SdoClient.WriteObject: it models `write_object` as written, which
  ignores aborts. `SdoClient.WriteObjectReportingAbort` is the documented
  behaviour.

## Findings

| source | as written | input that shows it | evidently intended | confidence | as-written member | corrected member |
|---|---|---|---|---|---|---|
| canopen-lib/src/frame/sdo/mod.rs:274-309 | `Into<u32>` sends ReadWriteOnlyError as 0x0601_0000, the code of UnsupportedAccess; the abort builder (frame/sdo/builder.rs:129) sends its code through it | 0x0601_0001 decodes to ReadWriteOnlyError and is re-encoded as 0x0601_0000; a server's `abort(ReadWriteOnlyError)` reaches `read_object` as UnsupportedAccess | ReadWriteOnlyError is sent as 0x0601_0001, so encoding inverts decoding | not executed | SdoAbort.IntoU32AsWritten (SdoAbort.AsWrittenRoundTrip, SdoAbort.ReadWriteOnlyErrorMisencoded, SdoBuilder.Abort, SdoClient.ReadWriteOnlyAbortMisreported) | SdoAbort.IntoU32 (SdoAbort.IntoFromU32, SdoAbort.FromIntoU32) |
| canopen-lib/src/sdo_client.rs:325-336 | `write_object` returns `Ok(())` for any matching response, an abort included | a download answered by an abort frame with code 0x0602_0000 | an abort is reported as `SdoAbortCode`, as the method's documentation and `read_indexed` do | not executed | SdoClient.WriteObjectIgnoresAbort | SdoClient.WriteObjectReportsAbort (SdoClient.WriteObjectReportingAbort) |
| canopen-lib/src/node/object.rs:70-94 | `variable_object` and `persistent_object` panic for every value that is not a string | U8(0) panics, and S("Rev 1.0") is accepted | strings are refused, as the panic message says | not executed | NodeObject.StorageObjectGuardInverted (NodeObject.StorageObjectPanicsAsWritten) | NodeObject.VariableObject, NodeObject.PersistentObject (NodeObject.StorageObjectPanics) |
