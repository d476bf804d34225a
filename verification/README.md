# A verified model of amqpprox

amqpprox is an AMQP 0-9-1 proxy. It plays the server to a client, replays the client's
handshake to a broker chosen from a farm, and then passes frames through in both
directions. This project models the parts of it whose correctness does not follow from
reading one function, and proves what they promise for every input and every run.

`dafny verify dfyconfig.toml` checks the whole project with Dafny 4.11.

| files | what they hold |
|---|---|
| `Bytes`, `FieldValues`, `FieldRoundTrip`, `FieldOverrun` | field tables as values, their encoding and parser as functions, the exact relation between the two, and when the parser reads past its end |
| `Buffer`, `FieldWriter`, `FieldReader` | the cursor over shared memory, and the in-place, back-patching encoder and the decoder that refine those functions |
| `Frames`, `PacketModel`, `Passthrough` | frames, splitting a stream into frames, one pass over a read, and independence of how the stream is cut |
| `Methods` | the connection methods as rows of fields |
| `WireFormat` | all of this octet by octet: tags, widths, byte order and layouts in plain arithmetic |
| `ConnectorModel`, `ConnectorRuns`, `Responses`, `Handshake`, `BrokerFrames`, `PassRuns` | the handshake and close state machine, what holds of all its runs, and a pass over a read as such a run |
| `SessionModel`, `SessionRuns`, `Crossings`, `OwnershipExact`, `CrossedHandshake`, `SessionStreams`, `SessionWrites` | a session's read, process and write loop in both directions as a state machine: who owns the memory behind a write, exactly when, which reads are answered to the other side, what becomes of the octets read and what is written to which socket |
| `Connector`, `PacketProcessor`, `BufferPool`, `SessionLoop` | the objects that refine them, with their memory and its ownership |
| `Modular`, `BackendModel`, `Fairness`, `Backends` | partitions, the round-robin order, how evenly sessions spread, the farm |
| `WalkModel`, `ConnectionWalk` | the search for a backend that answers |
| `Statistics`, `StatModel`, `StatCollector` | wrapping counters, collection cycles, conservation |
| `RateLimiter`, `LimiterManager` | the fixed-window limiter and the manager of limits |

## Notes on the code

- Fixed-width reads inside a field value, and the four octets skipped for a table's length,
  are guarded only by an assertion in `Buffer::skip`. The model gives them an outcome of their
  own, `Overrun` when reading and `Aborted` when writing; `TableOverrunsIff` says exactly when
  reading meets it.
- A complete frame larger than the maximum is accepted when it arrives in one read and throws
  when its beginning arrives first. `CutAnywhereIffWithinMaximum` says exactly when cutting is
  harmless.
- The synthesized OpenOk is queued when the broker's arrives, but the same read is passed
  through, so it is the broker's own OpenOk that reaches the client (`OpeningPassesThrough`).
- A client's Close received in CLIENT_CLOSE_SENT queues a CloseOk which the Close synthesized
  next discards. `ClientCloseUnanswered` is such a run and `CloseAnsweredIff` says exactly when
  a Close is answered.
- A read is answered once, with the responses to its last connection method. A client that sends
  its TuneOk in one piece with its StartOk is never sent the Tune (`PipelinedTuneIsLost`).
- A StartOk that the appended identity takes over the frame size is dropped, and the handshake
  goes on (`StartOkLost`, `IdentityMakesTooLarge`, `BrokerReadsHandshake`).
- Handshake states do not look at which side a method comes from. A client's own Tune while the
  broker's is awaited is answered to the broker, leaves two reads of the broker outstanding, and
  in the end takes the memory away from under a write (`SomeRunLosesMemory`);
  `ClientReadCrossesIff` says which reads are answered so. A graceful disconnect does the same to
  a write in flight (`OpenDisconnectFails`).
- Replies are written out of one buffer of the connector's, which every reply takes anew, also
  while the one before is being written (`ReplyLostNow`). The two closes for a client that does
  not confirm one always meet this (`GivenUpLoses`).
- `OwnedIffHarmless` says exactly when a step is harmless. `Aligned` asks that a response is for
  the side whose read produced it, or that the session is closing and no passthrough write is in
  flight for the other side, and that no reply is in flight when another is made. The one other
  harmless case is a client that takes the broker's part while what is held of the broker's next
  frame can only end in an exception, say part of its Close (`RefusalOnItsWay`).
- A session that connects at its first endpoint asks the connection manager three times for
  the same retry and so moves the marker by three. Round-robin over a multiple of three
  backends therefore does not reach all of them (`FirstTrySpreadIff`).
- The bounds check of `BackendSet::markPartition` admits an index one past the end. The
  selector never uses it; the model makes it the caller's duty.

## Model

| member | source | states |
|---|---|---|
| `Bytes.SignedOfBigEndian` | libamqpprox/amqpprox_types.cpp:132-182 | a signed integer in the range of its width survives being written big-endian and read back |
| `Bytes.BigEndianOfSigned` | libamqpprox/amqpprox_types.cpp:132-182 | any octets read as a signed integer are written back as the same octets |
| `Bytes.BigEndianAt` | libamqpprox/amqpprox_types.cpp:132-182 | octet by octet: the octet i places from the front of a written integer counts 256 to the power of the octets behind it, for any integer and width |
| `Bytes.FirstCountsMost` | libamqpprox/amqpprox_types.cpp:132-182 | the first octet of a read integer is the most significant one |
| `Bytes.SignIsFirstBit` | libamqpprox/amqpprox_types.cpp:132-182 | the highest bit of the first octet is the sign, in two's complement |
| `WireFormat.WrittenInteger` | libamqpprox/amqpprox_types.cpp:240-380 | integers of one, two, four and eight octets written out in plain arithmetic |
| `WireFormat.ShortIntegersRead` | libamqpprox/amqpprox_types.cpp:143-165 | what 'b', 'B', 's', 'U' and 'u' read, from the raw octets |
| `WireFormat.LongIntegersRead` | libamqpprox/amqpprox_types.cpp:166-175 | what 'I' and 'i' read, from the raw octets |
| `WireFormat.LongLongIntegersRead` | libamqpprox/amqpprox_types.cpp:176-231 | what 'l', 'L' and 'T' read, from the raw octets |
| `WireFormat.PlainValuesRead` | libamqpprox/amqpprox_types.cpp:138-244 | what 't', 'V', 'f', 'd' and 'D' read, from the raw octets |
| `WireFormat.TextsRead` | libamqpprox/amqpprox_types.cpp:209-259 | 'S' and 'x' read a length of four octets, the most significant first, and then so many octets |
| `WireFormat.NestedValuesRead` | libamqpprox/amqpprox_types.cpp:218-240 | 'A' and 'F' read a length and then values, or fields, up to it |
| `WireFormat.FieldsRead` | libamqpprox/amqpprox_types.cpp:441-467 | fields are read one after another, each a short name and a value |
| `WireFormat.OtherTagsRejected` | libamqpprox/amqpprox_types.cpp:260-262 | no other tag is read |
| `WireFormat.IntegersWritten` | libamqpprox/amqpprox_types.cpp:264-372 | the tag and octets each integer is written as |
| `WireFormat.TextsWritten` | libamqpprox/amqpprox_types.cpp:340-384 | strings, texts and byte arrays are written behind their length |
| `WireFormat.PlainValuesWritten` | libamqpprox/amqpprox_types.cpp:275-339 | flags, the absent value and the numbers kept as octets are written as these |
| `WireFormat.NestedValuesWritten` | libamqpprox/amqpprox_types.cpp:346-369 | arrays and tables are written behind the length of what follows |
| `WireFormat.FieldsWritten` | libamqpprox/amqpprox_types.cpp:469-491 | each field is written as its short name and its value |
| `Buffers.Buffer.Remaining` | libamqpprox/amqpprox_buffer.h:55-55 | a view shares the memory and starts at the cursor, with a cursor of its own |
| `Buffers.Buffer.Consume` | libamqpprox/amqpprox_buffer.h:59-64 | the view covers exactly the octets the cursor moved over |
| `Buffers.Buffer.Copy` | libamqpprox/amqpprox_buffer.h:66-73 | a fixed-width read yields the next octets; staying inside is the caller's duty, as the assertion demands |
| `Buffers.Buffer.WriteIn` | libamqpprox/amqpprox_buffer.h:75-101 | writes all or nothing: the memory is the old one with the octets spliced in at the cursor, or unchanged |
| `FieldValues.ParseString` | libamqpprox/amqpprox_types.cpp:42-62 | a length-prefixed string is read from inside the input or rejected; it never overruns |
| `FieldValues.ParseFields` | libamqpprox/amqpprox_types.cpp:441-467 | an accepted table body is used up to its last octet, at every nesting |
| `FieldRoundTrip.ParsesExactlyRenderings` | libamqpprox/amqpprox_types.cpp:132-491 | if and only if: a table is decoded from the front of the input exactly when the input begins with a rendering of it, that is its encoding with 'U' allowed for 's' and any non-zero octet for true, and the table is well-formed |
| `FieldRoundTrip.ParseRenderedTable` | libamqpprox/amqpprox_types.cpp:441-467 | every rendering of a well-formed table decodes to it and stops at its own end, whatever follows |
| `FieldRoundTrip.ParseRenderedValue` | libamqpprox/amqpprox_types.cpp:132-266 | the same for a single value of any nesting |
| `FieldRoundTrip.ParseRenderedArray` | libamqpprox/amqpprox_types.cpp:394-418 | the same for arrays |
| `FieldRoundTrip.ParsedTableRenders` | libamqpprox/amqpprox_types.cpp:441-467 | whatever is accepted as a table is well-formed, as long as its encoding, and a rendering of it: nothing differs but 'U' tags and true octets |
| `FieldRoundTrip.ParsedValueRenders` | libamqpprox/amqpprox_types.cpp:132-266 | the same for a single value |
| `FieldRoundTrip.ParsedArrayRenders` | libamqpprox/amqpprox_types.cpp:394-418 | the same for arrays |
| `FieldRoundTrip.EncodingRendersTable` | libamqpprox/amqpprox_types.cpp:469-491 | the encoding of a well-formed table is one of its renderings |
| `FieldRoundTrip.ParseEncodedTable` | libamqpprox/amqpprox_types.cpp:441-491 | decode after encode is the identity on well-formed tables and consumes exactly the encoding |
| `FieldRoundTrip.ParseEncodedValue` | libamqpprox/amqpprox_types.cpp:132-392 | the same for values |
| `FieldRoundTrip.ReencodeTable` | libamqpprox/amqpprox_types.cpp:441-491 | whatever is accepted re-encodes to as many octets, these decode to the same table, and the in-place encoder writes them if and only if it has room for as many |
| `FieldRoundTrip.WrittenTableReadsBack` | libamqpprox/amqpprox_types.cpp:441-491 | what the in-place encoder leaves in memory decodes to the table it was given |
| `FieldRoundTrip.WrittenValueReadsBack` | libamqpprox/amqpprox_types.cpp:132-392 | the same for values |
| `FieldWriter.FateExact` | libamqpprox/amqpprox_types.cpp:268-392 | a value is written exactly when it is encodable and fits; with enough room the assertion in skip is never reached |
| `FieldWriter.FateOfTableExact` | libamqpprox/amqpprox_types.cpp:469-491 | the same for tables |
| `FieldWriter.FateOfArrayExact` | libamqpprox/amqpprox_types.cpp:420-439 | the same for arrays |
| `FieldWriter.WellFormedIsEncodable` | libamqpprox/amqpprox_types.cpp:268-392 | every well-formed value is encodable |
| `FieldWriter.WriteLongString` | libamqpprox/amqpprox_types.cpp:76-85 | in place: the encoding is at the old cursor and nothing else changed, or nothing changed at all |
| `FieldWriter.WriteShortString` | libamqpprox/amqpprox_types.cpp:87-101 | the same, refusing texts over 255 octets |
| `FieldWriter.WriteByteArray` | libamqpprox/amqpprox_types.cpp:375-387 | as a long string, except that a refused byte array may leave its length behind inside the free space |
| `FieldWriter.WriteScalarPayload` | libamqpprox/amqpprox_types.cpp:268-392 | the payload of every value that is not nested |
| `FieldWriter.WritePayload` | libamqpprox/amqpprox_types.cpp:268-392 | the payload of any value, through sub-views for nested ones |
| `FieldWriter.WriteValue` | libamqpprox/amqpprox_types.cpp:268-392 | refines the encoding: cursor moved by its length, memory spliced, nothing outside changed; on failure the cursor has not moved |
| `FieldWriter.WriteArray` | libamqpprox/amqpprox_types.cpp:420-439 | the same through skip, recursion, seek back and patch |
| `FieldWriter.WriteValues` | libamqpprox/amqpprox_types.cpp:427-431 | the loop over the elements writes their encodings one behind the other |
| `FieldWriter.PatchLength` | libamqpprox/amqpprox_types.cpp:433-438 | the patched prefix is the length of what follows it |
| `FieldWriter.WriteField` | libamqpprox/amqpprox_types.cpp:475-483 | a name and its value |
| `FieldWriter.WriteTable` | libamqpprox/amqpprox_types.cpp:469-491 | the table encoder refines the encoding; on failure the caller's cursor has not moved |
| `FieldWriter.WriteFields` | libamqpprox/amqpprox_types.cpp:475-483 | the loop over the fields |
| `FieldReader.ReadString` | libamqpprox/amqpprox_types.cpp:42-62 | the cursor version equals the parser; where the cursor stops is exact whatever the outcome |
| `FieldReader.ReadScalar` | libamqpprox/amqpprox_types.cpp:132-266 | the same for values that are not nested, the assertion being a third outcome |
| `FieldReader.ReadPayload` | libamqpprox/amqpprox_types.cpp:132-266 | the same for the payload behind any tag |
| `FieldReader.ReadValue` | libamqpprox/amqpprox_types.cpp:132-266 | the same for any value |
| `FieldReader.ReadBody` | libamqpprox/amqpprox_types.cpp:394-404 | the view of a length-prefixed body is exactly that body |
| `FieldReader.ReadArray` | libamqpprox/amqpprox_types.cpp:394-418 | the loop over a view until it is used up equals the parser |
| `FieldReader.ReadField` | libamqpprox/amqpprox_types.cpp:453-463 | one name and value |
| `FieldReader.ReadTable` | libamqpprox/amqpprox_types.cpp:441-467 | the loop over a view until it is used up equals the parser; the cursor has passed the whole table even when decoding fails inside |
| `FieldOverrun.TableOverrunsIff` | libamqpprox/amqpprox_types.cpp:132-467 | if and only if: a table read past its end is rendered fields and then a name behind which a value begins that is not all there |
| `FieldOverrun.ValueOverrunsIff` | libamqpprox/amqpprox_types.cpp:132-266 | the same for a value of any nesting |
| `FieldOverrun.FieldsOverrunIff` | libamqpprox/amqpprox_types.cpp:453-463 | the same for a table body |
| `Frames.DecodeFrame` | libamqpprox/amqpprox_frame.cpp:41-85 | a decoded frame lies wholly inside the input and its size is its payload and the overhead |
| `Frames.DecodeAt` | libamqpprox/amqpprox_frame.cpp:41-85 | decoding in memory equals decoding the slice: incomplete, oversize, bad end or a frame |
| `Frames.EncodeAt` | libamqpprox/amqpprox_frame.cpp:87-105 | a frame within the maximum is spliced in whole; a larger one is refused and nothing is written |
| `Frames.DecodeEncodedFrame` | libamqpprox/amqpprox_frame.cpp:41-105 | decode after encode is the identity for every representable frame, whatever follows |
| `Frames.EncodeDecodedFrame` | libamqpprox/amqpprox_frame.cpp:41-105 | encode after decode gives back exactly the octets used |
| `WireFormat.FrameRead` | libamqpprox/amqpprox_frame.cpp:41-85 | from the raw octets: when a frame is complete, still missing octets, too large or badly ended, and its type, channel, length and payload |
| `WireFormat.FrameWritten` | libamqpprox/amqpprox_frame.cpp:87-106 | the octets of a frame |
| `WireFormat.CloseOkRead` | libamqpprox/amqpprox_frame.cpp:41-85 | a whole CloseOk, octet for octet, decodes to its frame |
| `Frames.LeftoverIsShort` | libamqpprox/amqpprox_frame.cpp:47-66 | what is left when no whole frame remains is shorter than the maximum frame |
| `Frames.StreamSplits` | libamqpprox/amqpprox_frame.cpp:41-85 | a stream of frames within the maximum never throws |
| `Frames.SplitResumes` | libamqpprox/amqpprox_packetprocessor.cpp:77-113 | splitting more input continues where splitting the beginning stopped |
| `Frames.SplitIsWhole` | libamqpprox/amqpprox_packetprocessor.cpp:77-113 | the octets used are exactly the encodings of the frames found |
| `Frames.SplitEncodedFrames` | libamqpprox/amqpprox_packetprocessor.cpp:77-113 | encoded frames followed by anything split into those frames first |
| `Frames.SplitIsLongest` | libamqpprox/amqpprox_packetprocessor.cpp:77-113 | no other row of whole frames at the front is longer |
| `Frames.LeftoverHasNoFrame` | libamqpprox/amqpprox_packetprocessor.cpp:77-113 | what is left over contains no whole frame |
| `Methods.ParseEncodedParts` | libamqpprox/amqpprox_method.h:49-55 | a well-formed row of method fields followed by anything decodes to itself |
| `Methods.FateOfPartsExact` | libamqpprox/amqpprox_method.h:49-55 | a method is encoded exactly when every part is encodable and all of it fits |
| `Methods.WriteParts` | libamqpprox/amqpprox_method.h:49-55 | writing part by part refines the encoding and stops at the first failure |
| `Methods.ReadParts` | libamqpprox/amqpprox_methods_start.cpp:40-52 | reading part by part equals the parser |
| `Methods.PrefixRejected` | libamqpprox/amqpprox_methods_start.cpp:40-52 | whatever a method decoder accepts, it rejects every strict prefix of it, without overrunning |
| `Methods.StartPrefixRejected` | libamqpprox/amqpprox_methods_start.cpp:40-61 | no strict prefix of an accepted Start is accepted |
| `Methods.StartOkPrefixRejected` | libamqpprox/amqpprox_methods_startok.cpp:27-41 | no strict prefix of an accepted StartOk is accepted |
| `Methods.DecodeEncodedStart` | libamqpprox/amqpprox_methods_start.cpp:40-61 | a Start reads back from its encoding |
| `Methods.DecodeEncodedStartOk` | libamqpprox/amqpprox_methods_startok.cpp:27-41 | a StartOk reads back from its encoding |
| `Methods.DecodeEncodedTune` | libamqpprox/amqpprox_methods_tune.cpp:36-55 | a Tune or TuneOk reads back from its encoding |
| `Methods.DecodeEncodedOpen` | libamqpprox/amqpprox_methods_open.cpp:29-40 | the vhost reads back; the reserved parts are left unread |
| `Methods.DecodeEncodedClose` | libamqpprox/amqpprox_methods_close.cpp:35-65 | a Close reads back from its encoding |
| `Methods.DecodeEncodedMethod` | libamqpprox/amqpprox_method.h:49-55 | every well-formed method reads back from class number, method number and body |
| `WireFormat.MethodWritten` | libamqpprox/amqpprox_method.h:50-56 | class 10 and the number of each method come first, two octets each |
| `WireFormat.StartWritten` | libamqpprox/amqpprox_methods_start.cpp:54-61 | the octets of a Start, part after part |
| `WireFormat.StartOkWritten` | libamqpprox/amqpprox_methods_startok.cpp:35-41 | the octets of a StartOk: table, short mechanism, long response, short locale |
| `WireFormat.TuneWritten` | libamqpprox/amqpprox_methods_tune.cpp:50-60 | the octets of a Tune and a TuneOk |
| `WireFormat.OpenWritten` | libamqpprox/amqpprox_methods_open.cpp:35-40 | the octets of an Open and an OpenOk |
| `WireFormat.CloseWritten` | libamqpprox/amqpprox_methods_close.cpp:57-66 | the octets of a Close and a CloseOk |
| `ConnectorRuns.CloseStep` | libamqpprox/amqpprox_connector.cpp:243-317 | one method during a close: no exception, no way back, exactly which message takes it further or completes it, and once closed nothing is queued |
| `ConnectorRuns.CloseOnlyAdvances` | libamqpprox/amqpprox_connector.cpp:243-317 | the same over every interleaving of methods from both sides |
| `ConnectorRuns.ClosedIff` | libamqpprox/amqpprox_connector.cpp:243-317 | if and only if, over every interleaving: a close is over when the broker has sent a Close, or a CloseOk after the client confirmed |
| `PassRuns.ClosesSent` | libamqpprox/amqpprox_connector.cpp:311-325 | the octets, code, text and side of a graceful close and of the error after an unconfirmed one |
| `PassRuns.CustomCloseSent` | libamqpprox/amqpprox_connector.cpp:327-336 | the octets, code, text and numbers of the close passed on from a broker |
| `ConnectorRuns.QueuedIsSent` | libamqpprox/amqpprox_connector.cpp:144-317 | the out-buffer is exactly the encodings of the queued responses, for the one side named |
| `ConnectorRuns.FramesReadBack` | libamqpprox/amqpprox_connector.cpp:363-417 | framed responses split with nothing left over and decode to themselves |
| `Responses.OutBufferHoldsResponses` | libamqpprox/amqpprox_connector.cpp:144-325 | in every state a run can reach, after any method received or close synthesized whose responses fit, the out-buffer is type-1, channel-0 frames decoding to exactly the queued responses, all for one side |
| `Responses.RunStaysSane` | libamqpprox/amqpprox_connector.cpp:144-325 | what responses are made of stays in range over every run |
| `Responses.QueuedIsWellFormed` | libamqpprox/amqpprox_connector.cpp:144-325 | whatever is queued is well-formed if it fits a frame |
| `ConnectorRuns.TransmittedIffFits` | libamqpprox/amqpprox_connector.cpp:363-417 | a response is put on the wire, as one frame, if and only if it fits |
| `ConnectorRuns.CloseAnsweredIff` | libamqpprox/amqpprox_connector.cpp:243-300 | if and only if: a Close is answered with a CloseOk to its sender exactly when the connector waits for the broker to close, or waits for the client and the Close is the broker's |
| `ConnectorRuns.ClientCloseUnanswered` | libamqpprox/amqpprox_connector.cpp:255-263 | the failing run: a client's Close that crosses the proxy's own is left unanswered |
| `ConnectorRuns.TuneOkAndOpenFit` | libamqpprox/amqpprox_connector.cpp:218-225 | the client's TuneOk and Open always fit a frame |
| `Handshake.StepStage` | libamqpprox/amqpprox_connector.cpp:123-242 | a step accepts exactly the next message of the handshake and stays otherwise; nothing returns to the handshake |
| `Handshake.RefusedIff` | libamqpprox/amqpprox_connector.cpp:144-242 | if and only if: between the header and the broker's Tune a method other than the next one is refused, a Close of the broker's with that Close as the reason |
| `PassRuns.HeadersAnswered` | libamqpprox/amqpprox_connector.cpp:123-142 | the two headers that are answered with a Start, and what anything else is answered |
| `Handshake.StepData` | libamqpprox/amqpprox_connector.cpp:123-242 | when the stored StartOk, TuneOk and vhost change, and to what, field by field |
| `Handshake.RunIsExplained` | libamqpprox/amqpprox_connector.cpp:123-242 | every run still in the handshake is explained by messages accepted in order, which also determine the stored StartOk, TuneOk and vhost |
| `Handshake.OpenMeansHandshake` | libamqpprox/amqpprox_connector.cpp:123-242 | every run that reaches OPEN accepted header, StartOk, TuneOk, Open, Start, Tune and OpenOk in that order |
| `Responses.FittingStartOkIsWellFormed` | libamqpprox/amqpprox_connector.cpp:196-216 | the StartOk meant for the broker is well-formed whenever it fits a frame |
| `BrokerFrames.BrokerReadsHandshake` | libamqpprox/amqpprox_connector.cpp:196-225 | in every run that reaches OPEN the octets for the broker decode, if and only if it fits a frame, to a StartOk with the client's own properties between the reasons given by authentication, the two identity fields, the last credentials set or else the client's, and its locale; and then to the client's TuneOk and an Open of its vhost |
| `Handshake.StartOkLost` | libamqpprox/amqpprox_connector.cpp:196-217 | a StartOk that does not fit is lost and the handshake goes on as if it had been sent |
| `BrokerFrames.IdentityMakesTooLarge` | libamqpprox/amqpprox_connectorutil.cpp:81-103 | a client's StartOk that fits its own frame and no longer fits with the identity appended |
| `Connectors.EncodeResponse` | libamqpprox/amqpprox_connector.cpp:363-380 | a response is encoded in scratch memory of the maximum frame size |
| `Connectors.Extend` | libamqpprox/amqpprox_connector.cpp:380-417 | the frame goes behind what was queued, in new memory |
| `Connectors.FrameBehind` | libamqpprox/amqpprox_connector.cpp:363-417 | a response is framed behind what is queued exactly as the transmission function says |
| `Connectors.Connector.SendResponse` | libamqpprox/amqpprox_connector.cpp:363-417 | queues the framed response, drops one that does not fit, aborts where the encoder does |
| `Connectors.Connector.ReceiveHeader` | libamqpprox/amqpprox_connector.cpp:123-142 | both protocol headers are answered with Start; anything else with the header and the error state |
| `Connectors.Connector.SynthesizeProxyHeader` | libamqpprox/amqpprox_connector.cpp:447-463 | the out-buffer is the given header |
| `Connectors.Connector.SynthesizeProtocolHeader` | libamqpprox/amqpprox_connector.cpp:431-445 | the out-buffer is the protocol header |
| `Connectors.Connector.SetAuthMechanismCredentials` | libamqpprox/amqpprox_connector.cpp:476-481 | mechanism and response of the stored StartOk are replaced |
| `Connectors.Connector.SetAuthReasonAsClientProperties` | libamqpprox/amqpprox_connector.cpp:483-487 | the reason is appended to the stored client properties |
| `Connectors.Connector.SynthesizeMessage` | libamqpprox/amqpprox_connector.cpp:419-429 | what was queued is forgotten and a Close queued; a zero class or method number keeps the earlier one |
| `Connectors.Connector.SynthesizeClose` | libamqpprox/amqpprox_connector.cpp:311-317 | the state follows the side and a Close with code 200 is queued |
| `Connectors.Connector.SynthesizeCloseError` | libamqpprox/amqpprox_connector.cpp:319-325 | a Close with the channel error is queued and the state stays |
| `Connectors.Connector.Expect` | libamqpprox/amqpprox_connector.cpp:63-96 | the expected method decoded, or the exception the source throws, the broker's Close carried along |
| `Connectors.Connector.ReceiveStartOk` | libamqpprox/amqpprox_connector.cpp:167-174 | refines the transition out of START_SENT; the client's fields are stored, its properties behind those already there |
| `Connectors.Connector.ReceiveTuneOkOrOpen` | libamqpprox/amqpprox_connector.cpp:175-195 | refines the transitions out of TUNE_SENT and AWAITING_OPEN |
| `Connectors.Connector.InjectProxyClientIdent` | libamqpprox/amqpprox_connectorutil.cpp:81-103 | the two identity properties are appended, built up piece by piece |
| `ConnectorModel.DigitsReadBack` | libamqpprox/amqpprox_connectorutil.cpp:89-100 | a printed port reads back as the port |
| `ConnectorModel.DigitsAre` | libamqpprox/amqpprox_connectorutil.cpp:89-103 | a port is printed with its most significant digit first and without leading zeros |
| `ConnectorModel.AsciiIs` | libamqpprox/amqpprox_connectorutil.cpp:89-103 | texts are their characters, one octet each |
| `Connectors.Connector.ReceiveStart` | libamqpprox/amqpprox_connector.cpp:196-217 | refines the transition out of AWAITING_CONNECTION |
| `Connectors.Connector.ReceiveTune` | libamqpprox/amqpprox_connector.cpp:218-225 | refines the transition out of STARTOK_SENT |
| `Connectors.Connector.ReceiveWhileClosing` | libamqpprox/amqpprox_connector.cpp:243-300 | refines the transitions of the close handshake |
| `Connectors.Connector.Receive` | libamqpprox/amqpprox_connector.cpp:144-309 | the object's whole new state or its exception is the transition function's, in every state |
| `PacketModel.HeldIsShort` | libamqpprox/amqpprox_packetprocessor.cpp:52-133 | in every state what is held back is shorter than the maximum frame |
| `PacketModel.OpenPassesThrough` | libamqpprox/amqpprox_packetprocessor.cpp:75-133 | while open, processing is splitting: the connector is untouched, whole frames go to the other side, the rest is held |
| `PacketModel.PassSplits` | libamqpprox/amqpprox_packetprocessor.cpp:75-133 | in every state what a pass holds back contains no whole frame; while open it counts and passes on all the others |
| `PacketModel.OpeningPassesThrough` | libamqpprox/amqpprox_packetprocessor.cpp:115-133 | the read that opens the connection passes its whole frames through, so the broker's own OpenOk replaces the synthesized one |
| `PassRuns.PassIsRun` | libamqpprox/amqpprox_packetprocessor.cpp:47-133 | a whole pass in one go: the connection methods of the read, given to the connector until it opens or refuses, are a run of it; short of OPEN everything it then holds is written to the side it is for and nothing to the other |
| `PassRuns.UnsplittableRefused` | libamqpprox/amqpprox_packetprocessor.cpp:75-84 | a read that cannot be split into frames is refused |
| `PassRuns.PassWritesResponses` | libamqpprox/amqpprox_packetprocessor.cpp:47-133 | in every reachable state, what a pass short of OPEN writes splits with nothing left over into frames that decode to the responses to the last message, for their side |
| `PassRuns.NumbersRead` | libamqpprox/amqpprox_method.cpp:21-42 | the class and method numbers of a method, from the raw octets |
| `PassRuns.PipelinedTuneIsLost` | libamqpprox/amqpprox_packetprocessor.cpp:75-112 | of several messages in one read only the last is answered: the Tune is lost on a client that sends StartOk and TuneOk together |
| `PacketProcessing.PacketProcessor.TakeFrame` | libamqpprox/amqpprox_packetprocessor.cpp:88-110 | one whole frame, handed to the connector only before OPEN |
| `PacketProcessing.PacketProcessor.TakeWholeFrames` | libamqpprox/amqpprox_packetprocessor.cpp:75-113 | the loop over whole frames refines its recursive form |
| `PacketProcessing.PacketProcessor.ProcessFrames` | libamqpprox/amqpprox_packetprocessor.cpp:75-133 | loop and passthrough together |
| `PacketProcessing.PacketProcessor.ProcessHeader` | libamqpprox/amqpprox_packetprocessor.cpp:52-73 | the protocol header branch, holding back fewer than eight octets |
| `PacketProcessing.PacketProcessor.Process` | libamqpprox/amqpprox_packetprocessor.cpp:47-135 | one pass in any state: writes, remainder, connector and the totals of both directions are the model's; while open the write is a stretch of the memory read |
| `Passthrough.ReadsDoNotMatter` | libamqpprox/amqpprox_packetprocessor.cpp:75-133 | in OPEN, for any stream of frames within the maximum and any cut into reads, nothing throws, the forwarded slices are the stream's whole frames, the rest is held, and the totals equal one-shot processing |
| `Passthrough.CutAnywhereIffWithinMaximum` | libamqpprox/amqpprox_frame.cpp:47-66 | a frame is accepted however it is cut if and only if it is within the maximum size; in one piece it is always accepted |
| `BufferPools.SortSorts` | libamqpprox/amqpprox_bufferpool.cpp:28-34 | the buckets are kept in ascending order and none is lost |
| `BufferPools.BufferPool.Acquire` | libamqpprox/amqpprox_bufferpool.cpp:37-49 | the smallest bucket that is large enough, or the heap, counted as spillover; the buffer is nobody else's |
| `BufferPools.BufferPool.Return` | libamqpprox/amqpprox_bufferhandle.cpp:57-71 | only a buffer that is out can be given back |
| `BufferPools.BufferHandle.Release` | libamqpprox/amqpprox_bufferhandle.cpp:57-71 | what was owned goes back once and the handle is empty |
| `BufferPools.BufferHandle.Assign` | libamqpprox/amqpprox_bufferhandle.cpp:42-48 | the buffer held before goes back first |
| `BufferPools.BufferHandle.Swap` | libamqpprox/amqpprox_bufferhandle.cpp:50-55 | ownership is exchanged and nothing goes back |
| `BufferPools.AcquireInto` | libamqpprox/amqpprox_bufferpool.cpp:37-49 | a fresh buffer replaces the one held, which goes back |
| `BufferPools.Rotate` | libamqpprox/amqpprox_session.h:339-355 | one handle gets a fresh buffer, the other keeps what that one held and gives back its own |
| `SessionRuns.ReleasedExactlyOnce` | libamqpprox/amqpprox_bufferhandle.cpp:37-71 | in every run whatever: each buffer issued, for octets read or for replies, is owned by exactly one of the five handles or was given back exactly once, and once the session is destroyed all were given back exactly once |
| `SessionRuns.StepConserves` | libamqpprox/amqpprox_session.cpp:711-842 | every single happening keeps that account |
| `SessionRuns.StepKeepsSafe` | libamqpprox/amqpprox_session.cpp:711-980 | every aligned happening keeps the memory behind writes in flight owned, passthrough or reply, in the handshake, while open and while closing |
| `SessionRuns.AlignedRunsOwn` | libamqpprox/amqpprox_session.cpp:711-980 | after every aligned run from the start of a session the memory behind each passthrough write in flight is owned by one handle of its direction, behind each reply by the handle of the connector, and by nobody else; short of closing a read outstanding has room for an octet |
| `PacketModel.PassTakesMemory` | libamqpprox/amqpprox_connector.cpp:365-411 | a read that is answered with a reply takes the reply buffer anew, however many replies it queues |
| `OwnershipExact.OwnedIffHarmless` | libamqpprox/amqpprox_session.cpp:711-980 | if and only if: after any aligned run, in any state and whatever is held, what happens next leaves every write its memory in all aligned continuations exactly when it is aligned, or is a client's read answered to the broker while part of a broker's frame is held that no further octets complete to a frame the connector takes |
| `OwnershipExact.RefusalOnItsWay` | libamqpprox/amqpprox_session.cpp:861-917 | that exception is real: a client's read answered to the broker while the beginning of another method than a Tune is held is unaligned and costs no write its memory |
| `OwnershipExact.RotationFails` | libamqpprox/amqpprox_session.h:339-370 | with part of a frame held, a read that completes none gives the other buffer of its direction back, under a write from it |
| `OwnershipExact.ReplyLostNow` | libamqpprox/amqpprox_connector.cpp:380-398 | taking the reply buffer anew while a reply is in flight gives that reply's memory back at once, whatever takes it |
| `OwnershipExact.GivenUpLoses` | libamqpprox/amqpprox_session.cpp:927-945 | when a client does not confirm a close, the memory of the broker's Close is given back while that is being written, from every state |
| `Crossings.AlignedIsSameSide` | libamqpprox/amqpprox_session.cpp:861-887 | being aligned said of the connector: the response is for the side whose read produced it, or the session is closing and no passthrough write is in flight there; and no reply is in flight when another is made |
| `Crossings.BrokerNeverCrosses` | libamqpprox/amqpprox_connector.cpp:144-317 | what the broker sends is answered to the broker, if at all, in every state |
| `Crossings.BrokerReadsAligned` | libamqpprox/amqpprox_connector.cpp:144-317 | short of closing every read of the broker's is aligned |
| `Crossings.AnsweredToBrokerIff` | libamqpprox/amqpprox_connector.cpp:196-225 | which of a client's methods are answered to the broker during the handshake: a Start or a Tune while the broker's is awaited |
| `Crossings.ClientReadCrossesIff` | libamqpprox/amqpprox_packetprocessor.cpp:75-133 | if and only if, said of the frames of a whole read: a client's read is answered to the broker when its connection methods take the handshake exactly as far as the StartOk, and that fits a frame, or as far as the TuneOk and Open |
| `OwnershipExact.OpenDisconnectFails` | libamqpprox/amqpprox_session.cpp:658-681 | the failing run of a graceful disconnect, from every open session whose client has just sent a frame |
| `CrossedHandshake.SomeRunLosesMemory` | libamqpprox/amqpprox_session.cpp:861-887 | the failing run of the handshake, from the start of every session: a Tune of the client's own |
| `SessionStreams.NothingLostOrReordered` | libamqpprox/amqpprox_session.cpp:759-917 | in every run and both directions what was read is what the proxy kept to itself, then exactly the octets of the passthrough writes in order, then what it kept while closing and what is held; those octets are the encodings of whole frames, and after an aligned run short of closing one-shot splitting gives the same frames |
| `SessionStreams.FramesKeepOpen` | libamqpprox/amqpprox_session.cpp:861-917 | once open a read ends the session if and only if splitting throws, so never while the peer sends frames within the maximum |
| `SessionWrites.WritesAreAddressed` | libamqpprox/amqpprox_session.cpp:711-914 | in every run whatever, a reply in flight goes to the socket of the side read from and octets passed on to the other, and each write carries the protocol header or whole frames |
| `SessionWrites.PassBegins` | libamqpprox/amqpprox_session.cpp:861-887 | what a pass has for the client, or else for the broker, becomes exactly one write of these octets to that socket; with neither the read goes on |
| `SessionWrites.GreetingBegins` | libamqpprox/amqpprox_session.cpp:404-414 | a broker that was reached is sent the protocol header |
| `SessionWrites.PausedIsHeld` | libamqpprox/amqpprox_session.cpp:821-828 | a paused client's octets are held unprocessed and it is not read from again |
| `SessionLoops.Direction.Prepare` | libamqpprox/amqpprox_session.cpp:809-816 | fresh memory unless something is held, as the model has it |
| `SessionLoops.Direction.Fill` | libamqpprox/amqpprox_session.cpp:818-826 | octets land behind what is held, which is unchanged |
| `SessionLoops.Direction.CopyRemaining` | libamqpprox/amqpprox_session.h:339-370 | the remainder moves to fresh memory while the memory it came from stays owned by the other handle |
| `SessionLoops.Direction.WriteCompleted` | libamqpprox/amqpprox_session.cpp:716-750 | with nothing held both buffers go back, each once |
| `SessionLoops.Digest` | libamqpprox/amqpprox_packetprocessor.cpp:47-135 | one pass of the packet processor: which direction to write for, what, out of which memory, and what is left |
| `SessionLoops.ProxySession.HandleData` | libamqpprox/amqpprox_session.cpp:861-917 | a pass in any connector state is the model's, buffers of other sessions untouched |
| `SessionLoops.ProxySession.ReadData` | libamqpprox/amqpprox_session.cpp:759-842 | a completed read in any state and with any number of reads outstanding is the model's step; writes in flight keep their octets as long as every step is aligned |
| `SessionLoops.ProxySession.ReadBlocked` | libamqpprox/amqpprox_session.cpp:829-831 | a read that would block is the model's step |
| `SessionLoops.ProxySession.ReadFailed` | libamqpprox/amqpprox_session.cpp:783-842 | a failed read is the model's step, the closes sent for an unresponsive client included |
| `SessionLoops.ProxySession.WriteCompleted` | libamqpprox/amqpprox_session.cpp:716-750 | a completed or failed write is the model's step |
| `SessionLoops.ProxySession.HandleError` | libamqpprox/amqpprox_session.cpp:919-981 | an error ends the session, or sends both closes when it was the client that had been asked to close |
| `SessionLoops.ProxySession.SendClose` | libamqpprox/amqpprox_session.cpp:844-859 | the synthesized close is written for the side it is for and then no longer queued |
| `SessionLoops.ProxySession.DisconnectGracefully` | libamqpprox/amqpprox_session.cpp:658-681 | an operator's close is the model's step |
| `SessionLoops.ProxySession.EstablishConnection` | libamqpprox/amqpprox_session.cpp:404-414 | the protocol header is written to the broker reached, out of the reply buffer taken anew |
| `SessionLoops.ProxySession.Authorise` | libamqpprox/amqpprox_session.cpp:540-553 | what authentication decides changes the stored StartOk and nothing else |
| `SessionLoops.ProxySession.Destroy` | libamqpprox/amqpprox_bufferhandle.cpp:37-40 | at the end exactly the buffers still owned go back; the pool has out what others hold |
| `SessionLoops.ProxySession.WritesFromOwnedMemory` | libamqpprox/amqpprox_session.cpp:711-757 | every write in flight goes to its socket and still holds the octets to be written; a passthrough write reads memory owned by one handle of its direction and out of the pool, a reply memory that no handle owns |
| `SessionLoops.Accept` | libamqpprox/amqpprox_session.cpp:193-221 | a session starts with one read outstanding for its client, owning nothing |
| `BackendModel.PickFollowsOrder` | libamqpprox/amqpprox_robinbackendselector.cpp:33-57 | requests 0, 1, 2, ... walk along the partitions, each turned by its marker, and then find nothing |
| `BackendModel.OrderKeeps` | libamqpprox/amqpprox_robinbackendselector.cpp:33-57 | whatever the markers, the offer is a permutation of the members |
| `BackendModel.PickInTurn` | libamqpprox/amqpprox_robinbackendselector.cpp:33-57 | request by request: a partition is gone through in its own order from where its marker stands, before the next one |
| `BackendModel.OnlyConcat` | libamqpprox/amqpprox_affinitypartitionpolicy.cpp:40-68 | the policy takes each backend by itself and keeps their order |
| `BackendModel.OnlyOne` | libamqpprox/amqpprox_affinitypartitionpolicy.cpp:46-53 | one backend is kept by the side it belongs to |
| `BackendModel.AffineKeeps` | libamqpprox/amqpprox_affinitypartitionpolicy.cpp:38-70 | partitioning preserves the multiset of backends |
| `BackendModel.RepartitionedOnce` | libamqpprox/amqpprox_affinitypartitionpolicy.cpp:38-70 | the policy is idempotent: any number of applications equals one |
| `BackendModel.FarmOffer` | libamqpprox/amqpprox_farm.cpp:82-100 | requests 0..N-1 from one snapshot return each of the N members as often as listed, local ones first once there is a policy, and null from N on |
| `Backends.BackendSet.MarkPartition` | libamqpprox/amqpprox_backendset.cpp:32-39 | one marker moves by one; an index beyond the end changes nothing |
| `Backends.Select` | libamqpprox/amqpprox_robinbackendselector.cpp:33-57 | the loop returns the reference choice for the snapshot and moves one marker of the shared set |
| `Backends.ConnectionManager.GetConnection` | libamqpprox/amqpprox_connectionmanager.cpp:38-71 | the answer is a function of the snapshot alone, so other sessions' marking cannot change it; the direct backend is offered once |
| `Backends.ConnectionManager.ConnectionFollowsOffer` | libamqpprox/amqpprox_connectionmanager.cpp:38-71 | the answers are the offer in order and then null, in both branches |
| `Backends.PartitionByAffinity` | libamqpprox/amqpprox_affinitypartitionpolicy.cpp:38-70 | the nested loops compute the reference partitioning into a fresh set |
| `Backends.Enumerate` | libamqpprox/amqpprox_farm.cpp:84-90 | the initial partition holds every member once, in whatever order the set yields |
| `Backends.Farm.Repartition` | libamqpprox/amqpprox_farm.cpp:82-100 | a fresh set, the members folded through every policy, replaces the old one |
| `Backends.Farm.AddMember` | libamqpprox/amqpprox_farm.cpp:49-54 | the member joins and the farm is repartitioned |
| `Backends.Farm.RemoveMember` | libamqpprox/amqpprox_farm.cpp:56-61 | the member leaves and the farm is repartitioned |
| `Backends.Farm.AddPartitionPolicy` | libamqpprox/amqpprox_farm.cpp:69-74 | one more policy and the farm is repartitioned |
| `Backends.Farm.AcquireConnection` | libamqpprox/amqpprox_connectionselector.cpp:83-99 | after any such operations a new session is offered every member exactly once, local ones first, and then nothing |
| `Fairness.DistinctStartsIffCoprime` | libamqpprox/amqpprox_robinbackendselector.cpp:41-51 | n consecutive sessions marking c times start on n distinct backends if and only if c and n have no common divisor |
| `Fairness.FirstTrySpreadIff` | libamqpprox/amqpprox_session.cpp:237-262 | sessions that connect at once spread over all backends if and only if their number is not a multiple of three |
| `Fairness.EvenSpread` | libamqpprox/amqpprox_robinbackendselector.cpp:41-51 | with c and n coprime, k n sessions hit every position exactly k times |
| `Fairness.EveryBackendStarts` | libamqpprox/amqpprox_robinbackendselector.cpp:41-51 | the same of the backends themselves |
| `Fairness.OneMarkSpreads` | libamqpprox/amqpprox_robinbackendselector.cpp:41-51 | with one mark per session k rounds start on every backend exactly k times, whatever their number |
| `WalkModel.StepStaysSound` | libamqpprox/amqpprox_session.cpp:223-380 | every step keeps the account: backends before the present one had all their endpoints tried in order, the present one its first few |
| `WalkModel.WalkEnds` | libamqpprox/amqpprox_session.cpp:223-380 | whatever DNS and connect answer, the walk ends, though no bound is known beforehand |
| `WalkModel.TriedOnceInOrder` | libamqpprox/amqpprox_session.cpp:310-330 | attempts are strictly increasing by backend and endpoint position |
| `WalkModel.WalkOutcome` | libamqpprox/amqpprox_session.cpp:223-380 | every walk ends without trying anything twice; it is connected if and only if a connect succeeded; disconnected, every backend was resolved and every endpoint wanted of it tried, as the resolver's answers name them |
| `WalkModel.EndpointsTried` | libamqpprox/amqpprox_session.cpp:268-330 | if and only if, from the answers: the connects begun at a backend are to the endpoints the resolver named, in order, all of them if DNS names the backend and the first one if not, up to the present one |
| `WalkModel.ConnectedIff` | libamqpprox/amqpprox_session.cpp:332-380 | if and only if: a walk is connected when a connect succeeded, and then to the backend of that retry |
| `WalkModel.StoppedOnlyWhenHeld` | libamqpprox/amqpprox_session.cpp:226-235 | a walk stops short only when paused or finished |
| `WalkModel.FirstTryMarksThrice` | libamqpprox/amqpprox_session.cpp:237-262 | a session that connects at once moves the marker by three |
| `ConnectionWalk.Attempter.AttemptConnection` | libamqpprox/amqpprox_session.cpp:223-246 | refines the model's step, requests counted |
| `ConnectionWalk.Attempter.AttemptResolvedConnection` | libamqpprox/amqpprox_session.cpp:310-330 | the next endpoint, or the next backend |
| `ConnectionWalk.Attempter.UseResolved` | libamqpprox/amqpprox_session.cpp:264-295 | all endpoints of a DNS backend, the first of any other |
| `ConnectionWalk.Attempter.HandleResolved` | libamqpprox/amqpprox_session.cpp:250-296 | the resolver's completion is the model's step and moves the markers once per request |
| `ConnectionWalk.Attempter.HandleConnected` | libamqpprox/amqpprox_session.cpp:337-380 | the connect's completion; the backend looked up after a connect is never null |
| `StatModel.GrowthOver` | libamqpprox/amqpprox_statcollector.cpp:263-310 | current minus previous totals is the sum of every session's growth, modulo 2^64 |
| `StatModel.PartsSumToWhole` | libamqpprox/amqpprox_statcollector.cpp:126-148 | summing over the keys of an axis is summing over the sessions |
| `StatModel.ReportsTelescope` | libamqpprox/amqpprox_sessioncleanup.cpp:34-86 | the changes of any run add up to the last totals of every session there ever was |
| `StatModel.GrowthItemises` | libamqpprox/amqpprox_statcollector.cpp:75-130 | counter by counter: bytes sent is the growth of egress bytes over the sessions modulo 2^64, and so for every named counter; each gauge is a number of sessions |
| `StatModel.PlausibleIs` | libamqpprox/amqpprox_sessioncleanup.cpp:34-86 | which runs are meant: a session is seen again under its names until it was seen to have finished, and identifiers are not used again |
| `StatCollection.ReportNames` | libamqpprox/amqpprox_statcollector.cpp:126-160 | a report says this over all sessions, and under the name of every vhost, backend and source that has one |
| `StatCollection.ReportedAdds` | libamqpprox/amqpprox_sessioncleanup.cpp:34-86 | the report of a cycle takes the sum of all reports to the traffic of all sessions there ever were |
| `Statistics.AddStats` | libamqpprox/amqpprox_statcollector.cpp:73-124 | the metric-by-metric updates add exactly the session's contribution, modulo 2^64 |
| `Statistics.RemStats` | libamqpprox/amqpprox_statcollector.cpp:201-221 | the metric-by-metric updates subtract exactly the session's traffic, modulo 2^64 |
| `Statistics.Difference` | libamqpprox/amqpprox_statcollector.cpp:297-306 | the loop over the traffic metrics subtracts the previous ones and leaves the gauges |
| `StatModel.SessionsCountedOnce` | libamqpprox/amqpprox_statcollector.cpp:96-108 | in any report every session is counted exactly once, as active or as removed in one of three ways |
| `StatCollection.PopulateMap` | libamqpprox/amqpprox_statcollector.cpp:282-310 | every key's difference to the previous snapshot, gauges left as they are |
| `StatCollection.EntryIsGrowth` | libamqpprox/amqpprox_statcollector.cpp:282-310 | a reported entry is the growth of its own sessions since their last collection |
| `StatCollection.ReportIsGrowth` | libamqpprox/amqpprox_statcollector.cpp:229-310 | the whole report is growth: every entry of the vhost, backend and source axes, each axis adding up to overall, every session counted once |
| `StatCollection.StatCollector.Collect` | libamqpprox/amqpprox_statcollector.cpp:53-149 | the whole new snapshot: one more session tallied under its vhost, its backend, its source and overall |
| `StatCollection.StatCollector.DeletedSession` | libamqpprox/amqpprox_statcollector.cpp:151-227 | the whole new snapshot: a deleted session's traffic taken out on every axis, gauges untouched |
| `StatCollection.StatCollector.PopulateStats` | libamqpprox/amqpprox_statcollector.cpp:229-280 | differences on all three axes and overall |
| `StatCollection.StatCollector.Reset` | libamqpprox/amqpprox_statcollector.cpp:36-41 | current becomes previous and starts empty |
| `StatCollection.StatCollector.VisitAll` | libamqpprox/amqpprox_sessioncleanup.cpp:42-52 | visiting in any order tallies every session once |
| `StatCollection.StatCollector.DeleteFinished` | libamqpprox/amqpprox_sessioncleanup.cpp:57-66 | exactly the surviving sessions stay credited |
| `StatCollection.StatCollector.Cleanup` | libamqpprox/amqpprox_sessioncleanup.cpp:34-86 | one cycle reports every session's growth, counter by counter and name by name, the reports so far add up to all traffic there ever was, and the collector is ready for the next |
| `RateLimiters.FixedWindowConnectionRateLimiter.AllowNewConnection` | libamqpprox/amqpprox_fixedwindowconnectionratelimiter.cpp:57-75 | the object's answer and state are the pure step's |
| `RateLimiters.SlidingBound` | libamqpprox/amqpprox_fixedwindowconnectionratelimiter.cpp:57-75 | over every call sequence of a monotone clock, from any part of a window on, any k windows' time holds at most (k+1) times the limit |
| `RateLimiters.RefusedOnlyWhenFull` | libamqpprox/amqpprox_fixedwindowconnectionratelimiter.cpp:57-75 | a refusal means the limit was already used up within the last window's length |
| `LimiterModel.RunRepresents` | libamqpprox/amqpprox_connectionlimitermanager.cpp:56-238 | after any run the limiters represent the simple settings: specific limits, current default, one-second windows |
| `LimiterModel.LimitIsSpecificElseDefault` | libamqpprox/amqpprox_connectionlimitermanager.cpp:186-238 | a vhost meets its specific limit, else the current default, else none |
| `LimiterModel.SpecificIsLastSet` | libamqpprox/amqpprox_connectionlimitermanager.cpp:56-130 | a vhost has the limit that was last added for it and not removed since |
| `LimiterModel.DefaultIsLastSet` | libamqpprox/amqpprox_connectionlimitermanager.cpp:86-168 | the default is the one last set and not removed since |
| `LimiterModel.AdmittedIff` | libamqpprox/amqpprox_connectionlimitermanager.cpp:186-238 | if and only if, after any operations at any times: which connection is let through, from the limit and what was let through since the window began |
| `LimiterModel.RefusalMeansFull` | libamqpprox/amqpprox_connectionlimitermanager.cpp:186-238 | after any chronological operations a connection is refused only if the limit was used up within the last second |
| `LimiterModel.DefaultsAreCurrent` | libamqpprox/amqpprox_connectionlimitermanager.cpp:87-102 | an entry made from a default carries the current default |
| `LimiterModel.UnlimitedIsAdmitted` | libamqpprox/amqpprox_connectionlimitermanager.cpp:186-238 | without an applicable limit a connection is let through |
| `LimiterModel.AlarmsDoNotInterfere` | libamqpprox/amqpprox_connectionlimitermanager.cpp:198-215 | leaving out every alarm-only operation changes no answer |
| `LimiterModel.VhostRateBound` | libamqpprox/amqpprox_connectionlimitermanager.cpp:186-238 | while its limiter is left alone, however much of its window is used, a vhost gets at most (k+1) times its limit through in any k seconds, whatever happens to other vhosts, alarms or, for a specific limit, the default |
| `LimiterManagers.RefreshDefaults` | libamqpprox/amqpprox_connectionlimitermanager.cpp:92-101 | the loop replaces exactly the default-derived entries |
| `LimiterManagers.EraseDefaults` | libamqpprox/amqpprox_connectionlimitermanager.cpp:158-167 | erasing while iterating keeps exactly the specific entries |
| `LimiterManagers.ApplyChange` | libamqpprox/amqpprox_connectionlimitermanager.cpp:56-184 | each of the four configuration operations, on either set of limiters |
| `LimiterManagers.ConnectionLimiterManager.ChangeEnforced` | libamqpprox/amqpprox_connectionlimitermanager.cpp:56-168 | only the enforced limiters change, by an operation added to those so far |
| `LimiterManagers.ConnectionLimiterManager.ChangeAlarms` | libamqpprox/amqpprox_connectionlimitermanager.cpp:71-184 | only the alarm limiters change, by an operation added to those so far |
| `LimiterManagers.ConnectionLimiterManager.AllowNewConnectionForVhost` | libamqpprox/amqpprox_connectionlimitermanager.cpp:186-238 | the answer follows from the operations so far and their times alone |

## Left out

- Sockets, TLS, timers and callbacks: they appear only as events with arbitrary results.
- Control commands, formatters, the StatsD publisher, logging: text in and out only.
- HTTP authentication, DNS, host name and resource mapping: an arbitrary answer is an input.
- The farm store, backend store, vhost state and data rate limits: plain maps.
- Allocation inside `boost::pool` and the high-water marks: a pooled buffer is fresh memory of
  its bucket's size. Scratch memory that is given back in the call that took it is not counted.
- Atomic memory ordering and data races: counters and shared markers are sequential.
- Method frames with fewer than four octets of payload: the source leaves the decoded class
  unspecified, so the model refuses them.
- The synthesized Start and Tune are parameters; the Start is required to fit a frame.
- A session after an exception, an error state or a failed completion: writes still outstanding
  may complete or fail and reads may fail, but a read of the other direction that still delivers
  octets, or would block, before the sockets are shut down is not followed. Nor are the closes
  written while a session is torn down, or for a client whose connection is limited, refused or
  not authorised.
- The proxy protocol header ahead of the broker's handshake: one more write, before any read.
- The connector object has memory of its own for replies rather than a buffer of the pool object;
  the session model says who owns it.
- How much of a StartOk that fails to decode is stored before the exception.
- Process and pool statistics of a report: copied through.
- Totals of a finished session are taken as frozen between collection and deletion, and a
  session's vhost, backend and source as settled from its first collection on. The switch that
  turns the source axis off is taken as on.
- The limiter objects a manager hands out are values here; sharing one with another caller is
  not modelled. The window in seconds times 1000 is not truncated to 32 bits.
- Markers, retry counters and endpoint indices are unbounded: wrap-around at 2^64 and 2^32 is
  not modelled.
- Methods.ReadParts: says nothing about the cursor when decoding fails, because some methods test the room for all their fixed-width fields first; callers give up then.
- Connectors.Connector.SynthesizeProxyHeader: requires a non-empty header, which the source asserts.
- Connectors.Connector.SendResponse: requires what is queued to lie in the reply memory, as at every call; a response too large to go behind a queued one leaves the queue as it was, in the source in memory already given back.
- PassRuns.PassIsRun: excludes method frames without room for their numbers, for the reason above.
- SessionRuns.AlignedRunsOwn: claims room for the next read only short of closing; a paused client may leave a full buffer to a second read then.
- SessionLoops.ProxySession.ReadData: requires that the session has not ended, because the connector is not followed past an exception.
- SessionLoops.ProxySession.ReadBlocked: the same.
- SessionLoops.ProxySession.HandleData: the same.
- SessionLoops.ProxySession.HandleError: leaves out the closes for an unresponsive client once the session has ended, for the same reason.
- StatCollection.StatCollector.PopulateStats: leaves out process and pool statistics, which are copied through.
- Backends.BackendSet.MarkPartition: excludes the index one past the end, where the source writes outside its vector.
- Backends.Enumerate: requires every member to be in the backend store; the null the source would list is not modelled.
- Backends.Farm.Repartition: the same.
- Backends.Farm.AddMember: the same, of the member added.
