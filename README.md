# octnet-tftp in Dafny

A model of the core of octnet-tftp, a TFTP (RFC 1350) client and server
written in C++ on top of asio, with proofs about it. The model covers:

- **The wire format.** The packet parser with its byte deserializer
  (`Deserialization`, `PacketParser`). The packet builder with its byte
  serializer (`PacketBuilder`). Round trips between the two.
- **The transfer streams.** Plain files (`FileIo`). The netascii reader and
  writer (`NetasciiIo`): `read` turns LF into CR LF and CR into CR NUL;
  `write` undoes that. The stream references the transfers hold
  (`Streams`).
- **The server's I/O managers** (`IoManagers`):
  - the default manager;
  - the file-data layer and the mode layer;
  - the layered manager that composes them;
  - the case-insensitive mode comparison (`StringUtils`).
- **The four transfer state machines.**
  - Server side: sending a file (`ReadConnections`) and receiving one
    (`WriteConnections`).
  - Client side: downloading (`ClientGets`) and uploading (`ClientPuts`).
  - Each is a class with the source's fields. There is one method per
    asio completion handler, and one per helper the handlers call.
  - Socket, retry timer and resolver are one `Io` value (`Transport`). It
    holds the datagrams sent so far and which completions are
    outstanding.
- **The server's registry of live connections** (`Servers`).

Every handler is proved to keep its class invariant `Valid()`.
`Valid()` covers these things:

- The retry budget stays in range.
- `m_out_packet_data` is the encoding of the answer the state calls for:
  the ACK of the last block accepted, or the DATA of the block last sent.
- Nothing is outstanding once the socket is closed.
- A stream is held wherever one is used. On the server, a connection holds
  its reader or writer while it awaits an answer or a receive is posted. A
  read connection also holds its reader once it has sent its last block.
  The upload holds its reader while its socket is open. The download
  creates its writer only for an accepted DATA and holds it once it has
  acknowledged a block; in a mode it builds no stream for, it has none.

Each handler states its whole new state. The stateless parts are
pure functions with lemmas: parse/build round trips, netascii
expand/collapse round trips in any chunking, mode selection, and ".."
refusal.

Time, the network, the resolver and the file system are inputs:

- **Completions are method calls.** Their error code is a `failed`
  parameter. A received datagram is a sender endpoint plus bytes.
- **Resolving the server's host and port is left out.** `OnResolveQuery`
  receives the resolved endpoints as a parameter.
- **The file system is a `FileSystem` value.** It says:
  - which paths open for reading, and with what contents;
  - which paths can be created;
  - on which paths the stream's error flag is set.

Integer widths are explicit:

- Block numbers are `u16`. `++` and `block_no + 1` wrap through `ToU16`.
- The client's test `m_last_acked_packet_id + 1 != block_no` is done in
  `int`, exactly as C++ promotes it. So after block 65535 the download
  accepts no further block (`ClientGets.Accepts`).
- Retry counters are `int`. The client's counter can reach -1, as it can
  in the source.

## Model

| member | source | states |
|---|---|---|
| Wire.ToU16 | src/read_connection.hpp:126 | assignment to a `std::uint16_t`: values below 65536 are kept |
| Wire.BigEndian | src/packet_builder.hpp:33-37 | the two bytes of a 16-bit word, high byte first, recombine to the word |
| StringUtils.ToLower | src/string_utils.hpp:24 | `tolower` in the C locale: 'A'..'Z' map to 'a'..'z', every other byte is itself, and no result is an upper-case letter |
| StringUtils.EqualIgnoreCase | src/string_utils.hpp:13-31 | the loop returns true exactly when the lengths agree and every position agrees after lowercasing; different lengths give false |
| StringUtils.LowerAll | src/string_utils.hpp:22-28 | lowercasing keeps the length and lowercases each position |
| StringUtils.SameIgnoringCaseIsLowerEquality | src/string_utils.hpp:13-31 | the comparison is equality of the fully lowercased strings |
| StringUtils.SameIgnoringCaseReflexive | src/string_utils.hpp:13-31 | every string equals itself ignoring case |
| StringUtils.SameIgnoringCaseSymmetric | src/string_utils.hpp:13-31 | the comparison is symmetric |
| StringUtils.SameIgnoringCaseTransitive | src/string_utils.hpp:13-31 | the comparison is transitive |
| StringUtils.CaseChangesAreIgnored | src/string_utils.hpp:24 | "OCTET" matches "octet" and "NetAscii" matches "netascii"; a longer string or a changed letter does not match |
| StringUtils.NonLettersMatchExactly | src/string_utils.hpp:24 | a byte that is not a letter matches only itself |
| Deserialization.FindNul | src/deserializer.hpp:72-80 | the index found holds a NUL at or after the start |
| Deserialization.FindNulFirst | src/deserializer.hpp:72-80 | no NUL lies before the one found; when none is found, none remains |
| Deserialization.Deserializer.constructor | src/deserializer.hpp:28-34 | the cursor starts at the first byte of the buffer |
| Deserialization.Deserializer.EnsureAllRead | src/deserializer.hpp:36-42 | fails with "too much data" exactly when unread bytes remain |
| Deserialization.Deserializer.ReadRemainingBytes | src/deserializer.hpp:49-54 | appends exactly the unread bytes and leaves nothing unread |
| Deserialization.Deserializer.ReadUint8 | src/deserializer.hpp:56-63 | the next byte and one step forward, or "not enough data" without moving at the end |
| Deserialization.Deserializer.ReadUint16 | src/deserializer.hpp:65-70 | two bytes, high byte first; with one byte left it fails having consumed it |
| Deserialization.Deserializer.ReadString | src/deserializer.hpp:72-80 | the bytes before the next NUL, the NUL consumed; without a NUL it fails with the cursor at the end |
| FileIo.FileReader.constructor | src/file_io.hpp:64-68 | mode "rb" opens exactly the existing paths, holding their contents, with the path's error flag |
| FileIo.FileReader.Read | src/file_io.hpp:80-97 | up to `n` bytes from the front, consumed; a closed stream or one with its error flag set fails and consumes nothing |
| FileIo.FileReader.Close | src/file_io.hpp:34-45 | closing leaves the stream closed and succeeds |
| FileIo.FileWriter.constructor | src/file_io.hpp:106-110 | mode "wb" opens exactly the creatable paths, empty, with the path's error flag |
| FileIo.FileWriter.Write | src/file_io.hpp:122-135 | a write succeeds exactly on an open stream that is not failing (an empty write always completes) and then appends the bytes, otherwise stores nothing |
| FileIo.FileWriter.Close | src/file_io.hpp:34-45 | closing leaves the stream closed; it fails only when an open stream has its error flag set |
| NetasciiIo.ExpandByte | src/netascii_io.hpp:83-90 | the netascii form of a byte: LF as CR LF, CR as CR NUL, anything else itself |
| NetasciiIo.PendingOut | src/netascii_io.hpp:62-74 | a pending LF still owes LF, a pending CR owes NUL, nothing else owes anything |
| NetasciiIo.ExpandAppend | src/netascii_io.hpp:33-57 | expansion distributes over concatenation |
| NetasciiIo.ExpandLength | src/netascii_io.hpp:83-90 | expansion adds one byte per CR or LF |
| NetasciiIo.ExpandedCrIsPaired | src/netascii_io.hpp:83-90 | every CR in the reader's output is followed by LF or NUL |
| NetasciiIo.NetasciiReader.constructor | src/netascii_io.hpp:16-21 | wraps the peer with nothing pending |
| NetasciiIo.NetasciiReader.ReadChar | src/netascii_io.hpp:60-101 | 1 with the next byte of the netascii text, or 0 exactly at its end; a failing peer read also reads as 0 |
| NetasciiIo.NetasciiReader.Read | src/netascii_io.hpp:33-57 | always succeeds; the bytes are the next ones of the netascii text, at most `n`, short only at its end |
| NetasciiIo.NetasciiReader.Close | src/netascii_io.hpp:23-26 | closes the peer and succeeds |
| NetasciiIo.ShortOnlyAtEndIsPrefix | src/netascii_io.hpp:33-57 | a read that is short only at the end returns exactly the first `n` bytes of what remained |
| NetasciiIo.ReadInChunks | src/netascii_io.hpp:33-57 | reads with any buffer sizes deliver the same prefix as one read of their total: chunking does not change the text |
| NetasciiIo.StepRules | src/netascii_io.hpp:136-191 | one byte of `write`: CR becomes pending, flushing an earlier pending CR; LF drops a pending CR; NUL after CR writes the CR; other bytes pass through |
| NetasciiIo.PairsCollapse | src/netascii_io.hpp:136-191 | CR LF is written as LF, CR NUL as CR, a lone NUL as NUL, and CR CR leaves one CR written and one pending |
| NetasciiIo.WriteRunAppend | src/netascii_io.hpp:136-191 | writing `a + b` is writing `a`, then `b` from the pending flag `a` left |
| NetasciiIo.WriteRunOk | src/netascii_io.hpp:136-191 | with an accepting peer every write succeeds |
| NetasciiIo.WriteRunRefused | src/netascii_io.hpp:185-188 | a refusing peer receives nothing |
| NetasciiIo.ExpandByteCollapses | src/netascii_io.hpp:136-191 | the netascii form of any byte collapses back to that byte |
| NetasciiIo.WriteInvertsExpand | src/netascii_io.hpp:136-191 | the writer inverts the reader: netascii text of `s` collapses to `s` with nothing pending |
| NetasciiIo.WriteChunksFlat | src/netascii_io.hpp:136-191 | writing chunk by chunk equals writing their concatenation |
| NetasciiIo.RoundTripInChunks | src/netascii_io.hpp:136-191 | the reader's text of `s`, cut into any chunks and written call by call, stores `s` |
| NetasciiIo.NetasciiWriter.constructor | src/netascii_io.hpp:110-115 | wraps the peer with no CR pending |
| NetasciiIo.NetasciiWriter.WriteCr | src/netascii_io.hpp:194-198 | writes one CR to the peer, succeeding exactly when the peer accepts |
| NetasciiIo.NetasciiWriter.WriteChar | src/netascii_io.hpp:141-188 | one loop iteration: the peer receives what `Step` says, or the iteration fails on the first refused peer write, storing nothing |
| NetasciiIo.NetasciiWriter.Write | src/netascii_io.hpp:136-191 | the peer receives the collapsed text `WriteRun` defines, and the flag and the verdict agree with it |
| NetasciiIo.NetasciiWriter.Close | src/netascii_io.hpp:117-129 | a pending CR is written first, the peer is then closed, and the result is the conjunction of both |
| IoManagers.Octet | src/server_app/default_io_manager.hpp:80 | the mode name "octet" |
| IoManagers.NetasciiMode | src/server_app/default_io_manager.hpp:84 | the mode name "netascii" |
| IoManagers.JoinPath | src/server_app/default_io_manager.hpp:36-38 | the root, one '/', then the file name |
| IoManagers.DotDotRefused | src/server_app/default_io_manager.hpp:30-34 | a name containing ".." gets no stream from the file layer, the layered manager or the default manager, in any mode |
| IoManagers.FileLayerIsRawFile | src/server_app/file_data_io_manager.hpp:28-50 | the file layer refuses exactly the names with "..", and otherwise gives an unwrapped file stream on root/name |
| IoManagers.ModeDecision | src/server/default_mode_io_manager.hpp:20-31 | "octet" in any case keeps the stream, "netascii" wraps it, and every other mode gives none |
| IoManagers.ModesExclusive | src/server/default_mode_io_manager.hpp:22-29 | no mode matches both names, so the order of the tests is immaterial |
| IoManagers.LayeredIsDefault | src/server/io_manager.hpp:26-44 | the layered manager (file layer, then mode layer) returns the same stream as the default manager for every request; only the returned stream is compared |
| IoManagers.LayersAreIndependent | src/server/io_manager.hpp:28-31 | the result is the file stream or its netascii wrapper, and modes equal ignoring case give the same result |
| IoManagers.ModeCaseIgnored | src/server_app/default_io_manager.hpp:78-89 | "OCTET" opens the file, "NetAscii" wraps it, "mail" is refused |
| Streams.Read | src/io.hpp:19 | a read fails exactly when it is a plain file that cannot deliver; otherwise it returns the next bytes due, at most `n`, short only at the end |
| Streams.WriterSnap | src/io.hpp:29 | the snapshot holds the open flag and the bytes the file has received |
| Streams.Write | src/io.hpp:29 | a write's verdict and the file's new contents are what `WriteEffect` says for the stream's kind |
| Streams.WriteKeeps | src/file_io.hpp:122-135 | a write never opens or closes the file and never loses bytes already written |
| Streams.PlainWriteStores | src/file_io.hpp:122-135 | a plain write succeeds exactly when the file can take it and then appends the bytes; a refused write changes nothing |
| Streams.NetasciiWriteRestores | src/netascii_io.hpp:136-191 | netascii text written through a fresh netascii writer stores the original bytes |
| Streams.OpenReader | src/server_app/default_io_manager.hpp:78-89 | the stream kind follows the mode; it is open exactly on an existing path, it will deliver the file's bytes (netascii expanded), and only a plain unreadable file fails |
| Streams.OpenWriter | src/server_app/default_io_manager.hpp:91-102 | the stream kind follows the mode; it is open exactly on a creatable path, holds nothing yet and has no CR pending |
| Streams.ManagersBuildOpenable | src/server_app/default_io_manager.hpp:36-40 | every stream the managers build can be opened, on root/name |
| Streams.ClientStreamOpenable | src/client_app/client_put.hpp:87-98 | the clients' streams can be opened, on the local path |
| PacketParser.StringAt | src/deserializer.hpp:72-80 | a string field ends past its start and within the datagram |
| PacketParser.StringAtFindNul | src/deserializer.hpp:72-80 | a string field is the bytes up to the first NUL, ending just past it |
| PacketParser.StringAtShape | src/deserializer.hpp:72-80 | a string field holds no NUL and is followed by one; with no NUL left there is no field |
| PacketParser.Emplace | src/common/packet_parser.hpp:66 | `emplace` adds the key and keeps an existing value |
| PacketParser.EmplaceKeeps | src/common/packet_parser.hpp:66 | `emplace` never changes a value already present |
| PacketParser.ParsePacket | src/common/packet_parser.hpp:20-50 | the method computes the decoding `Parse` defines; a deserialization error gives null |
| PacketParser.ParseFileReq | src/common/packet_parser.hpp:53-71 | file name, mode, then options, as `FileReqOf` decodes them |
| PacketParser.ReadOptions | src/common/packet_parser.hpp:61-68 | the option loop succeeds exactly when `OptionsFrom` decodes, and then returns that map |
| PacketParser.OptionsStep | src/common/packet_parser.hpp:61-67 | one (name, value) pair is one `emplace` |
| PacketParser.ParseData | src/common/packet_parser.hpp:93-103 | block number, then every remaining byte, as `DataOf` decodes it |
| PacketParser.ParseAck | src/common/packet_parser.hpp:105-114 | block number and nothing more, as `AckOf` decodes it |
| PacketParser.ParseError | src/common/packet_parser.hpp:116-126 | code plus message, nothing after it, as `ErrorOf` decodes it |
| PacketParser.ParseOpcode | src/common/packet_parser.hpp:26-41 | under two bytes or an opcode outside 1..5 gives null; a decoded packet carries its opcode, and its variant matches it |
| PacketParser.AckLayout | src/common/packet_parser.hpp:105-114 | an ACK decodes exactly when it is 4 bytes long |
| PacketParser.DataLayout | src/common/packet_parser.hpp:93-103 | a DATA decodes exactly when it has its block number, with every later byte as payload |
| PacketParser.ErrorLayout | src/common/packet_parser.hpp:116-126 | an ERROR decodes exactly when its message's NUL is the last byte |
| PacketParser.OptionsArePairs | src/common/packet_parser.hpp:61-68 | decodable options hold an even number of NULs |
| PacketParser.OptionsEndWithNul | src/common/packet_parser.hpp:61-68 | decodable non-empty options end with a NUL |
| PacketParser.OptionWithoutValue | src/common/packet_parser.hpp:63-64 | a name that ends the datagram has no value and the request is rejected |
| PacketParser.OptionsKeepFirst | src/common/packet_parser.hpp:66 | a repeated option name keeps its first value |
| PacketParser.OptionsFromFields | src/common/packet_parser.hpp:61-68 | options laid out as whole pairs decode to the `emplace` fold of the pairs |
| PacketParser.ParseFileReqLayout | src/common/packet_parser.hpp:53-71 | a request laid out as opcode, name, mode and option pairs decodes to those fields |
| PacketBuilder.Serializer.constructor | src/packet_builder.hpp:22-26 | the serializer appends to the given buffer |
| PacketBuilder.Serializer.WriteUint8 | src/packet_builder.hpp:28-31 | appends one byte |
| PacketBuilder.Serializer.WriteUint16 | src/packet_builder.hpp:33-37 | appends the high byte, then the low byte |
| PacketBuilder.Serializer.WriteString | src/packet_builder.hpp:39-46 | appends the characters and exactly one NUL |
| PacketBuilder.Serializer.WriteBytes | src/packet_builder.hpp:48-51 | appends the bytes |
| PacketBuilder.BuildData | src/packet_builder.hpp:60-71 | the bytes are the DATA encoding, which `DataRoundTrip` decodes back |
| PacketBuilder.BuildError | src/packet_builder.hpp:73-84 | the bytes are the ERROR encoding, which `ErrorRoundTrip` decodes back |
| PacketBuilder.BuildAck | src/packet_builder.hpp:86-96 | the bytes are the ACK encoding, which `AckRoundTrip` decodes back |
| PacketBuilder.EncodedSizes | src/packet_builder.hpp:60-96 | DATA is 4 bytes plus the payload, ACK is 4 bytes, ERROR is 5 plus the message |
| PacketBuilder.DataRoundTrip | src/packet_builder.hpp:60-71 | a DATA packet with opcode 3 decodes back to itself, whatever its payload length |
| PacketBuilder.AckRoundTrip | src/packet_builder.hpp:86-96 | an ACK with opcode 4 decodes back to itself |
| PacketBuilder.ErrorRoundTrip | src/packet_builder.hpp:73-84 | an ERROR with opcode 5 decodes back to itself exactly when its message holds no NUL, and is otherwise rejected |
| PacketBuilder.DecodeEncode | src/common/packet_parser.hpp:93-126 | every DATA, ACK and ERROR datagram the parser accepts is exactly the encoding of what it decodes to |
| PacketBuilder.RequestRoundTrip | src/common/packet_parser.hpp:53-71 | an RRQ/WRQ laid out per RFC 1350 decodes to its name and mode with no options |
| Transport.SendAppends | src/read_connection.hpp:112-118 | `async_send_to` adds exactly its datagram after those already sent and one more send outstanding |
| Transport.CloseQuiets | src/read_connection.hpp:59-73 | `stop` closes the socket and cancels the timer, leaving nothing outstanding and sending nothing |
| Transport.FiveInARow | src/read_connection.hpp:192-215 | four resends after the datagram sent last leave five copies of it at the end of the outbox |
| ClientGets.Accepts | src/client_app/client_get.hpp:228 | a DATA is in order exactly when its number is one past the last ACK, computed in `int`; nothing is accepted after 65535 |
| ClientGets.ClientGet.constructor | src/client_app/client_get.hpp:27-44 | nothing opened, nothing sent, no writer |
| ClientGets.ClientGet.Start | src/client_app/client_get.hpp:46-56 | opens the socket and starts resolving; nothing else changes |
| ClientGets.ClientGet.OnResolveQuery | src/client_app/client_get.hpp:76-98 | no results: nothing happens; otherwise the first result is the server and the RRQ is sent with budget 5 |
| ClientGets.ClientGet.SendRequest | src/client_app/client_get.hpp:100-108 | the RRQ is sent, awaiting an answer with budget 5 |
| ClientGets.ClientGet.SendPacket | src/client_app/client_get.hpp:110-118 | stores the bytes, the expectation and the budget, then sends |
| ClientGets.ClientGet.SendPreparedPacket | src/client_app/client_get.hpp:120-125 | the stored bytes go to the server endpoint |
| ClientGets.ClientGet.Stop | src/client_app/client_get.hpp:58-73 | resolver, timer and socket are closed; nothing else changes |
| ClientGets.ClientGet.Terminate | src/client_app/client_get.hpp:317-321 | only stops, whatever the outcome |
| ClientGets.ClientGet.OnPacketSent | src/client_app/client_get.hpp:127-155 | an error, or a packet expecting no answer, stops; otherwise the timer is armed and a receive is posted |
| ClientGets.ClientGet.OnSendTimeout | src/client_app/client_get.hpp:292-315 | a timer error changes nothing else; otherwise the budget drops by one and the packet is resent while it stays positive, else the download stops |
| ClientGets.ClientGet.OnPacketReceived | src/client_app/client_get.hpp:164-211 | an error stops; after the first DATA, a datagram from another endpoint is ignored; otherwise it is decoded and handled as `Received` says |
| ClientGets.ClientGet.ReceivedFromServer | src/client_app/client_get.hpp:190-210 | undecodable datagrams and other opcodes are ignored, an ERROR stops, a DATA is handled |
| ClientGets.ClientGet.ProcessDataReceived | src/client_app/client_get.hpp:226-284 | out-of-order blocks are ignored; the first block binds the server and opens the file (ERROR 0 or 2 when it cannot); a later block with no writer is ignored (see Findings); the data is written, ERROR 3 on failure, else ACK, awaiting more only after a full block |
| ClientGets.ClientGet.OpenOnFirstData | src/client_app/client_get.hpp:237-263 | marks the request complete and binds the sender; no stream gives ERROR 0, an unopened one ERROR 2, and an open one is ready with nothing written |
| ClientGets.ClientGet.OpenLocal | src/client_app/client_get.hpp:242-262 | the writer built for the mode, ready exactly when it opened, ERROR 2 otherwise |
| ClientGets.ClientGet.SendWriteError | src/client_app/client_get.hpp:245-250 | an ERROR with the given code that expects no answer |
| ClientGets.ClientGet.WriteAndAck | src/client_app/client_get.hpp:265-283 | a failed write sends ERROR 3; otherwise the block is stored and ACKed, the ACK awaiting more only after a full block |
| ClientGets.NullWriterReached | src/client_app/client_get.hpp:237-265 | a state the download reaches from which a retransmitted DATA would be written through the null writer |
| ClientGets.Unanswered1 | src/client_app/client_get.hpp:292-315 | one unanswered round: the send completes, the timer fires, the budget drops by one and the same bytes go to the server once more; nothing else changes |
| ClientGets.Unanswered2 | src/client_app/client_get.hpp:292-315 | two unanswered rounds: the budget drops by two and the same bytes go to the server twice more; nothing else changes |
| ClientGets.Exhausted | src/client_app/client_get.hpp:292-315 | with one retry left, the send's completion and the timeout stop the download |
| ClientGets.Unanswered | src/client_app/client_get.hpp:292-315 | a packet just sent with the full budget of 5 and never answered goes out four more times, five copies in all, then the client stops with a budget of 0 |
| ClientPuts.ClientPut.constructor | src/client_app/client_put.hpp:28-41 | nothing opened, nothing sent, no reader |
| ClientPuts.ClientPut.Start | src/client_app/client_put.hpp:43-67 | the reader is built for the mode; without one, or unopened, the upload ends; otherwise the socket opens and resolving starts, with the whole file due |
| ClientPuts.ClientPut.OnResolveQuery | src/client_app/client_put.hpp:100-122 | no results: nothing happens; otherwise the first result is the server and the WRQ is sent with budget 5 |
| ClientPuts.ClientPut.SendRequest | src/client_app/client_put.hpp:124-132 | the WRQ is sent, awaiting an answer with budget 5 |
| ClientPuts.ClientPut.SendPacket | src/client_app/client_put.hpp:134-142 | stores the bytes, the expectation and the budget, then sends |
| ClientPuts.ClientPut.SendPreparedPacket | src/client_app/client_put.hpp:144-149 | the stored bytes go to the server endpoint |
| ClientPuts.ClientPut.Stop | src/client_app/client_put.hpp:69-84 | resolver, timer and socket are closed; nothing else changes |
| ClientPuts.ClientPut.Terminate | src/client_app/client_put.hpp:314-318 | only stops, whatever the outcome |
| ClientPuts.ClientPut.OnPacketSent | src/client_app/client_put.hpp:151-179 | an error, or a packet expecting no answer, stops; otherwise the timer is armed and a receive is posted |
| ClientPuts.ClientPut.OnSendTimeout | src/client_app/client_put.hpp:289-312 | a timer error changes nothing else; otherwise the budget drops by one and the packet is resent while it stays positive, else the upload stops |
| ClientPuts.ClientPut.OnPacketReceived | src/client_app/client_put.hpp:188-235 | an error stops; after the first ACK, a datagram from another endpoint is ignored; otherwise it is decoded and handled as `Received` says |
| ClientPuts.ClientPut.ReceivedFromServer | src/client_app/client_put.hpp:214-234 | undecodable datagrams and other opcodes are ignored, an ERROR stops, an ACK is handled |
| ClientPuts.ClientPut.ProcessAckReceived | src/client_app/client_put.hpp:243-287 | a wrong block number is ignored; the first ACK binds the server; after the last block the upload stops; otherwise the next block of the file is sent, or ERROR 0 when the read fails |
| ClientPuts.ClientPut.SendNextBlock | src/client_app/client_put.hpp:263-286 | the block number advances; the next at most 512 bytes due are sent and removed from what is due, marked last when short; a failed read sends ERROR 0 |
| ClientPuts.ClientPut.ReadBlock | src/client_app/client_put.hpp:266-279 | at most 512 bytes of what is due, short only at the end; the read fails exactly when the file cannot deliver |
| ClientPuts.ClientPut.SendReadError | src/client_app/client_put.hpp:269-277 | ERROR 0 "cannot read data", expecting no answer; the reader is left as it was |
| ClientPuts.ClientPut.SendBlock | src/client_app/client_put.hpp:279-286 | the DATA is sent awaiting its ACK with budget 5, then marked last when short; the reader is left as it was |
| ClientPuts.Unanswered1 | src/client_app/client_put.hpp:289-312 | one unanswered round: the send completes, the timer fires, the budget drops by one and the same bytes go to the server once more; nothing else changes |
| ClientPuts.Unanswered2 | src/client_app/client_put.hpp:289-312 | two unanswered rounds: the budget drops by two and the same bytes go to the server twice more; nothing else changes |
| ClientPuts.Exhausted | src/client_app/client_put.hpp:289-312 | with one retry left, the send's completion and the timeout stop the upload |
| ClientPuts.Unanswered | src/client_app/client_put.hpp:289-312 | a packet just sent with the full budget of 5 and never answered goes out four more times, five copies in all, then the client stops with a budget of 0 |
| ReadConnections.ReadConnection.constructor | src/read_connection.hpp:29-44 | nothing opened, nothing sent, no reader |
| ReadConnections.ReadConnection.Start | src/read_connection.hpp:46-57 | opens the socket, asks the I/O manager for a reader and sends the first packet as `FirstSent` says |
| ReadConnections.ReadConnection.CreateReader | src/read_connection.hpp:54 | the reader is the one the default manager builds for the request's name and mode, opened on the file system |
| ReadConnections.ReadConnection.SendFirstPacket | src/read_connection.hpp:76-100 | no reader: ERROR 2; unopened: ERROR 1; otherwise the first DATA |
| ReadConnections.ReadConnection.SendPacket | src/read_connection.hpp:102-110 | stores the bytes, the expectation and the budget, then sends |
| ReadConnections.ReadConnection.SendPreparedPacket | src/read_connection.hpp:112-118 | the stored bytes go to the client endpoint |
| ReadConnections.ReadConnection.SendNextDataPacket | src/read_connection.hpp:120-153 | the block number advances (mod 65536); the next at most 512 bytes due are sent and removed from what is due, marked last when short; a failed read sends ERROR 1 |
| ReadConnections.ReadConnection.ReadBlock | src/read_connection.hpp:127-145 | at most 512 bytes of what is due, short only at the end; the read fails exactly when the file cannot deliver |
| ReadConnections.ReadConnection.SendReadError | src/read_connection.hpp:129-141 | ERROR 1 "invalid path", expecting no answer; the reader is left as it was |
| ReadConnections.ReadConnection.SendBlock | src/read_connection.hpp:145-152 | marked last when short, then sent awaiting its ACK with budget 5; the reader is left as it was |
| ReadConnections.ReadConnection.Stop | src/read_connection.hpp:59-73 | socket and timer are closed; nothing else changes |
| ReadConnections.ReadConnection.Terminate | src/read_connection.hpp:290-293 | the server is told, and stops the connection |
| ReadConnections.ReadConnection.OnPacketSent | src/read_connection.hpp:162-190 | an error, or a packet expecting no answer, terminates; otherwise the timer is armed and a receive is posted |
| ReadConnections.ReadConnection.OnSendTimeout | src/read_connection.hpp:192-215 | a timer error changes nothing else; otherwise the budget drops by one and the packet is resent while it stays positive, else the connection terminates |
| ReadConnections.ReadConnection.OnPacketReceived | src/read_connection.hpp:244-288 | an error terminates; a datagram from another endpoint is ignored; otherwise it is decoded and handled as `Received` says |
| ReadConnections.ReadConnection.ReceivedFromClient | src/read_connection.hpp:267-287 | undecodable datagrams and other opcodes are ignored, an ERROR terminates, an ACK is handled |
| ReadConnections.ReadConnection.ProcessAckReceived | src/read_connection.hpp:217-236 | a wrong block number is ignored; otherwise the timer is cancelled, and the last block's ACK terminates while any other sends the next block |
| ReadConnections.Unanswered1 | src/read_connection.hpp:192-215 | one unanswered round: the send completes, the timer fires, the budget drops by one and the same bytes go to the client once more; nothing else changes |
| ReadConnections.Unanswered2 | src/read_connection.hpp:192-215 | two unanswered rounds: the budget drops by two and the same bytes go to the client twice more; nothing else changes |
| ReadConnections.Exhausted | src/read_connection.hpp:192-215 | with one retry left, the send's completion and the timeout terminate the connection |
| ReadConnections.Unanswered | src/read_connection.hpp:192-215 | a packet just sent with the full budget of 5 and never answered goes out four more times, five copies in all, then the connection terminates with a budget of 0 |
| WriteConnections.WriteConnection.constructor | src/write_connection.hpp:29-43 | nothing opened, nothing sent, no writer |
| WriteConnections.WriteConnection.Start | src/write_connection.hpp:45-56 | opens the socket, asks the I/O manager for a writer and sends the first packet as `FirstSent` says |
| WriteConnections.WriteConnection.CreateWriter | src/write_connection.hpp:53 | the writer is the one the default manager builds for the request's name and mode, created on the file system, empty |
| WriteConnections.WriteConnection.SendFirstPacket | src/write_connection.hpp:75-99 | no writer: ERROR 2; unopened: ERROR 1; otherwise ACK 0 awaiting block 1 |
| WriteConnections.WriteConnection.SendAck | src/write_connection.hpp:101-112 | ACK of the block, the next expected block one past it (mod 65536), awaiting more unless last |
| WriteConnections.WriteConnection.SendPacket | src/write_connection.hpp:114-122 | stores the bytes, the expectation and the budget, then sends |
| WriteConnections.WriteConnection.SendPreparedPacket | src/write_connection.hpp:124-130 | the stored bytes go to the client endpoint |
| WriteConnections.WriteConnection.Stop | src/write_connection.hpp:58-72 | socket and timer are closed; nothing else changes |
| WriteConnections.WriteConnection.Terminate | src/write_connection.hpp:292-295 | the server is told, and stops the connection |
| WriteConnections.WriteConnection.OnPacketSent | src/write_connection.hpp:139-167 | an error, or a packet expecting no answer, terminates; otherwise the timer is armed and a receive is posted |
| WriteConnections.WriteConnection.OnSendTimeout | src/write_connection.hpp:169-192 | a timer error changes nothing else; otherwise the budget drops by one and the packet is resent while it stays positive, else the connection terminates |
| WriteConnections.WriteConnection.OnPacketReceived | src/write_connection.hpp:246-290 | an error terminates; a datagram from another endpoint is ignored; otherwise it is decoded and handled as `Received` says |
| WriteConnections.WriteConnection.ReceivedFromClient | src/write_connection.hpp:269-289 | undecodable datagrams and other opcodes are ignored, an ERROR terminates, a DATA is handled |
| WriteConnections.WriteConnection.ProcessDataReceived | src/write_connection.hpp:194-238 | a block other than the expected one is ignored; otherwise it is stored and answered as `Stored` says |
| WriteConnections.WriteConnection.StoreBlock | src/write_connection.hpp:205-237 | the timer is cancelled; a non-empty block is written; a failed write sends ERROR 1, else ACK, awaiting more only after a full block |
| WriteConnections.WriteConnection.AnswerBlock | src/write_connection.hpp:209-230 | ERROR 1 after a failed write, otherwise the block's ACK |
| WriteConnections.WriteConnection.WriteBlock | src/write_connection.hpp:207-222 | an empty block writes nothing and succeeds; otherwise the writer's verdict and new contents are `WriteEffect`'s |
| WriteConnections.WriteConnection.SendWriteError | src/write_connection.hpp:213-218 | ERROR 1 "invalid path", expecting no answer |
| WriteConnections.Unanswered1 | src/write_connection.hpp:169-192 | one unanswered round: the send completes, the timer fires, the budget drops by one and the same bytes go to the client once more; nothing else changes |
| WriteConnections.Unanswered2 | src/write_connection.hpp:169-192 | two unanswered rounds: the budget drops by two and the same bytes go to the client twice more; nothing else changes |
| WriteConnections.Exhausted | src/write_connection.hpp:169-192 | with one retry left, the send's completion and the timeout terminate the connection |
| WriteConnections.Unanswered | src/write_connection.hpp:169-192 | a packet just sent with the full budget of 5 and never answered goes out four more times, five copies in all, then the connection terminates with a budget of 0 |
| Servers.Server.constructor | src/server.hpp:27-34 | no connection registered |
| Servers.Server.HandleServerPacket | src/server.hpp:63-86 | RRQ and WRQ each register exactly one new, started connection of their direction for that request and endpoint; every other opcode leaves the registry unchanged |
| Servers.Server.HandleRrqPacket | src/server.hpp:47-53 | a new read connection for the request and endpoint, registered and started |
| Servers.Server.HandleWrqPacket | src/server.hpp:55-61 | a new write connection for the request and endpoint, registered and started |
| Servers.Server.ConnectionCreated | src/server.hpp:88-95 | the connection is added to the registry, then started |
| Servers.Server.ConnectionTerminated | src/server.hpp:97-112 | the connection is stopped, then removed exactly when registered; an unregistered one leaves the registry unchanged |

## Left out

- asio plumbing is left out: io_context, handler binding through `shared_from_this`, `reuse_address`, and binding to port 0. Completions are method calls, and an aborted completion is not modelled: `stop` drops every outstanding one.
- The receive buffer's `MAX_PACKET_SIZE` truncation is left out: a datagram arrives as the bytes it has.
- Logging to `std::cout`/`std::cerr` is left out.
- The server acceptor (src/server/server_acceptor.hpp), `server::start` and the applications' bootstrap are not part of this model. `HandleServerPacket` receives the decoded packet directly.
- The `try`/`catch` of `handle_server_packet` is left out. The modelled operations raise no exception (no allocation failure, no socket error on open or bind); a connection's start cannot fail in the model.
- Servers.Server.HandleServerPacket: requires an RRQ or WRQ opcode to come with a request variant, as the source's `static_pointer_cast` does. It returns the new connection, which the source keeps only in the registry.
- A connection's `terminate` calls the server's `connection_terminated` with it. The model keeps the two apart. `Terminate` sets `terminated` and stops the connection, as `connection_terminated` does first. `Servers.Server.ConnectionTerminated` is the registry's side, called separately. So the model does not follow the connection and the server through that call as one step.
- The host and port are not resolved. `OnResolveQuery` receives the resolver's results. Resolver errors other than an empty result are not modelled.
- PacketBuilder.RequestRoundTrip: the source has no `build_packet` for RRQ/WRQ, though both clients call one. `EncodeRequest` lays the request out per section 5 of RFC 1350 (opcode, name, NUL, mode, NUL). It sends no options, and is not taken from the source.
- The unused `parse_wrq` (src/common/packet_parser.hpp:73-91) is not modelled. `parse_packet` never calls it.
- `std::tolower` is taken in the "C" locale.
- IoManagers.LayeredIsDefault: compares only the returned stream. The layered writer path (src/server/io_manager.hpp:36-44) builds the file writer first, which opens root/name with "wb" (src/server_app/file_data_io_manager.hpp:64). Only then does the mode layer refuse an unknown mode (src/server/default_mode_io_manager.hpp:33-43). So a refused mode still creates or truncates that file, while the default manager tests the mode before opening anything. `FileSystem` is not changed by an open, so the model does not show this difference.
- stdio is a `FileSystem` value: contents per path, creatable paths, paths whose stream reports an error. `fread` returns every byte asked for unless at end of file; partial reads are not modelled. The one-byte `fgetc` path of src/common/file_io.hpp:87-98 reads the same bytes.
- The netascii reader and writer of src/file_io.hpp:141-225 are stubs, whose `read`/`write` always fail. The model uses those of src/netascii_io.hpp, which the I/O managers include.
- A netascii stream wraps a file, never another netascii stream.
- No transfer closes its stream: the source never calls `close`, and the destructor's close is not modelled. So a netascii writer's pending CR is never flushed, and the bytes a file has received are those passed to `write`.
- The client's `m_writer`/`m_reader` and the connections' streams are references to class objects, with `ReaderRef`/`WriterRef` in place of the virtual `reader`/`writer` interfaces.
- The receive handlers switch on the packet's variant where the source switches on `m_op`. The two agree for every decoded packet (`PacketParser.ParseOpcode`). `HandleServerPacket` switches on `op`, as the source does.
- Dallying after the final ACK is left out, as the source leaves it out.

## Findings

| source | as written | input that shows it | evidently intended | confidence | as-written member | corrected member |
|---|---|---|---|---|---|---|
| src/client_app/client_get.hpp:237-265 | when the first DATA arrives and no writer can be built for the mode, the client marks the request complete, sends ERROR 0 and returns; a retransmission of that DATA from the server then passes the completion check and reaches `m_writer->write` on a null writer | a download in a mode the client builds no stream for ("mail"): the RRQ times out once and is resent, so two receives are posted; the first DATA 1 is answered with ERROR 0, and a second copy of DATA 1 completes the other receive and reaches the write through the null writer | a DATA arriving while there is no writer is ignored | low; not executed | ClientGets.NullWriterReached | ClientGets.ClientGet.ProcessDataReceived |
