/** The server side of a read request (RRQ): the connection sends the file
    block by block, each DATA waiting for its ACK, with retransmission on
    timeout. Socket, timer and the asynchronous completions are an `Io`
    value (see `Transport`), with one method per completion handler. */
module ReadConnections {
  import opened Wire
  import opened FileIo
  import opened PacketParser
  import opened PacketBuilder
  import opened IoManagers
  import opened NetasciiIo
  import opened Streams
  import opened Transport

  /** The fields a handler of `read_connection` changes, as a value;
      `terminated` records that the connection told the server it is done. */
  datatype ReadState = ReadState(
    lastSentPacketId: u16, lastPacketSent: bool, responseExpected: bool, retryCounter: int,
    outPacketData: seq<byte>, io: Io, terminated: bool)

  /** What the constructor leaves: nothing opened, nothing sent. */
  const Unstarted: ReadState := ReadState(0, false, false, 0, [], Idle, false)

  /** `stop`, as the server's `connection_terminated` calls it. */
  function Stopped(s: ReadState): ReadState
  {
    s.(io := Closed(s.io))
  }

  /** `terminate`: the server is told, and it stops the connection. */
  function Ended(s: ReadState): ReadState
  {
    Stopped(s).(terminated := true)
  }

  /** The ERROR the connection sends when the file fails mid-transfer. */
  function ReadError(): seq<byte>
  {
    EncodeError(ErrorPkt(OP_ERROR, ERRCODE_FILE_NOT_FOUND, MSG_INVALID_PATH))
  }

  class ReadConnection {
    /** `m_request_packet`: the RRQ that created the connection. */
    const request: Packet
    /** `m_client_endpoint`: where the request came from. */
    const clientEndpoint: Endpoint
    /** The root directory of the server's io manager. */
    const root: Str

    var reader: Option<ReaderRef>
    var lastPacketSent: bool
    var lastSentPacketId: u16
    var responseExpected: bool
    var retryCounter: int
    var outPacketData: seq<byte>
    /** The socket and the timer. */
    var io: Io
    /** `terminate()` ran: the server was told and stopped the connection. */
    var terminated: bool

    /** The payload of the DATA in `outPacketData`. */
    ghost var payload: seq<byte>
    ghost var Repr: set<object>

    /** `send_prepared_packet`: `outPacketData` goes to the client. */
    function Resent(s: ReadState): ReadState
    {
      s.(io := SendTo(s.io, clientEndpoint, s.outPacketData))
    }

    /** `send_packet`. */
    function Sent(s: ReadState, bytes: seq<byte>, expectResponse: bool, retries: int): ReadState
    {
      Resent(s.(outPacketData := bytes, responseExpected := expectResponse, retryCounter := retries))
    }

    /** The reader is a separate, well-formed stream. */
    ghost predicate ReaderOk()
      reads this`reader, if reader.Some? then ReaderRepr(reader.value) else {}
    {
      reader.Some? ==> this !in ReaderRepr(reader.value) && ReaderValid(reader.value)
    }

    /** Every datagram goes to the client the request came from. */
    ghost predicate Addressed()
      reads this`io
    {
      forall d | d in io.outbox :: d.to == clientEndpoint
    }

    /** The retry budget stays within its initial value, and a packet
        awaiting an answer on an open socket has a send left. */
    ghost predicate Budget()
      reads this`retryCounter, this`responseExpected, this`io
    {
      0 <= retryCounter <= DEFAULT_RETRY_COUNTER &&
      (responseExpected && io.socketOpen ==> retryCounter >= 1)
    }

    /** A packet awaiting an answer is the DATA numbered
        `lastSentPacketId`, whose payload is at most one block and is short
        exactly when it is the last. */
    ghost predicate Answer()
      reads this`responseExpected, this`outPacketData, this`lastSentPacketId, this`payload, this`lastPacketSent
    {
      responseExpected ==>
        |payload| <= DEFAULT_DATA_SIZE && outPacketData == EncodeData(DataPkt(OP_DATA, lastSentPacketId, payload)) &&
        (lastPacketSent <==> |payload| < DEFAULT_DATA_SIZE)
    }

    /** Nothing is outstanding on a closed socket and nothing is resolved;
        a DATA, an armed receive or a finished transfer needs a reader; the
        timer only runs while an answer is awaited; a terminated connection
        is closed. */
    ghost predicate Lifecycle()
      reads this`io, this`reader, this`responseExpected, this`lastPacketSent, this`terminated
    {
      Quiet(io) && !io.resolvePending &&
      (responseExpected || lastPacketSent || io.receivesPending > 0 ==> reader.Some?) &&
      (io.timerArmed ==> responseExpected) && (terminated ==> !io.socketOpen)
    }

    ghost predicate Frame()
      reads this, Repr
    {
      this in Repr && (reader.Some? ==> ReaderRepr(reader.value) <= Repr) && ReaderOk()
    }

    /** `Answer` only fails between numbering a block and sending it. */
    ghost predicate Settled()
      reads this, Repr
    {
      Frame() && request.FileReq? && Addressed() && Budget() && Lifecycle()
    }

    ghost predicate Valid()
      reads this, Repr
    {
      Settled() && Answer()
    }

    function State(): ReadState
      reads this
    {
      ReadState(lastSentPacketId, lastPacketSent, responseExpected, retryCounter, outPacketData, io, terminated)
    }

    /** What the reader will still deliver; nothing without a reader. */
    ghost function Remaining(): seq<byte>
      reads this, if reader.Some? then ReaderRepr(reader.value) else {}
    {
      if reader.Some? then ReaderRemaining(reader.value) else []
    }

    /** The next read of the reader fails. */
    predicate ReadFails()
      reads this, if reader.Some? then ReaderRepr(reader.value) else {}
    {
      reader.Some? && ReaderFails(reader.value)
    }

    predicate Initial()
      reads this
    {
      reader.None? && State() == Unstarted
    }

    constructor (root: Str, request: Packet, requestingEndpoint: Endpoint)
      requires request.FileReq?
      ensures Valid() && fresh(Repr) && Initial()
      ensures this.root == root && this.request == request && clientEndpoint == requestingEndpoint
    {
      this.root := root;
      this.request := request;
      clientEndpoint := requestingEndpoint;
      reader := None;
      lastPacketSent := false;
      lastSentPacketId := 0;
      responseExpected := false;
      retryCounter := 0;
      outPacketData := [];
      io := Idle;
      terminated := false;
      payload := [];
      Repr := {this};
    }

    /** The stream the server's `default_io_manager` builds for the request. */
    function RequestedStream(): Option<StreamSpec>
      reads this
      requires request.FileReq?
    {
      DefaultStream(root, request.filename, request.mode)
    }

    /** What `start` leaves on the disk `fs`: the socket is open and one
        packet went out, an ERROR 2 without a reader, an ERROR 1 when the
        file does not exist, otherwise the first block of what the reader
        delivers (`NextDataSent`). */
    ghost predicate FirstSent(fs: FileSystem)
      requires request.FileReq?
      reads this, if reader.Some? then ReaderRepr(reader.value) else {}
    {
      var began := Unstarted.(io := Idle.(socketOpen := true));
      var spec := RequestedStream();
      if spec.None? then
        State() == Sent(began, EncodeError(ErrorPkt(OP_ERROR, ERRCODE_ACCESS_VIOLATION, MSG_INVALID_PATH_OR_MODE)), false, 0)
      else
        Openable(spec.value) &&
        if SpecPath(spec.value) !in fs.files then
          State() == Sent(began, EncodeError(ErrorPkt(OP_ERROR, ERRCODE_FILE_NOT_FOUND, MSG_FILE_NOT_FOUND)), false, 0)
        else
          NextDataSent(began, Contents(fs, spec.value), spec.value.File? && SpecPath(spec.value) in fs.faulty)
    }

    /** `start`: opens the socket, asks the io manager for a reader on the
        disk `fs` and sends the first packet. */
    method Start(fs: FileSystem)
      requires Valid() && Initial()
      modifies Repr
      ensures Valid() && fresh(Repr - old(Repr))
      ensures reader.None? <==> RequestedStream().None?
      ensures reader.Some? ==> fresh(ReaderRepr(reader.value))
      ensures reader.Some? ==> (reader.value.PlainReader? <==> RequestedStream().value.File?)
      ensures FirstSent(fs)
    {
      io := io.(socketOpen := true);
      CreateReader(fs);
      SendFirstPacket();
    }

    /** `create_reader` of the server's io manager on the disk `fs`. */
    method CreateReader(fs: FileSystem)
      requires Valid() && reader.None?
      modifies this`reader, this`Repr
      ensures Valid() && fresh(Repr - old(Repr))
      ensures reader.None? <==> RequestedStream().None?
      ensures reader.Some? ==>
        var spec := RequestedStream().value;
        Openable(spec) && fresh(ReaderRepr(reader.value)) && (reader.value.PlainReader? <==> spec.File?) &&
        (ReaderIsOpen(reader.value) <==> SpecPath(spec) in fs.files) && Remaining() == Contents(fs, spec) &&
        (ReadFails() <==> spec.File? && (SpecPath(spec) !in fs.files || SpecPath(spec) in fs.faulty))
    {
      var spec := RequestedStream();
      if spec.Some? {
        ManagersBuildOpenable(root, request.filename, request.mode);
        var r := OpenReader(fs, spec.value);
        reader := Some(r);
        Repr := Repr + ReaderRepr(r);
      }
    }

    /** `send_first_packet`: ERROR 2 without a reader, ERROR 1 when it did
        not open, otherwise the first DATA. */
    method SendFirstPacket()
      requires Valid() && State() == Unstarted.(io := Idle.(socketOpen := true))
      modifies Repr
      ensures Valid() && Repr == old(Repr) && reader == old(reader)
      ensures reader.None? ==>
        State() == Sent(old(State()), EncodeError(ErrorPkt(OP_ERROR, ERRCODE_ACCESS_VIOLATION, MSG_INVALID_PATH_OR_MODE)), false, 0)
      ensures reader.Some? && !old(ReaderIsOpen(reader.value)) ==>
        State() == Sent(old(State()), EncodeError(ErrorPkt(OP_ERROR, ERRCODE_FILE_NOT_FOUND, MSG_FILE_NOT_FOUND)), false, 0)
      ensures reader.Some? && old(ReaderIsOpen(reader.value)) ==>
        NextDataSent(old(State()), old(Remaining()), old(ReadFails()))
    {
      if reader.None? {
        var bytes := BuildError(ErrorPkt(OP_ERROR, ERRCODE_ACCESS_VIOLATION, MSG_INVALID_PATH_OR_MODE));
        SendPacket(bytes, false, 0);
      } else if !ReaderIsOpen(reader.value) {
        var bytes := BuildError(ErrorPkt(OP_ERROR, ERRCODE_FILE_NOT_FOUND, MSG_FILE_NOT_FOUND));
        SendPacket(bytes, false, 0);
      } else {
        SendNextDataPacket();
      }
    }

    /** `send_packet`. */
    method SendPacket(bytes: seq<byte>, expectResponse: bool, retries: int)
      modifies this`outPacketData, this`responseExpected, this`retryCounter, this`io
      ensures State() == Sent(old(State()), bytes, expectResponse, retries)
    {
      outPacketData := bytes;
      responseExpected := expectResponse;
      retryCounter := retries;
      SendPreparedPacket();
    }

    /** `send_prepared_packet`. */
    method SendPreparedPacket()
      modifies this`io
      ensures State() == Resent(old(State()))
    {
      io := SendTo(io, clientEndpoint, outPacketData);
    }

    /** What `send_next_data_packet` leaves, from the state `before`, the
        bytes `due` from the reader and whether the read `fails`: the block
        number is the previous one plus one, wrapping after 65535; a failed
        read sends ERROR 1, otherwise the DATA holds the next bytes due, at
        most 512 of them, and a short one is the last. */
    ghost predicate NextDataSent(before: ReadState, due: seq<byte>, fails: bool)
      reads this, if reader.Some? then ReaderRepr(reader.value) else {}
    {
      var id := ToU16(before.lastSentPacketId + 1);
      var block := due[..Min(DEFAULT_DATA_SIZE, |due|)];
      if fails then
        State() == Sent(before.(lastSentPacketId := id), ReadError(), false, 0) && Remaining() == due
      else
        State() == Sent(before.(lastSentPacketId := id, lastPacketSent := |due| < DEFAULT_DATA_SIZE),
          EncodeData(DataPkt(OP_DATA, id, block)), true, DEFAULT_RETRY_COUNTER) &&
        Remaining() == due[|block|..]
    }

    /** `send_next_data_packet`: the block number is incremented before
        the read, as in the source. */
    method SendNextDataPacket()
      requires Settled() && reader.Some? && !lastPacketSent && !io.timerArmed && io.socketOpen
      modifies Repr
      ensures Valid() && Repr == old(Repr) && reader == old(reader)
      ensures NextDataSent(old(State()), old(Remaining()), old(ReadFails()))
    {
      lastSentPacketId := ToU16(lastSentPacketId + 1);
      ghost var mid := State();
      assert mid == old(State()).(lastSentPacketId := ToU16(old(lastSentPacketId) + 1));
      ghost var due := Remaining();
      assert due == old(Remaining());
      var ok, block := ReadBlock();
      if !ok {
        SendReadError();
        return;
      }
      ShortOnlyAtEndIsPrefix(block, Remaining(), due, DEFAULT_DATA_SIZE);
      SendBlock(block);
    }

    /** The read of `send_next_data_packet`: at most one block of what is
        due, short only at the end; a failed read has nothing due. */
    method ReadBlock() returns (ok: bool, block: seq<byte>)
      requires Settled() && reader.Some?
      modifies ReaderRepr(reader.value)
      ensures Settled() && State() == old(State())
      ensures !ok <==> old(ReadFails())
      ensures !ok ==> Remaining() == old(Remaining()) == []
      ensures ok ==> block + Remaining() == old(Remaining())
      ensures ok ==> |block| <= DEFAULT_DATA_SIZE && (|block| < DEFAULT_DATA_SIZE ==> Remaining() == [])
    {
      ok, block := Read(reader.value, DEFAULT_DATA_SIZE);
    }

    /** The ERROR of a failed read: it awaits no answer, so its completion
        ends the transfer. */
    method SendReadError()
      requires Settled() && io.socketOpen && !io.timerArmed
      modifies this`outPacketData, this`responseExpected, this`retryCounter, this`io
      ensures Valid() && Repr == old(Repr) && Remaining() == old(Remaining())
      ensures State() == Sent(old(State()), ReadError(), false, 0)
    {
      var bytes := BuildError(ErrorPkt(OP_ERROR, ERRCODE_FILE_NOT_FOUND, MSG_INVALID_PATH));
      SendPacket(bytes, false, 0);
    }

    /** The DATA of `send_next_data_packet`: marked last when short, then
        sent awaiting its ACK with a budget of 5. */
    method SendBlock(block: seq<byte>)
      requires Settled() && reader.Some? && !lastPacketSent && io.socketOpen && !io.timerArmed
      requires |block| <= DEFAULT_DATA_SIZE
      modifies this`lastPacketSent, this`payload, this`outPacketData, this`responseExpected, this`retryCounter, this`io
      ensures Valid() && Repr == old(Repr) && Remaining() == old(Remaining())
      ensures State() == Sent(old(State()).(lastPacketSent := |block| < DEFAULT_DATA_SIZE),
        EncodeData(DataPkt(OP_DATA, lastSentPacketId, block)), true, DEFAULT_RETRY_COUNTER)
    {
      if |block| < DEFAULT_DATA_SIZE {
        lastPacketSent := true;
      }
      var bytes := BuildData(DataPkt(OP_DATA, lastSentPacketId, block));
      payload := block;
      SendPacket(bytes, true, DEFAULT_RETRY_COUNTER);
    }

    /** `stop`, as `connection_terminated` calls it. */
    method Stop()
      modifies this`io
      ensures State() == Stopped(old(State()))
    {
      io := Closed(io);
    }

    /** `terminate`: the server's `connection_terminated` stops the
        connection (and drops it from its registry, see `Servers`). */
    method Terminate()
      modifies this`io, this`terminated
      ensures State() == Ended(old(State()))
    {
      terminated := true;
      Stop();
    }

    /** `on_packet_sent`: a failed send ends the transfer; after a send
        that expects an answer the timer and a receive are armed, after any
        other send (an ERROR) the transfer ends. */
    method OnPacketSent(failed: bool)
      requires Valid() && io.sendsInFlight > 0
      modifies this
      ensures Valid() && Repr == old(Repr)
      ensures failed || !old(responseExpected) ==>
        State() == Ended(old(State()))
      ensures !failed && old(responseExpected) ==>
        State() == old(State()).(io := old(io).(sendsInFlight := old(io.sendsInFlight) - 1, timerArmed := true,
          receivesPending := old(io.receivesPending) + 1))
    {
      io := io.(sendsInFlight := io.sendsInFlight - 1);
      if failed {
        Terminate();
        return;
      }
      if responseExpected {
        io := io.(timerArmed := true, receivesPending := io.receivesPending + 1);
      } else {
        Terminate();
      }
    }

    /** `on_send_timeout`: a timer error is ignored; otherwise the same
        bytes are sent again while the decremented counter stays positive,
        and the transfer ends when it reaches zero. */
    method OnSendTimeout(failed: bool)
      requires Valid() && io.timerArmed
      modifies this
      ensures Valid() && Repr == old(Repr)
      ensures failed ==> State() == old(State()).(io := old(io).(timerArmed := false))
      ensures !failed && old(retryCounter) > 1 ==>
        State() == Resent(old(State()).(io := old(io).(timerArmed := false), retryCounter := old(retryCounter) - 1))
      ensures !failed && old(retryCounter) <= 1 ==>
        State() == Ended(old(State()).(retryCounter := old(retryCounter) - 1))
    {
      io := io.(timerArmed := false);
      if failed {
        return;
      }
      retryCounter := retryCounter - 1;
      if retryCounter > 0 {
        SendPreparedPacket();
      } else {
        Terminate();
      }
    }

    /** `on_packet_received`: a receive error ends the transfer; a
        datagram from another endpoint is dropped; one from the client is
        decoded and handled. No receive is re-armed here: the next one
        follows the next send. */
    method OnPacketReceived(from: Endpoint, bytes: seq<byte>, failed: bool)
      requires Valid() && io.receivesPending > 0
      modifies Repr
      ensures Valid() && Repr == old(Repr)
      ensures failed ==>
        State() == Ended(old(State())) && Remaining() == old(Remaining()) && ReadFails() == old(ReadFails())
      ensures !failed && from != clientEndpoint ==>
        State() == old(State()).(io := old(io).(receivesPending := old(io.receivesPending) - 1)) &&
        Remaining() == old(Remaining()) && ReadFails() == old(ReadFails())
      ensures !failed && from == clientEndpoint ==>
        Received(bytes, old(State()).(io := old(io).(receivesPending := old(io.receivesPending) - 1)),
          old(Remaining()), old(ReadFails()))
    {
      io := io.(receivesPending := io.receivesPending - 1);
      if failed {
        Terminate();
        return;
      }
      if clientEndpoint != from {
        return;
      }
      ghost var s := State();
      assert s == old(State()).(io := old(io).(receivesPending := old(io.receivesPending) - 1));
      ghost var due := Remaining();
      ghost var fails := ReadFails();
      assert due == old(Remaining()) && fails == old(ReadFails());
      ReceivedFromClient(bytes);
    }

    /** What a datagram from the client leaves, from the state `before`,
        the bytes `due` from the reader and whether a read `fails`: one that
        does not decode changes nothing, an ERROR ends the transfer, an ACK
        is processed, any other packet is ignored. */
    ghost predicate Received(bytes: seq<byte>, before: ReadState, due: seq<byte>, fails: bool)
      reads this, if reader.Some? then ReaderRepr(reader.value) else {}
    {
      match Parse(bytes)
      case None => State() == before && Remaining() == due
      case Some(p) =>
        if p.ErrorPkt? then State() == Ended(before) && Remaining() == due
        else if p.AckPkt? then AckHandled(p.blockNo, before, due, fails)
        else State() == before && Remaining() == due
    }

    /** The part of `on_packet_received` after the endpoint check:
        `parse_packet`, then the `switch` on the opcode (which is the
        variant, see `ParseOpcode`). */
    method ReceivedFromClient(bytes: seq<byte>)
      requires Valid() && io.socketOpen && reader.Some?
      modifies Repr
      ensures Valid() && Repr == old(Repr)
      ensures Received(bytes, old(State()), old(Remaining()), old(ReadFails()))
    {
      var packet := ParsePacket(bytes);
      if packet.None? {
        return;
      }
      var p := packet.value;
      if p.AckPkt? {
        ProcessAckReceived(p);
      } else if p.ErrorPkt? {
        Terminate();
      }
    }

    /** What `process_ack_received` leaves for ACK `blockNo`: an ACK for
        another block changes nothing, not even the timer; a matching one
        cancels the timer, and then ends the transfer after the last block
        or sends the next one. */
    ghost predicate AckHandled(blockNo: u16, before: ReadState, due: seq<byte>, fails: bool)
      reads this, if reader.Some? then ReaderRepr(reader.value) else {}
    {
      if blockNo != before.lastSentPacketId then State() == before && Remaining() == due
      else
        var mid := before.(io := before.io.(timerArmed := false));
        if before.lastPacketSent then State() == Ended(mid) && Remaining() == due
        else NextDataSent(mid, due, fails)
    }

    /** `process_ack_received`. */
    method ProcessAckReceived(p: Packet)
      requires Valid() && p.AckPkt? && io.socketOpen && reader.Some?
      modifies Repr
      ensures Valid() && Repr == old(Repr)
      ensures AckHandled(p.blockNo, old(State()), old(Remaining()), old(ReadFails()))
    {
      if p.blockNo != lastSentPacketId {
        return;
      }
      io := io.(timerArmed := false);
      ghost var mid := State();
      ghost var due := Remaining();
      assert due == old(Remaining()) && ReadFails() == old(ReadFails());
      if lastPacketSent {
        Terminate();
        return;
      }
      SendNextDataPacket();
      assert NextDataSent(mid, due, old(ReadFails()));
    }
  }

  /** One round without an answer: the send completes, the timer fires and
      the same packet goes out again with one retry fewer. */
  method Unanswered1(c: ReadConnection)
    requires c.Valid() && c.responseExpected && c.retryCounter > 1 && c.io.sendsInFlight > 0
    modifies c
    ensures c.Valid() && c.Repr == old(c.Repr)
    ensures c.State() == old(c.State()).(retryCounter := old(c.retryCounter) - 1,
      io := old(c.io).(outbox := old(c.io.outbox) + [Datagram(c.clientEndpoint, old(c.outPacketData))],
        receivesPending := old(c.io.receivesPending) + 1, timerArmed := false))
  {
    c.OnPacketSent(false);
    c.OnSendTimeout(false);
  }

  /** Two rounds without an answer. */
  method Unanswered2(c: ReadConnection)
    requires c.Valid() && c.responseExpected && c.retryCounter > 2 && c.io.sendsInFlight > 0
    modifies c
    ensures c.Valid() && c.Repr == old(c.Repr)
    ensures var d := Datagram(c.clientEndpoint, old(c.outPacketData));
      c.State() == old(c.State()).(retryCounter := old(c.retryCounter) - 2,
        io := old(c.io).(outbox := old(c.io.outbox) + [d, d],
          receivesPending := old(c.io.receivesPending) + 2, timerArmed := false))
  {
    ghost var d := Datagram(c.clientEndpoint, c.outPacketData);
    ghost var s := c.State();
    Unanswered1(c);
    assert c.State() == s.(retryCounter := s.retryCounter - 1, io := s.io.(outbox := s.io.outbox + [d],
      receivesPending := s.io.receivesPending + 1, timerArmed := false));
    Unanswered1(c);
    assert c.io.outbox == s.io.outbox + [d, d];
  }

  /** The last round without an answer: the send completes and the timer
      fires with one retry left, so the transfer ends. */
  method Exhausted(c: ReadConnection)
    requires c.Valid() && c.responseExpected && c.retryCounter == 1 && c.io.sendsInFlight > 0
    modifies c
    ensures c.State() == Ended(old(c.State()).(retryCounter := 0))
  {
    c.OnPacketSent(false);
    c.OnSendTimeout(false);
  }

  /** A client that never answers: the DATA just sent with the full budget
      of 5 goes out four more times, once per timeout, and the fifth timeout
      ends the transfer, so the client is sent that packet five times in
      all. */
  method Unanswered(c: ReadConnection)
    requires c.Valid() && c.responseExpected && c.retryCounter == DEFAULT_RETRY_COUNTER
    requires c.io.sendsInFlight > 0 && c.io.outbox != []
    requires c.io.outbox[|c.io.outbox| - 1] == Datagram(c.clientEndpoint, c.outPacketData)
    modifies c
    ensures var d := Datagram(c.clientEndpoint, old(c.outPacketData));
      c.State() == Ended(old(c.State()).(retryCounter := 0, io := old(c.io).(outbox := old(c.io.outbox) + [d, d, d, d])))
    ensures var d := Datagram(c.clientEndpoint, old(c.outPacketData));
      c.io.outbox[|old(c.io.outbox)| - 1..] == [d, d, d, d, d]
  {
    ghost var d := Datagram(c.clientEndpoint, c.outPacketData);
    ghost var s := c.State();
    Unanswered2(c);
    Unanswered2(c);
    assert c.io.outbox == s.io.outbox + [d, d, d, d];
    assert c.State() == s.(retryCounter := 1, io := s.io.(outbox := s.io.outbox + [d, d, d, d],
      receivesPending := s.io.receivesPending + 4, timerArmed := false));
    Exhausted(c);
    FiveInARow(s.io.outbox, d);
  }
}
