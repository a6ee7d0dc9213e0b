/** The server side of a write request (WRQ): the connection acknowledges
    the request with ACK 0, then stores each DATA block that carries the
    expected number and acknowledges it; a short block is the last one.
    Socket, timer and completions are an `Io` value, as in
    `ReadConnections`. */
module WriteConnections {
  import opened Wire
  import opened FileIo
  import opened PacketParser
  import opened PacketBuilder
  import opened IoManagers
  import opened NetasciiIo
  import opened Streams
  import opened Transport

  /** The fields a handler of `write_connection` changes, as a value;
      `terminated` records that the connection told the server it is done. */
  datatype WriteState = WriteState(
    nextExpectedPacketId: u16, responseExpected: bool, retryCounter: int, outPacketData: seq<byte>,
    io: Io, terminated: bool)

  /** What the constructor leaves: nothing opened, nothing sent. */
  const Unstarted: WriteState := WriteState(0, false, 0, [], Idle, false)

  /** `stop`, as the server's `connection_terminated` calls it. */
  function Stopped(s: WriteState): WriteState
  {
    s.(io := Closed(s.io))
  }

  /** `terminate`: the server is told, and it stops the connection. */
  function Ended(s: WriteState): WriteState
  {
    Stopped(s).(terminated := true)
  }

  /** The ERROR the connection sends when a request or a write fails:
      error 1 or 2, always with the message "invalid path". */
  function PathError(code: u16): seq<byte>
  {
    EncodeError(ErrorPkt(OP_ERROR, code, MSG_INVALID_PATH))
  }

  /** What storing a DATA payload does to the writer: an empty block is
      not written, so it cannot fail. */
  function StoreEffect(netascii: bool, file: WriterState, data: seq<byte>): (bool, WriterState)
  {
    if data == [] then (true, file) else WriteEffect(netascii, file, data)
  }

  class WriteConnection {
    /** `m_request_packet`: the WRQ that created the connection. */
    const request: Packet
    /** `m_client_endpoint`: where the request came from. */
    const clientEndpoint: Endpoint
    /** The root directory of the server's io manager. */
    const root: Str

    var writer: Option<WriterRef>
    var nextExpectedPacketId: u16
    var responseExpected: bool
    var retryCounter: int
    var outPacketData: seq<byte>
    /** The socket and the timer. */
    var io: Io
    /** `terminate()` ran: the server was told and stopped the connection. */
    var terminated: bool

    /** The block number of the ACK in `outPacketData`. */
    ghost var ackedBlock: u16
    ghost var Repr: set<object>

    /** `send_prepared_packet`: `outPacketData` goes to the client. */
    function Resent(s: WriteState): WriteState
    {
      s.(io := SendTo(s.io, clientEndpoint, s.outPacketData))
    }

    /** `send_packet`. */
    function Sent(s: WriteState, bytes: seq<byte>, expectResponse: bool, retries: int): WriteState
    {
      Resent(s.(outPacketData := bytes, responseExpected := expectResponse, retryCounter := retries))
    }

    /** The writer is a separate stream. */
    ghost predicate WriterOk()
      reads this`writer
    {
      writer.Some? ==> this !in WriterRepr(writer.value)
    }

    /** Every datagram goes to the client the request came from. */
    ghost predicate Addressed()
      reads this`io
    {
      forall d | d in io.outbox :: d.to == clientEndpoint
    }

    /** The retry budget stays within its initial value, and a packet
        awaiting an answer on an open socket has a send left. */
    ghost predicate Budget()
      reads this`retryCounter, this`responseExpected, this`io
    {
      0 <= retryCounter <= DEFAULT_RETRY_COUNTER &&
      (responseExpected && io.socketOpen ==> retryCounter >= 1)
    }

    /** A packet awaiting an answer is an ACK, and the block expected next
        is the one after it. */
    ghost predicate Answer()
      reads this`responseExpected, this`outPacketData, this`ackedBlock, this`nextExpectedPacketId
    {
      responseExpected ==>
        outPacketData == EncodeAck(AckPkt(OP_ACK, ackedBlock)) && nextExpectedPacketId == ToU16(ackedBlock + 1)
    }

    /** Nothing is outstanding on a closed socket and nothing is resolved;
        an ACK awaiting an answer or an armed receive needs a writer; the
        timer only runs while an answer is awaited; a terminated connection
        is closed. */
    ghost predicate Lifecycle()
      reads this`io, this`writer, this`responseExpected, this`terminated
    {
      Quiet(io) && !io.resolvePending &&
      (responseExpected || io.receivesPending > 0 ==> writer.Some?) &&
      (io.timerArmed ==> responseExpected) && (terminated ==> !io.socketOpen)
    }

    ghost predicate Valid()
      reads this, Repr
    {
      this in Repr && (writer.Some? ==> WriterRepr(writer.value) <= Repr) && WriterOk() &&
      request.FileReq? && Addressed() && Budget() && Answer() && Lifecycle()
    }

    function State(): WriteState
      reads this
    {
      WriteState(nextExpectedPacketId, responseExpected, retryCounter, outPacketData, io, terminated)
    }

    /** The file and the netascii filter; nothing without a writer. */
    function FileState(): WriterState
      reads this, if writer.Some? then WriterRepr(writer.value) else {}
    {
      if writer.Some? then WriterSnap(writer.value) else WriterState(false, [], false, false)
    }

    predicate Initial()
      reads this
    {
      writer.None? && State() == Unstarted
    }

    constructor (root: Str, request: Packet, requestingEndpoint: Endpoint)
      requires request.FileReq?
      ensures Valid() && fresh(Repr) && Initial()
      ensures this.root == root && this.request == request && clientEndpoint == requestingEndpoint
    {
      this.root := root;
      this.request := request;
      clientEndpoint := requestingEndpoint;
      writer := None;
      nextExpectedPacketId := 0;
      responseExpected := false;
      retryCounter := 0;
      outPacketData := [];
      io := Idle;
      terminated := false;
      ackedBlock := 0;
      Repr := {this};
    }

    /** The stream the server's `default_io_manager` builds for the request. */
    function RequestedStream(): Option<StreamSpec>
      reads this
      requires request.FileReq?
    {
      DefaultStream(root, request.filename, request.mode)
    }

    /** What `start` leaves on the disk `fs`: the socket is open and one
        packet went out, an ERROR 2 without a writer, an ERROR 1 when the
        file cannot be created, otherwise ACK 0, awaiting block 1; a writer
        is a new, empty file. */
    ghost predicate FirstSent(fs: FileSystem)
      requires request.FileReq?
      reads this, if writer.Some? then WriterRepr(writer.value) else {}
    {
      var began := Unstarted.(io := Idle.(socketOpen := true));
      var spec := RequestedStream();
      if spec.None? then
        State() == Sent(began, PathError(ERRCODE_ACCESS_VIOLATION), false, 0)
      else
        Openable(spec.value) && writer.Some? && WriterSnap(writer.value) == NewWriterState(fs, spec.value) &&
        if SpecPath(spec.value) !in fs.creatable then
          State() == Sent(began, PathError(ERRCODE_FILE_NOT_FOUND), false, 0)
        else
          State() == Sent(began.(nextExpectedPacketId := 1), EncodeAck(AckPkt(OP_ACK, 0)), true, DEFAULT_RETRY_COUNTER)
    }

    /** `start`: opens the socket, asks the io manager for a writer on the
        disk `fs` and answers the request. */
    method Start(fs: FileSystem)
      requires Valid() && Initial()
      modifies Repr
      ensures Valid() && fresh(Repr - old(Repr))
      ensures writer.None? <==> RequestedStream().None?
      ensures writer.Some? ==> fresh(WriterRepr(writer.value))
      ensures writer.Some? ==> (writer.value.PlainWriter? <==> RequestedStream().value.File?)
      ensures FirstSent(fs)
    {
      io := io.(socketOpen := true);
      CreateWriter(fs);
      SendFirstPacket();
    }

    /** `create_writer` of the server's io manager on the disk `fs`. */
    method CreateWriter(fs: FileSystem)
      requires Valid() && writer.None?
      modifies this`writer, this`Repr
      ensures Valid() && fresh(Repr - old(Repr))
      ensures writer.None? <==> RequestedStream().None?
      ensures writer.Some? ==>
        var spec := RequestedStream().value;
        Openable(spec) && fresh(WriterRepr(writer.value)) && (writer.value.PlainWriter? <==> spec.File?) &&
        WriterSnap(writer.value) == NewWriterState(fs, spec)
    {
      var spec := RequestedStream();
      if spec.Some? {
        ManagersBuildOpenable(root, request.filename, request.mode);
        var w := OpenWriter(fs, spec.value);
        writer := Some(w);
        Repr := Repr + WriterRepr(w);
      }
    }

    /** `send_first_packet`: ERROR 2 without a writer, ERROR 1 when it did
        not open, otherwise ACK 0. */
    method SendFirstPacket()
      requires Valid() && State() == Unstarted.(io := Idle.(socketOpen := true))
      modifies this`nextExpectedPacketId, this`ackedBlock, this`outPacketData, this`responseExpected,
        this`retryCounter, this`io
      ensures Valid()
      ensures writer.None? ==> State() == Sent(old(State()), PathError(ERRCODE_ACCESS_VIOLATION), false, 0)
      ensures writer.Some? && !WriterIsOpen(writer.value) ==>
        State() == Sent(old(State()), PathError(ERRCODE_FILE_NOT_FOUND), false, 0)
      ensures writer.Some? && WriterIsOpen(writer.value) ==>
        State() == Sent(old(State()).(nextExpectedPacketId := 1), EncodeAck(AckPkt(OP_ACK, 0)), true, DEFAULT_RETRY_COUNTER)
    {
      if writer.None? {
        var bytes := BuildError(ErrorPkt(OP_ERROR, ERRCODE_ACCESS_VIOLATION, MSG_INVALID_PATH));
        SendPacket(bytes, false, 0);
      } else if !WriterIsOpen(writer.value) {
        var bytes := BuildError(ErrorPkt(OP_ERROR, ERRCODE_FILE_NOT_FOUND, MSG_INVALID_PATH));
        SendPacket(bytes, false, 0);
      } else {
        SendAck(0, false);
      }
    }

    /** `send_ack`: acknowledges `blockNo` and expects the block after it,
        the 16-bit counter wrapping after 65535; the final ACK expects no
        answer. */
    method SendAck(blockNo: u16, isLast: bool)
      requires Valid() && io.socketOpen && !io.timerArmed && (!isLast ==> writer.Some?)
      modifies this`nextExpectedPacketId, this`ackedBlock, this`outPacketData, this`responseExpected,
        this`retryCounter, this`io
      ensures Valid()
      ensures State() == Sent(old(State()).(nextExpectedPacketId := ToU16(blockNo + 1)),
        EncodeAck(AckPkt(OP_ACK, blockNo)), !isLast, DEFAULT_RETRY_COUNTER)
    {
      var bytes := BuildAck(AckPkt(OP_ACK, blockNo));
      nextExpectedPacketId := ToU16(blockNo + 1);
      ackedBlock := blockNo;
      SendPacket(bytes, !isLast, DEFAULT_RETRY_COUNTER);
    }

    /** `send_packet`. */
    method SendPacket(bytes: seq<byte>, expectResponse: bool, retries: int)
      modifies this`outPacketData, this`responseExpected, this`retryCounter, this`io
      ensures State() == Sent(old(State()), bytes, expectResponse, retries)
    {
      outPacketData := bytes;
      responseExpected := expectResponse;
      retryCounter := retries;
      SendPreparedPacket();
    }

    /** `send_prepared_packet`. */
    method SendPreparedPacket()
      modifies this`io
      ensures State() == Resent(old(State()))
    {
      io := SendTo(io, clientEndpoint, outPacketData);
    }

    /** `stop`, as `connection_terminated` calls it. */
    method Stop()
      modifies this`io
      ensures State() == Stopped(old(State()))
    {
      io := Closed(io);
    }

    /** `terminate`: the server's `connection_terminated` stops the
        connection (and drops it from its registry, see `Servers`). */
    method Terminate()
      modifies this`io, this`terminated
      ensures State() == Ended(old(State()))
    {
      terminated := true;
      Stop();
    }

    /** `on_packet_sent`: a failed send ends the transfer; after a send
        that expects an answer the timer and a receive are armed, after any
        other send (an ERROR, the final ACK) the transfer ends. */
    method OnPacketSent(failed: bool)
      requires Valid() && io.sendsInFlight > 0
      modifies this`io, this`terminated
      ensures Valid()
      ensures failed || !old(responseExpected) ==> State() == Ended(old(State()))
      ensures !failed && old(responseExpected) ==>
        State() == old(State()).(io := old(io).(sendsInFlight := old(io.sendsInFlight) - 1, timerArmed := true,
          receivesPending := old(io.receivesPending) + 1))
    {
      io := io.(sendsInFlight := io.sendsInFlight - 1);
      if failed {
        Terminate();
        return;
      }
      if responseExpected {
        io := io.(timerArmed := true, receivesPending := io.receivesPending + 1);
      } else {
        Terminate();
      }
    }

    /** `on_send_timeout`: a timer error is ignored; otherwise the same
        bytes are sent again while the decremented counter stays positive,
        and the transfer ends when it reaches zero. */
    method OnSendTimeout(failed: bool)
      requires Valid() && io.timerArmed
      modifies this`io, this`terminated, this`retryCounter
      ensures Valid()
      ensures failed ==> State() == old(State()).(io := old(io).(timerArmed := false))
      ensures !failed && old(retryCounter) > 1 ==>
        State() == Resent(old(State()).(io := old(io).(timerArmed := false), retryCounter := old(retryCounter) - 1))
      ensures !failed && old(retryCounter) <= 1 ==>
        State() == Ended(old(State()).(retryCounter := old(retryCounter) - 1))
    {
      io := io.(timerArmed := false);
      if failed {
        return;
      }
      retryCounter := retryCounter - 1;
      if retryCounter > 0 {
        SendPreparedPacket();
      } else {
        Terminate();
      }
    }

    /** `on_packet_received`: a receive error ends the transfer; a
        datagram from another endpoint is dropped; one from the client is
        decoded and handled. */
    method OnPacketReceived(from: Endpoint, bytes: seq<byte>, failed: bool)
      requires Valid() && io.receivesPending > 0
      modifies Repr
      ensures Valid() && Repr == old(Repr) && writer == old(writer)
      ensures failed ==> State() == Ended(old(State())) && FileState() == old(FileState())
      ensures !failed && from != clientEndpoint ==>
        State() == old(State()).(io := old(io).(receivesPending := old(io.receivesPending) - 1)) &&
        FileState() == old(FileState())
      ensures !failed && from == clientEndpoint ==>
        Received(bytes, old(State()).(io := old(io).(receivesPending := old(io.receivesPending) - 1)), old(FileState()))
    {
      io := io.(receivesPending := io.receivesPending - 1);
      if failed {
        Terminate();
        return;
      }
      if clientEndpoint != from {
        return;
      }
      ghost var s := State();
      assert s == old(State()).(io := old(io).(receivesPending := old(io.receivesPending) - 1));
      ghost var file := FileState();
      assert file == old(FileState());
      ReceivedFromClient(bytes);
    }

    /** What a datagram from the client leaves, from the state `before`
        and the writer state `file`: one that does not decode changes
        nothing, an ERROR ends the transfer, a DATA is processed, any other
        packet is ignored. */
    ghost predicate Received(bytes: seq<byte>, before: WriteState, file: WriterState)
      reads this, if writer.Some? then WriterRepr(writer.value) else {}
    {
      match Parse(bytes)
      case None => State() == before && FileState() == file
      case Some(p) =>
        if p.ErrorPkt? then State() == Ended(before) && FileState() == file
        else if p.DataPkt? then DataHandled(p.blockNo, p.data, before, file)
        else State() == before && FileState() == file
    }

    /** The part of `on_packet_received` after the endpoint check:
        `parse_packet`, then the `switch` on the opcode (which is the
        variant, see `ParseOpcode`). */
    method ReceivedFromClient(bytes: seq<byte>)
      requires Valid() && io.socketOpen && writer.Some?
      modifies Repr
      ensures Valid() && Repr == old(Repr) && writer == old(writer)
      ensures Received(bytes, old(State()), old(FileState()))
    {
      var packet := ParsePacket(bytes);
      if packet.None? {
        return;
      }
      var p := packet.value;
      if p.DataPkt? {
        ProcessDataReceived(p);
      } else if p.ErrorPkt? {
        Terminate();
      }
    }

    /** What `process_data_received` leaves after a DATA for `blockNo`:
        another block changes nothing, not even the timer; the expected one
        is `Stored`. */
    ghost predicate DataHandled(blockNo: u16, data: seq<byte>, before: WriteState, file: WriterState)
      reads this, if writer.Some? then WriterRepr(writer.value) else {}
    {
      if blockNo != before.nextExpectedPacketId then State() == before && FileState() == file
      else Stored(blockNo, data, before, file)
    }

    /** What the expected DATA block leaves: the timer is cancelled and the
        block written unless it is empty; a failed write answers ERROR 1,
        otherwise the block is acknowledged and only a full block waits for
        more. */
    ghost predicate Stored(blockNo: u16, data: seq<byte>, before: WriteState, file: WriterState)
      reads this, if writer.Some? then WriterRepr(writer.value) else {}
    {
      writer.Some? &&
      var mid := before.(io := before.io.(timerArmed := false));
      var effect := StoreEffect(writer.value.NetasciiWriterRef?, file, data);
      FileState() == effect.1 &&
      if effect.0 then
        State() == Sent(mid.(nextExpectedPacketId := ToU16(blockNo + 1)), EncodeAck(AckPkt(OP_ACK, blockNo)),
          |data| == DEFAULT_DATA_SIZE, DEFAULT_RETRY_COUNTER)
      else
        State() == Sent(mid, PathError(ERRCODE_FILE_NOT_FOUND), false, 0)
    }

    /** `process_data_received`. */
    method ProcessDataReceived(p: Packet)
      requires Valid() && p.DataPkt? && io.socketOpen && writer.Some?
      modifies Repr
      ensures Valid() && Repr == old(Repr) && writer == old(writer)
      ensures DataHandled(p.blockNo, p.data, old(State()), old(FileState()))
    {
      if p.blockNo != nextExpectedPacketId {
        return;
      }
      StoreBlock(p.blockNo, p.data);
    }

    /** The expected block: cancel the timer, write, acknowledge. */
    method StoreBlock(blockNo: u16, data: seq<byte>)
      requires Valid() && io.socketOpen && writer.Some?
      modifies Repr
      ensures Valid() && Repr == old(Repr) && writer == old(writer)
      ensures Stored(blockNo, data, old(State()), old(FileState()))
    {
      io := io.(timerArmed := false);
      ghost var mid := State();
      assert mid == old(State()).(io := old(io).(timerArmed := false));
      var ok := WriteBlock(data);
      AnswerBlock(blockNo, |data| == DEFAULT_DATA_SIZE, ok);
    }

    /** The answer of `process_data_received`: ERROR 1 after a failed
        write, otherwise the ACK, which awaits more only after a full
        block. */
    method AnswerBlock(blockNo: u16, full: bool, ok: bool)
      requires Valid() && io.socketOpen && !io.timerArmed && writer.Some?
      modifies this`nextExpectedPacketId, this`ackedBlock, this`outPacketData, this`responseExpected,
        this`retryCounter, this`io
      ensures Valid()
      ensures ok ==> State() == Sent(old(State()).(nextExpectedPacketId := ToU16(blockNo + 1)),
        EncodeAck(AckPkt(OP_ACK, blockNo)), full, DEFAULT_RETRY_COUNTER)
      ensures !ok ==> State() == Sent(old(State()), PathError(ERRCODE_FILE_NOT_FOUND), false, 0)
    {
      if !ok {
        SendWriteError();
      } else if full {
        SendAck(blockNo, false);
      } else {
        SendAck(blockNo, true);
      }
    }

    /** The write of `process_data_received`, skipped for an empty block. */
    method WriteBlock(data: seq<byte>) returns (ok: bool)
      requires Valid() && writer.Some?
      modifies WriterRepr(writer.value)
      ensures Valid() && State() == old(State())
      ensures (ok, FileState()) == StoreEffect(writer.value.NetasciiWriterRef?, old(FileState()), data)
    {
      ok := true;
      if |data| > 0 {
        ok := Write(writer.value, data);
      }
    }

    /** The ERROR of a failed write: it awaits no answer, so its completion
        ends the transfer. */
    method SendWriteError()
      requires Valid() && io.socketOpen && !io.timerArmed
      modifies this`outPacketData, this`responseExpected, this`retryCounter, this`io
      ensures Valid()
      ensures State() == Sent(old(State()), PathError(ERRCODE_FILE_NOT_FOUND), false, 0)
    {
      var bytes := BuildError(ErrorPkt(OP_ERROR, ERRCODE_FILE_NOT_FOUND, MSG_INVALID_PATH));
      SendPacket(bytes, false, 0);
    }
  }

  /** One round without an answer: the send completes, the timer fires and
      the same packet goes out again with one retry fewer. */
  method Unanswered1(c: WriteConnection)
    requires c.Valid() && c.responseExpected && c.retryCounter > 1 && c.io.sendsInFlight > 0
    modifies c
    ensures c.Valid() && c.Repr == old(c.Repr)
    ensures c.State() == old(c.State()).(retryCounter := old(c.retryCounter) - 1,
      io := old(c.io).(outbox := old(c.io.outbox) + [Datagram(c.clientEndpoint, old(c.outPacketData))],
        receivesPending := old(c.io.receivesPending) + 1, timerArmed := false))
  {
    c.OnPacketSent(false);
    c.OnSendTimeout(false);
  }

  /** Two rounds without an answer. */
  method Unanswered2(c: WriteConnection)
    requires c.Valid() && c.responseExpected && c.retryCounter > 2 && c.io.sendsInFlight > 0
    modifies c
    ensures c.Valid() && c.Repr == old(c.Repr)
    ensures var d := Datagram(c.clientEndpoint, old(c.outPacketData));
      c.State() == old(c.State()).(retryCounter := old(c.retryCounter) - 2,
        io := old(c.io).(outbox := old(c.io.outbox) + [d, d],
          receivesPending := old(c.io.receivesPending) + 2, timerArmed := false))
  {
    ghost var d := Datagram(c.clientEndpoint, c.outPacketData);
    ghost var s := c.State();
    Unanswered1(c);
    assert c.State() == s.(retryCounter := s.retryCounter - 1, io := s.io.(outbox := s.io.outbox + [d],
      receivesPending := s.io.receivesPending + 1, timerArmed := false));
    Unanswered1(c);
    assert c.io.outbox == s.io.outbox + [d, d];
  }

  /** The last round without an answer: the send completes and the timer
      fires with one retry left, so the transfer ends. */
  method Exhausted(c: WriteConnection)
    requires c.Valid() && c.responseExpected && c.retryCounter == 1 && c.io.sendsInFlight > 0
    modifies c
    ensures c.State() == Ended(old(c.State()).(retryCounter := 0))
  {
    c.OnPacketSent(false);
    c.OnSendTimeout(false);
  }

  /** A client that never answers: the ACK just sent with the full budget
      of 5 goes out four more times, once per timeout, and the fifth timeout
      ends the transfer, so the client is sent that packet five times in
      all. */
  method Unanswered(c: WriteConnection)
    requires c.Valid() && c.responseExpected && c.retryCounter == DEFAULT_RETRY_COUNTER
    requires c.io.sendsInFlight > 0 && c.io.outbox != []
    requires c.io.outbox[|c.io.outbox| - 1] == Datagram(c.clientEndpoint, c.outPacketData)
    modifies c
    ensures var d := Datagram(c.clientEndpoint, old(c.outPacketData));
      c.State() == Ended(old(c.State()).(retryCounter := 0, io := old(c.io).(outbox := old(c.io.outbox) + [d, d, d, d])))
    ensures var d := Datagram(c.clientEndpoint, old(c.outPacketData));
      c.io.outbox[|old(c.io.outbox)| - 1..] == [d, d, d, d, d]
  {
    ghost var d := Datagram(c.clientEndpoint, c.outPacketData);
    ghost var s := c.State();
    Unanswered2(c);
    Unanswered2(c);
    assert c.io.outbox == s.io.outbox + [d, d, d, d];
    assert c.State() == s.(retryCounter := 1, io := s.io.(outbox := s.io.outbox + [d, d, d, d],
      receivesPending := s.io.receivesPending + 4, timerArmed := false));
    Exhausted(c);
    FiveInARow(s.io.outbox, d);
  }
}
