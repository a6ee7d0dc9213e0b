/** The client side of a download: the client sends an RRQ to the resolved
    server, binds to the endpoint of the first DATA it accepts, opens the
    local file then, and acknowledges every block it stores; a block
    shorter than 512 bytes is the last. Socket, resolver and timer are an
    `Io` value (see `Transport`). */
module ClientGets {
  import opened Wire
  import opened FileIo
  import opened PacketParser
  import opened PacketBuilder
  import opened IoManagers
  import opened Streams
  import opened Transport

  /** The fields a handler of `client_get` changes, as a value. */
  datatype GetState = GetState(
    serverEndpoint: Endpoint, requestComplete: bool, lastAckedPacketId: u16,
    responseExpected: bool, retryCounter: int, writer: Option<WriterRef>,
    outPacketData: seq<byte>, io: Io)

  /** `send_prepared_packet`: `outPacketData` goes to the server endpoint
      once more. */
  function Resent(s: GetState): GetState
  {
    s.(io := SendTo(s.io, s.serverEndpoint, s.outPacketData))
  }

  /** `send_packet`: the bytes, whether an answer is expected and the retry
      budget are recorded, then sent. */
  function Sent(s: GetState, bytes: seq<byte>, expectResponse: bool, retries: int): GetState
  {
    Resent(s.(outPacketData := bytes, responseExpected := expectResponse, retryCounter := retries))
  }

  /** `stop`. */
  function Stopped(s: GetState): GetState
  {
    s.(io := Closed(s.io))
  }

  /** The ERROR the client sends when it cannot store the download. */
  function WriteError(code: u16): seq<byte>
  {
    EncodeError(ErrorPkt(OP_ERROR, code, MSG_CANNOT_OPEN_FOR_WRITING))
  }

  /** Whether DATA numbered `blockNo` is the one awaited after the ACK for
      `lastAcked`. The sum is taken on `int`, so it never wraps: after
      block 65535 no block is accepted any more. */
  function Accepts(lastAcked: u16, blockNo: u16): (r: bool)
    ensures r <==> lastAcked < 0xFFFF && blockNo == lastAcked + 1
    ensures lastAcked == 0xFFFF ==> !r
  {
    lastAcked + 1 == blockNo
  }

  class ClientGet {
    /** The local disk. */
    const fs: FileSystem
    const remoteFilename: Str
    const localPath: Str
    const mode: Str

    var serverEndpoint: Endpoint
    var requestComplete: bool
    var lastAckedPacketId: u16
    var responseExpected: bool
    var retryCounter: int
    var writer: Option<WriterRef>
    var outPacketData: seq<byte>

    /** The resolver, the socket and the timer. */
    var io: Io

    ghost var Repr: set<object>

    /** The RRQ, with the remote name and the mode as given. */
    function RequestBytes(): seq<byte>
    {
      EncodeRequest(OP_RRQ, remoteFilename, mode)
    }

    ghost predicate WriterOk()
      reads this`writer
    {
      writer.Some? ==> this !in WriterRepr(writer.value)
    }

    /** The retry counter starts at 5 with every packet that awaits an
        answer and a pending timer has not yet used it up; it can go one
        below zero when a timer outlives the ERROR sent with budget 0. */
    ghost predicate Budget()
      reads this`retryCounter, this`responseExpected, this`io
    {
      -1 <= retryCounter <= DEFAULT_RETRY_COUNTER &&
      (io.timerArmed ==> retryCounter >= 0) &&
      (responseExpected && io.socketOpen ==> retryCounter >= 1)
    }

    /** A packet awaiting an answer is the RRQ until a DATA was accepted,
        then the ACK of the last stored block, and there is a writer then. */
    ghost predicate Answer()
      reads this`responseExpected, this`outPacketData, this`requestComplete
      reads this`lastAckedPacketId, this`writer
    {
      (responseExpected ==>
        outPacketData == if requestComplete then EncodeAck(AckPkt(OP_ACK, lastAckedPacketId)) else RequestBytes()) &&
      (requestComplete && responseExpected ==> writer.Some?)
    }

    /** A writer is only created for an accepted DATA, and a block is only
        acknowledged once written. */
    ghost predicate Owner()
      reads this`requestComplete, this`lastAckedPacketId, this`writer
    {
      (writer.Some? ==> requestComplete) &&
      (lastAckedPacketId != 0 ==> writer.Some?)
    }

    /** Nothing is outstanding on a closed socket, and nothing has been
        sent or accepted while the server is being resolved. */
    ghost predicate Lifecycle()
      reads this`io, this`requestComplete
    {
      Quiet(io) &&
      (io.resolvePending ==>
        io.outbox == [] && io.sendsInFlight == 0 && io.receivesPending == 0 && !io.timerArmed && !requestComplete)
    }

    /** The writer is a separate stream inside the footprint. */
    ghost predicate Frame()
      reads this, Repr
    {
      this in Repr && (writer.Some? ==> WriterRepr(writer.value) <= Repr) && WriterOk()
    }

    /** `Answer` only fails between accepting the first DATA and sending
        its answer. */
    ghost predicate Settled()
      reads this, Repr
    {
      Frame() && Budget() && Owner() && Lifecycle()
    }

    ghost predicate Valid()
      reads this, Repr
    {
      Settled() && Answer()
    }

    function State(): GetState
      reads this
    {
      GetState(serverEndpoint, requestComplete, lastAckedPacketId, responseExpected, retryCounter,
        writer, outPacketData, io)
    }

    /** The state of the local file, or a closed empty one without writer. */
    function FileState(): WriterState
      reads this, if writer.Some? then WriterRepr(writer.value) else {}
    {
      if writer.Some? then WriterSnap(writer.value) else WriterState(false, [], false, false)
    }

    predicate Initial()
      reads this
    {
      !requestComplete && lastAckedPacketId == 0 && !responseExpected && retryCounter == 0 &&
      writer.None? && io == Idle
    }

    constructor (fs: FileSystem, remoteFilename: Str, localPath: Str, mode: Str)
      ensures Valid() && fresh(Repr) && Initial()
      ensures this.fs == fs && this.remoteFilename == remoteFilename
      ensures this.localPath == localPath && this.mode == mode
    {
      this.fs := fs;
      this.remoteFilename := remoteFilename;
      this.localPath := localPath;
      this.mode := mode;
      serverEndpoint := Endpoint(0, 0);
      requestComplete := false;
      lastAckedPacketId := 0;
      responseExpected := false;
      retryCounter := 0;
      writer := None;
      outPacketData := [];
      io := Idle;
      Repr := {this};
    }

    /** `start`: opens the socket and starts resolving the server. */
    method Start()
      requires Valid() && Initial()
      modifies this
      ensures Valid() && Repr == old(Repr)
      ensures State() == old(State()).(io := Idle.(socketOpen := true, resolvePending := true))
    {
      io := io.(socketOpen := true, resolvePending := true);
    }

    /** `on_resolve_query`: without results nothing happens; otherwise the
        first result becomes the server endpoint and the RRQ is sent. */
    method OnResolveQuery(results: seq<Endpoint>)
      requires Valid() && io.resolvePending
      modifies this
      ensures Valid() && Repr == old(Repr)
      ensures var s := old(State()).(io := old(io).(resolvePending := false));
        State() == if results == [] then s else Sent(s.(serverEndpoint := results[0]), RequestBytes(), true, DEFAULT_RETRY_COUNTER)
    {
      io := io.(resolvePending := false);
      if |results| == 0 {
        return;
      }
      serverEndpoint := results[0];
      SendRequest();
    }

    /** `send_request`: the RRQ awaits an answer with a budget of 5. */
    method SendRequest()
      requires Valid() && io.socketOpen && !requestComplete && !io.resolvePending
      modifies this
      ensures Valid() && Repr == old(Repr)
      ensures State() == Sent(old(State()), RequestBytes(), true, DEFAULT_RETRY_COUNTER)
    {
      SendPacket(RequestBytes(), true, DEFAULT_RETRY_COUNTER);
    }

    /** `send_packet`. */
    method SendPacket(bytes: seq<byte>, expectResponse: bool, retries: int)
      modifies this`outPacketData, this`responseExpected, this`retryCounter, this`io
      ensures State() == Sent(old(State()), bytes, expectResponse, retries)
    {
      outPacketData := bytes;
      responseExpected := expectResponse;
      retryCounter := retries;
      SendPreparedPacket();
    }

    /** `send_prepared_packet`. */
    method SendPreparedPacket()
      modifies this`io
      ensures State() == Resent(old(State()))
    {
      io := SendTo(io, serverEndpoint, outPacketData);
    }

    /** `stop`. */
    method Stop()
      modifies this`io
      ensures State() == Stopped(old(State()))
    {
      io := Closed(io);
    }

    /** `terminate`: only stops; the outcome it is given is not used. */
    method Terminate(success: bool)
      modifies this`io
      ensures State() == Stopped(old(State()))
    {
      Stop();
    }

    /** `on_packet_sent`: a failed send stops the client; a packet that
        awaits an answer arms the timer and a receive; any other packet
        (an ERROR, the last ACK) ends the download. */
    method OnPacketSent(failed: bool)
      requires Valid() && io.sendsInFlight > 0
      modifies this
      ensures Valid() && Repr == old(Repr)
      ensures failed || !old(responseExpected) ==> State() == Stopped(old(State()))
      ensures !failed && old(responseExpected) ==>
        State() == old(State()).(io := old(io).(sendsInFlight := old(io.sendsInFlight) - 1, timerArmed := true,
          receivesPending := old(io.receivesPending) + 1))
    {
      io := io.(sendsInFlight := io.sendsInFlight - 1);
      if failed {
        Terminate(false);
        return;
      }
      if responseExpected {
        io := io.(timerArmed := true, receivesPending := io.receivesPending + 1);
      } else {
        Terminate(false);
      }
    }

    /** `on_send_timeout`: a timer error is ignored; otherwise the same
        bytes go out again while the decremented counter stays positive,
        and the client stops when it does not. The timer is never
        cancelled by an answer, so it can also fire after one. */
    method OnSendTimeout(failed: bool)
      requires Valid() && io.timerArmed
      modifies this
      ensures Valid() && Repr == old(Repr)
      ensures failed ==> State() == old(State()).(io := old(io).(timerArmed := false))
      ensures !failed && old(retryCounter) > 1 ==>
        State() == Resent(old(State()).(io := old(io).(timerArmed := false), retryCounter := old(retryCounter) - 1))
      ensures !failed && old(retryCounter) <= 1 ==>
        State() == Stopped(old(State()).(retryCounter := old(retryCounter) - 1))
    {
      io := io.(timerArmed := false);
      if failed {
        return;
      }
      retryCounter := retryCounter - 1;
      if retryCounter > 0 {
        SendPreparedPacket();
      } else {
        Terminate(false);
      }
    }

    /** `on_packet_received`: a receive error stops the client; once the
        request is complete, a datagram from another endpoint is dropped;
        otherwise it is decoded and handled. */
    method OnPacketReceived(from: Endpoint, bytes: seq<byte>, failed: bool)
      requires Valid() && io.receivesPending > 0
      modifies Repr
      ensures Valid() && fresh(Repr - old(Repr))
      ensures var s := old(State()).(io := old(io).(receivesPending := old(io.receivesPending) - 1));
        if failed then State() == Stopped(s) && FileState() == old(FileState())
        else if s.requestComplete && from != s.serverEndpoint then State() == s && FileState() == old(FileState())
        else Received(from, bytes, s, old(FileState()))
    {
      io := io.(receivesPending := io.receivesPending - 1);
      if failed {
        Terminate(false);
        return;
      }
      if requestComplete && serverEndpoint != from {
        return;
      }
      ReceivedFromServer(from, bytes);
    }

    /** What a datagram the client accepts leaves, from the state `before`
        and the file state `file`: one that does not decode changes nothing,
        an ERROR stops the client, a DATA is processed, any other packet is
        ignored. */
    predicate Received(from: Endpoint, bytes: seq<byte>, before: GetState, file: WriterState)
      reads this, if writer.Some? then WriterRepr(writer.value) else {}
    {
      match Parse(bytes)
      case None => State() == before && FileState() == file
      case Some(p) =>
        if p.ErrorPkt? then State() == Stopped(before) && FileState() == file
        else if p.DataPkt? then DataHandled(from, p.blockNo, p.data, before, file)
        else State() == before && FileState() == file
    }

    /** `parse_packet`, then the `switch` on the opcode, which is the
        variant (see `ParseOpcode`). */
    method ReceivedFromServer(from: Endpoint, bytes: seq<byte>)
      requires Valid() && io.socketOpen && !io.resolvePending
      modifies Repr
      ensures Valid() && fresh(Repr - old(Repr))
      ensures Received(from, bytes, old(State()), old(FileState()))
    {
      var packet := ParsePacket(bytes);
      if packet.None? {
        return;
      }
      var p := packet.value;
      if p.DataPkt? {
        ProcessDataReceived(from, p);
      } else if p.ErrorPkt? {
        Terminate(false);
      }
    }

    /** What `process_data_received` leaves for DATA `blockNo` from `from`:
        a block other than the awaited one changes nothing; the first
        accepted one completes the request first (`FirstData`); later ones
        are written and acknowledged (`Acked`). Without a writer a later
        block is ignored; the code would write through a null writer there. */
    predicate DataHandled(from: Endpoint, blockNo: u16, data: seq<byte>, before: GetState, file: WriterState)
      reads this, if writer.Some? then WriterRepr(writer.value) else {}
    {
      if !Accepts(before.lastAckedPacketId, blockNo) then State() == before && FileState() == file
      else if !before.requestComplete then FirstData(from, blockNo, data, before)
      else if before.writer.None? then State() == before
      else Acked(blockNo, data, before, file)
    }

    /** The first accepted DATA: the request is complete, the sender
        becomes the server endpoint and the local file is opened as the
        mode says. No writer for the mode sends ERROR 0, a file that cannot
        be created ERROR 2; otherwise the block is stored at once. */
    predicate FirstData(from: Endpoint, blockNo: u16, data: seq<byte>, before: GetState)
      reads this, if writer.Some? then WriterRepr(writer.value) else {}
    {
      var mid := before.(requestComplete := true, serverEndpoint := from);
      match OpenStream(localPath, mode)
      case None => State() == Sent(mid.(writer := None), WriteError(ERRCODE_UNDEFINED), false, 0)
      case Some(spec) =>
        Openable(spec) && writer.Some? && (writer.value.PlainWriter? <==> spec.File?) &&
        if !NewWriterState(fs, spec).isOpen then
          State() == Sent(mid.(writer := writer), WriteError(ERRCODE_ACCESS_VIOLATION), false, 0) &&
          FileState() == NewWriterState(fs, spec)
        else
          Acked(blockNo, data, mid.(writer := writer), NewWriterState(fs, spec))
    }

    /** The write and the answer: the data goes to the writer (even when it
        is empty); a failed write sends ERROR 3, otherwise the ACK echoes
        the block, which becomes the last acknowledged one, and awaits an
        answer exactly when the block was full. */
    predicate Acked(blockNo: u16, data: seq<byte>, before: GetState, file: WriterState)
      reads this, if writer.Some? then WriterRepr(writer.value) else {}
    {
      writer.Some? && writer == before.writer &&
      var (ok, after) := WriteEffect(writer.value.NetasciiWriterRef?, file, data);
      FileState() == after &&
      State() ==
        if ok then
          Sent(before.(lastAckedPacketId := blockNo), EncodeAck(AckPkt(OP_ACK, blockNo)),
            |data| >= DEFAULT_DATA_SIZE, DEFAULT_RETRY_COUNTER)
        else
          Sent(before, WriteError(ERRCODE_DISK_FULL), false, 0)
    }

    /** `process_data_received`. */
    method ProcessDataReceived(from: Endpoint, p: Packet)
      requires Valid() && p.DataPkt? && io.socketOpen && !io.resolvePending
      modifies Repr
      ensures Valid() && fresh(Repr - old(Repr))
      ensures DataHandled(from, p.blockNo, p.data, old(State()), old(FileState()))
    {
      if lastAckedPacketId + 1 != p.blockNo {
        return;
      }
      if !requestComplete {
        var ready := OpenOnFirstData(from);
        if !ready {
          return;
        }
      } else if writer.None? {
        return;
      }
      WriteAndAck(p.blockNo, p.data);
    }

    /** The first-DATA part of `process_data_received`, with `open_writer`:
        "octet" opens the local file, "netascii" wraps it, any other mode
        gives no writer. `ready` says whether the block can be written. */
    method OpenOnFirstData(from: Endpoint) returns (ready: bool)
      requires Valid() && !requestComplete && io.socketOpen && !io.resolvePending
      modifies this
      ensures Settled() && (!ready ==> Answer()) && fresh(Repr - old(Repr))
      ensures var mid := old(State()).(requestComplete := true, serverEndpoint := from);
        match OpenStream(localPath, mode)
        case None => !ready && State() == Sent(mid.(writer := None), WriteError(ERRCODE_UNDEFINED), false, 0)
        case Some(spec) =>
          Openable(spec) && writer.Some? && (writer.value.PlainWriter? <==> spec.File?) &&
          fresh(WriterRepr(writer.value)) && FileState() == NewWriterState(fs, spec) &&
          (ready <==> NewWriterState(fs, spec).isOpen) &&
          State() == if ready then mid.(writer := writer)
            else Sent(mid.(writer := writer), WriteError(ERRCODE_ACCESS_VIOLATION), false, 0)
    {
      requestComplete := true;
      serverEndpoint := from;
      ClientStreamOpenable(localPath, mode);
      var spec := OpenStream(localPath, mode);
      if spec.None? {
        SendWriteError(ERRCODE_UNDEFINED);
        return false;
      }
      ready := OpenLocal(spec.value);
    }

    /** `open_writer` on a stream it builds, then the `is_open` check. */
    method OpenLocal(spec: StreamSpec) returns (ready: bool)
      requires Settled() && Openable(spec) && requestComplete && writer.None? && io.socketOpen
      modifies this
      ensures Settled() && (!ready ==> Answer()) && fresh(Repr - old(Repr))
      ensures writer.Some? && (writer.value.PlainWriter? <==> spec.File?) && fresh(WriterRepr(writer.value))
      ensures FileState() == NewWriterState(fs, spec) && (ready <==> NewWriterState(fs, spec).isOpen)
      ensures ready ==> State() == old(State()).(writer := writer)
      ensures !ready ==> State() == Sent(old(State()).(writer := writer), WriteError(ERRCODE_ACCESS_VIOLATION), false, 0)
    {
      var w := OpenWriter(fs, spec);
      writer := Some(w);
      Repr := Repr + WriterRepr(w);
      if !WriterIsOpen(w) {
        SendWriteError(ERRCODE_ACCESS_VIOLATION);
        return false;
      }
      return true;
    }

    /** An ERROR with the client's write message that expects no answer. */
    method SendWriteError(code: u16)
      requires Settled() && io.socketOpen && !io.resolvePending
      modifies this
      ensures Valid() && Repr == old(Repr)
      ensures State() == Sent(old(State()), WriteError(code), false, 0)
    {
      var bytes := BuildError(ErrorPkt(OP_ERROR, code, MSG_CANNOT_OPEN_FOR_WRITING));
      SendPacket(bytes, false, 0);
    }

    /** The write and the answer of `process_data_received`. */
    method WriteAndAck(blockNo: u16, data: seq<byte>)
      requires Settled() && requestComplete && writer.Some? && io.socketOpen
      modifies Repr
      ensures Valid() && Repr == old(Repr)
      ensures Acked(blockNo, data, old(State()), old(FileState()))
    {
      var ok := Write(writer.value, data);
      if !ok {
        SendWriteError(ERRCODE_DISK_FULL);
        return;
      }
      var bytes := BuildAck(AckPkt(OP_ACK, blockNo));
      lastAckedPacketId := blockNo;
      SendPacket(bytes, |data| >= DEFAULT_DATA_SIZE, DEFAULT_RETRY_COUNTER);
    }

    /** The case in which the code calls `write` on a null `m_writer`: the
        writer could not be created for the first DATA, and the awaited
        DATA arrives again from the server endpoint. */
    predicate WritesThroughNull(from: Endpoint, bytes: seq<byte>)
      reads this
    {
      requestComplete && writer.None? && from == serverEndpoint &&
      Parse(bytes).Some? && Parse(bytes).value.DataPkt? &&
      Accepts(lastAckedPacketId, Parse(bytes).value.blockNo)
    }
  }

  /** A run that reaches `WritesThroughNull` with a receive still pending:
      the RRQ is sent again after a timeout, so two receives are armed; the
      first DATA 1 finds no writer for the mode and answers ERROR 0. A
      second copy of DATA 1 from the same sender then completes the other
      receive. */
  method NullWriterReached(fs: FileSystem, remoteFilename: Str, localPath: Str, mode: Str,
                           server: Endpoint, sender: Endpoint) returns (c: ClientGet)
    requires OpenStream(localPath, mode).None?
    ensures c.Valid() && c.io.socketOpen && c.io.receivesPending == 1
    ensures c.WritesThroughNull(sender, EncodeData(DataPkt(OP_DATA, 1, [])))
  {
    c := new ClientGet(fs, remoteFilename, localPath, mode);
    c.Start();
    c.OnResolveQuery([server]);
    c.OnPacketSent(false);
    c.OnSendTimeout(false);
    c.OnPacketSent(false);
    DataRoundTrip(DataPkt(OP_DATA, 1, []));
    c.OnPacketReceived(sender, EncodeData(DataPkt(OP_DATA, 1, [])), false);
  }

  /** One round without an answer: the send completes, the timer fires and
      the same packet goes out again with one retry fewer. */
  method Unanswered1(c: ClientGet)
    requires c.Valid() && c.responseExpected && c.retryCounter > 1 && c.io.sendsInFlight > 0
    modifies c
    ensures c.Valid() && c.Repr == old(c.Repr)
    ensures c.State() == old(c.State()).(retryCounter := old(c.retryCounter) - 1,
      io := old(c.io).(outbox := old(c.io.outbox) + [Datagram(old(c.serverEndpoint), old(c.outPacketData))],
        receivesPending := old(c.io.receivesPending) + 1, timerArmed := false))
  {
    c.OnPacketSent(false);
    c.OnSendTimeout(false);
  }

  /** Two rounds without an answer. */
  method Unanswered2(c: ClientGet)
    requires c.Valid() && c.responseExpected && c.retryCounter > 2 && c.io.sendsInFlight > 0
    modifies c
    ensures c.Valid() && c.Repr == old(c.Repr)
    ensures var d := Datagram(old(c.serverEndpoint), old(c.outPacketData));
      c.State() == old(c.State()).(retryCounter := old(c.retryCounter) - 2,
        io := old(c.io).(outbox := old(c.io.outbox) + [d, d],
          receivesPending := old(c.io.receivesPending) + 2, timerArmed := false))
  {
    ghost var d := Datagram(c.serverEndpoint, c.outPacketData);
    ghost var s := c.State();
    Unanswered1(c);
    assert c.State() == s.(retryCounter := s.retryCounter - 1, io := s.io.(outbox := s.io.outbox + [d],
      receivesPending := s.io.receivesPending + 1, timerArmed := false));
    Unanswered1(c);
    assert c.io.outbox == s.io.outbox + [d, d];
  }

  /** The last round without an answer: the send completes and the timer
      fires with one retry left, so the client stops. */
  method Exhausted(c: ClientGet)
    requires c.Valid() && c.responseExpected && c.retryCounter == 1 && c.io.sendsInFlight > 0
    modifies c
    ensures c.State() == Stopped(old(c.State()).(retryCounter := 0))
  {
    c.OnPacketSent(false);
    c.OnSendTimeout(false);
  }

  /** A server that never answers: the packet just sent with the full
      budget of 5 (the RRQ or an ACK) goes out four more times, once per
      timeout, and the fifth timeout stops the client, so the server is sent
      that packet five times in all. */
  method Unanswered(c: ClientGet)
    requires c.Valid() && c.responseExpected && c.retryCounter == DEFAULT_RETRY_COUNTER
    requires c.io.sendsInFlight > 0 && c.io.outbox != []
    requires c.io.outbox[|c.io.outbox| - 1] == Datagram(c.serverEndpoint, c.outPacketData)
    modifies c
    ensures var d := Datagram(old(c.serverEndpoint), old(c.outPacketData));
      c.State() == Stopped(old(c.State()).(retryCounter := 0, io := old(c.io).(outbox := old(c.io.outbox) + [d, d, d, d])))
    ensures var d := Datagram(old(c.serverEndpoint), old(c.outPacketData));
      c.io.outbox[|old(c.io.outbox)| - 1..] == [d, d, d, d, d]
  {
    ghost var d := Datagram(c.serverEndpoint, c.outPacketData);
    ghost var s := c.State();
    Unanswered2(c);
    Unanswered2(c);
    assert c.io.outbox == s.io.outbox + [d, d, d, d];
    assert c.State() == s.(retryCounter := 1, io := s.io.(outbox := s.io.outbox + [d, d, d, d],
      receivesPending := s.io.receivesPending + 4, timerArmed := false));
    Exhausted(c);
    FiveInARow(s.io.outbox, d);
  }
}
