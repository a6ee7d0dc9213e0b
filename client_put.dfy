/** The client side of an upload: the client opens the local file first,
    sends a WRQ to the resolved server, binds to the endpoint of the first
    ACK 0, and answers each matching ACK with the next block of at most 512
    bytes; the ACK of a short block ends the upload. Socket, resolver and
    timer are an `Io` value (see `Transport`). */
module ClientPuts {
  import opened Wire
  import opened FileIo
  import opened PacketParser
  import opened PacketBuilder
  import opened IoManagers
  import opened NetasciiIo
  import opened Streams
  import opened Transport

  /** The fields a handler of `client_put` changes, as a value. */
  datatype PutState = PutState(
    serverEndpoint: Endpoint, requestComplete: bool, lastSentPacketId: u16, lastPacketSent: bool,
    responseExpected: bool, retryCounter: int, reader: Option<ReaderRef>, outPacketData: seq<byte>, io: Io)

  /** `send_prepared_packet`. */
  function Resent(s: PutState): PutState
  {
    s.(io := SendTo(s.io, s.serverEndpoint, s.outPacketData))
  }

  /** `send_packet`. */
  function Sent(s: PutState, bytes: seq<byte>, expectResponse: bool, retries: int): PutState
  {
    Resent(s.(outPacketData := bytes, responseExpected := expectResponse, retryCounter := retries))
  }

  /** `stop`. */
  function Stopped(s: PutState): PutState
  {
    s.(io := Closed(s.io))
  }

  /** The ERROR the client sends when the local file fails mid-upload. */
  function ReadError(): seq<byte>
  {
    EncodeError(ErrorPkt(OP_ERROR, ERRCODE_UNDEFINED, MSG_CANNOT_READ_DATA))
  }

  class ClientPut {
    /** The local disk. */
    const fs: FileSystem
    const remoteFilename: Str
    const localPath: Str
    const mode: Str

    var serverEndpoint: Endpoint
    var requestComplete: bool
    var lastSentPacketId: u16
    var lastPacketSent: bool
    var responseExpected: bool
    var retryCounter: int
    var reader: Option<ReaderRef>
    var outPacketData: seq<byte>
    /** The resolver, the socket and the timer. */
    var io: Io

    /** The payload of the DATA in `outPacketData`. */
    ghost var payload: seq<byte>
    ghost var Repr: set<object>

    /** The WRQ, with the remote name and the mode as given. */
    function RequestBytes(): seq<byte>
    {
      EncodeRequest(OP_WRQ, remoteFilename, mode)
    }

    ghost predicate ReaderOk()
      reads this`reader, if reader.Some? then ReaderRepr(reader.value) else {}
    {
      reader.Some? ==> this !in ReaderRepr(reader.value) && ReaderValid(reader.value)
    }

    /** As for the download: 5 sends for every packet awaiting an answer,
        with one more decrement possible by a timer that outlives an ERROR. */
    ghost predicate Budget()
      reads this`retryCounter, this`responseExpected, this`io
    {
      -1 <= retryCounter <= DEFAULT_RETRY_COUNTER &&
      (io.timerArmed ==> retryCounter >= 0) &&
      (responseExpected && io.socketOpen ==> retryCounter >= 1)
    }

    /** A packet awaiting an answer is the WRQ until an ACK was accepted,
        then the DATA numbered `lastSentPacketId`, whose payload is at most
        one block and is short exactly when it is the last. */
    ghost predicate Answer()
      reads this`responseExpected, this`outPacketData, this`requestComplete
      reads this`lastSentPacketId, this`payload, this`lastPacketSent
    {
      (responseExpected ==>
        outPacketData == if requestComplete then EncodeData(DataPkt(OP_DATA, lastSentPacketId, payload))
          else RequestBytes()) &&
      (requestComplete && responseExpected ==>
        |payload| <= DEFAULT_DATA_SIZE && (lastPacketSent <==> |payload| < DEFAULT_DATA_SIZE))
    }

    /** Before the first ACK nothing but the WRQ was sent, so only ACK 0
        can be accepted. */
    ghost predicate Progress()
      reads this`requestComplete, this`lastSentPacketId, this`lastPacketSent
    {
      !requestComplete ==> lastSentPacketId == 0 && !lastPacketSent
    }

    /** Nothing is outstanding on a closed socket; the socket is only
        opened with a reader; nothing is sent while resolving. */
    ghost predicate Lifecycle()
      reads this`io, this`reader, this`requestComplete
    {
      Quiet(io) && (io.socketOpen ==> reader.Some?) &&
      (io.resolvePending ==>
        io.outbox == [] && io.sendsInFlight == 0 && io.receivesPending == 0 && !io.timerArmed && !requestComplete)
    }

    ghost predicate Frame()
      reads this, Repr
    {
      this in Repr && (reader.Some? ==> ReaderRepr(reader.value) <= Repr) && ReaderOk()
    }

    /** `Answer` only fails between accepting an ACK and sending its
        answer. */
    ghost predicate Settled()
      reads this, Repr
    {
      Frame() && Budget() && Progress() && Lifecycle()
    }

    ghost predicate Valid()
      reads this, Repr
    {
      Settled() && Answer()
    }

    function State(): PutState
      reads this
    {
      PutState(serverEndpoint, requestComplete, lastSentPacketId, lastPacketSent, responseExpected,
        retryCounter, reader, outPacketData, io)
    }

    /** What the reader will still deliver; nothing without a reader. */
    ghost function Remaining(): seq<byte>
      reads this, if reader.Some? then ReaderRepr(reader.value) else {}
    {
      if reader.Some? then ReaderRemaining(reader.value) else []
    }

    /** The next read of the reader fails. */
    predicate ReadFails()
      reads this, if reader.Some? then ReaderRepr(reader.value) else {}
    {
      reader.Some? && ReaderFails(reader.value)
    }

    predicate Initial()
      reads this
    {
      !requestComplete && lastSentPacketId == 0 && !lastPacketSent && !responseExpected &&
      retryCounter == 0 && reader.None? && io == Idle
    }

    constructor (fs: FileSystem, remoteFilename: Str, localPath: Str, mode: Str)
      ensures Valid() && fresh(Repr) && Initial()
      ensures this.fs == fs && this.remoteFilename == remoteFilename
      ensures this.localPath == localPath && this.mode == mode
    {
      this.fs := fs;
      this.remoteFilename := remoteFilename;
      this.localPath := localPath;
      this.mode := mode;
      serverEndpoint := Endpoint(0, 0);
      requestComplete := false;
      lastSentPacketId := 0;
      lastPacketSent := false;
      responseExpected := false;
      retryCounter := 0;
      reader := None;
      outPacketData := [];
      io := Idle;
      payload := [];
      Repr := {this};
    }

    /** `start` with `open_reader`: "octet" opens the local file, "netascii"
        wraps it, any other mode gives no reader. Without a reader, or with
        one that is not open, the client stops before anything is sent;
        otherwise the socket is opened and the server resolved. */
    method Start()
      requires Valid() && Initial()
      modifies this
      ensures Valid() && fresh(Repr - old(Repr))
      ensures reader.None? <==> OpenStream(localPath, mode).None?
      ensures reader.None? ==> State() == old(State())
      ensures reader.Some? ==>
        var spec := OpenStream(localPath, mode).value;
        Openable(spec) && fresh(ReaderRepr(reader.value)) && (reader.value.PlainReader? <==> spec.File?) &&
        Remaining() == Contents(fs, spec) &&
        (ReaderIsOpen(reader.value) <==> localPath in fs.files) &&
        State() == old(State()).(reader := reader, io := Idle.(socketOpen := ReaderIsOpen(reader.value),
          resolvePending := ReaderIsOpen(reader.value)))
    {
      ClientStreamOpenable(localPath, mode);
      var spec := OpenStream(localPath, mode);
      if spec.None? {
        Terminate(false);
        return;
      }
      var r := OpenReader(fs, spec.value);
      reader := Some(r);
      Repr := Repr + ReaderRepr(r);
      if !ReaderIsOpen(r) {
        Terminate(false);
        return;
      }
      io := io.(socketOpen := true, resolvePending := true);
    }

    /** `on_resolve_query`: without results nothing happens; otherwise the
        first result becomes the server endpoint and the WRQ is sent. */
    method OnResolveQuery(results: seq<Endpoint>)
      requires Valid() && io.resolvePending
      modifies this
      ensures Valid() && Repr == old(Repr)
      ensures var s := old(State()).(io := old(io).(resolvePending := false));
        State() == if results == [] then s else Sent(s.(serverEndpoint := results[0]), RequestBytes(), true, DEFAULT_RETRY_COUNTER)
    {
      io := io.(resolvePending := false);
      if |results| == 0 {
        return;
      }
      serverEndpoint := results[0];
      SendRequest();
    }

    /** `send_request`: the WRQ awaits an answer with a budget of 5. */
    method SendRequest()
      requires Valid() && io.socketOpen && !requestComplete && !io.resolvePending
      modifies this
      ensures Valid() && Repr == old(Repr)
      ensures State() == Sent(old(State()), RequestBytes(), true, DEFAULT_RETRY_COUNTER)
    {
      SendPacket(RequestBytes(), true, DEFAULT_RETRY_COUNTER);
    }

    /** `send_packet`. */
    method SendPacket(bytes: seq<byte>, expectResponse: bool, retries: int)
      modifies this`outPacketData, this`responseExpected, this`retryCounter, this`io
      ensures State() == Sent(old(State()), bytes, expectResponse, retries)
    {
      outPacketData := bytes;
      responseExpected := expectResponse;
      retryCounter := retries;
      SendPreparedPacket();
    }

    /** `send_prepared_packet`. */
    method SendPreparedPacket()
      modifies this`io
      ensures State() == Resent(old(State()))
    {
      io := SendTo(io, serverEndpoint, outPacketData);
    }

    /** `stop`. */
    method Stop()
      modifies this`io
      ensures State() == Stopped(old(State()))
    {
      io := Closed(io);
    }

    /** `terminate`: only stops; the outcome it is given is not used. */
    method Terminate(success: bool)
      modifies this`io
      ensures State() == Stopped(old(State()))
    {
      Stop();
    }

    /** `on_packet_sent`: a failed send stops the client; a packet that
        awaits an answer arms the timer and a receive; any other packet
        (the ERROR of a failed read) ends the upload. */
    method OnPacketSent(failed: bool)
      requires Valid() && io.sendsInFlight > 0
      modifies this
      ensures Valid() && Repr == old(Repr)
      ensures failed || !old(responseExpected) ==> State() == Stopped(old(State()))
      ensures !failed && old(responseExpected) ==>
        State() == old(State()).(io := old(io).(sendsInFlight := old(io.sendsInFlight) - 1, timerArmed := true,
          receivesPending := old(io.receivesPending) + 1))
    {
      io := io.(sendsInFlight := io.sendsInFlight - 1);
      if failed {
        Terminate(false);
        return;
      }
      if responseExpected {
        io := io.(timerArmed := true, receivesPending := io.receivesPending + 1);
      } else {
        Terminate(false);
      }
    }

    /** `on_send_timeout`: a timer error is ignored; otherwise the same
        bytes go out again while the decremented counter stays positive,
        and the client stops when it does not. */
    method OnSendTimeout(failed: bool)
      requires Valid() && io.timerArmed
      modifies this
      ensures Valid() && Repr == old(Repr)
      ensures failed ==> State() == old(State()).(io := old(io).(timerArmed := false))
      ensures !failed && old(retryCounter) > 1 ==>
        State() == Resent(old(State()).(io := old(io).(timerArmed := false), retryCounter := old(retryCounter) - 1))
      ensures !failed && old(retryCounter) <= 1 ==>
        State() == Stopped(old(State()).(retryCounter := old(retryCounter) - 1))
    {
      io := io.(timerArmed := false);
      if failed {
        return;
      }
      retryCounter := retryCounter - 1;
      if retryCounter > 0 {
        SendPreparedPacket();
      } else {
        Terminate(false);
      }
    }

    /** `on_packet_received`: a receive error stops the client; once the
        request is complete, a datagram from another endpoint is dropped;
        otherwise it is decoded and handled. */
    method OnPacketReceived(from: Endpoint, bytes: seq<byte>, failed: bool)
      requires Valid() && io.receivesPending > 0
      modifies Repr
      ensures Valid() && Repr == old(Repr)
      ensures failed ==>
        State() == Stopped(old(State())) && Remaining() == old(Remaining()) && ReadFails() == old(ReadFails())
      ensures !failed && old(requestComplete) && from != old(serverEndpoint) ==>
        State() == old(State()).(io := old(io).(receivesPending := old(io.receivesPending) - 1)) &&
        Remaining() == old(Remaining()) && ReadFails() == old(ReadFails())
      ensures !failed && (old(requestComplete) ==> from == old(serverEndpoint)) ==>
        Received(from, bytes, old(State()).(io := old(io).(receivesPending := old(io.receivesPending) - 1)),
          old(Remaining()), old(ReadFails()))
    {
      io := io.(receivesPending := io.receivesPending - 1);
      if failed {
        Terminate(false);
        return;
      }
      if requestComplete && serverEndpoint != from {
        return;
      }
      ghost var s := State();
      assert s == old(State()).(io := old(io).(receivesPending := old(io.receivesPending) - 1));
      ghost var due := Remaining();
      ghost var fails := ReadFails();
      assert due == old(Remaining()) && fails == old(ReadFails());
      ReceivedFromServer(from, bytes);
    }

    /** What a datagram the client accepts leaves, from the state `before`,
        the bytes `due` from the reader and whether a read `fails`: one that
        does not decode changes nothing, an ERROR stops the client, an ACK
        is processed, any other packet is ignored. */
    ghost predicate Received(from: Endpoint, bytes: seq<byte>, before: PutState, due: seq<byte>, fails: bool)
      reads this, if reader.Some? then ReaderRepr(reader.value) else {}
    {
      match Parse(bytes)
      case None => State() == before && Remaining() == due
      case Some(p) =>
        if p.ErrorPkt? then State() == Stopped(before) && Remaining() == due
        else if p.AckPkt? then AckHandled(from, p.blockNo, before, due, fails)
        else State() == before && Remaining() == due
    }

    /** `parse_packet`, then the `switch` on the opcode, which is the
        variant (see `ParseOpcode`). */
    method ReceivedFromServer(from: Endpoint, bytes: seq<byte>)
      requires Valid() && io.socketOpen && !io.resolvePending
      modifies Repr
      ensures Valid() && Repr == old(Repr)
      ensures Received(from, bytes, old(State()), old(Remaining()), old(ReadFails()))
    {
      var packet := ParsePacket(bytes);
      if packet.None? {
        return;
      }
      var p := packet.value;
      if p.AckPkt? {
        ProcessAckReceived(from, p);
      } else if p.ErrorPkt? {
        Terminate(false);
      }
    }

    /** What `process_ack_received` leaves for ACK `blockNo` from `from`: an
        ACK for another block changes nothing; the first accepted one binds
        the server endpoint; after the last block the upload ends with
        success, otherwise the next block goes out (`NextBlockSent`). */
    ghost predicate AckHandled(from: Endpoint, blockNo: u16, before: PutState, due: seq<byte>, fails: bool)
      reads this, if reader.Some? then ReaderRepr(reader.value) else {}
    {
      if blockNo != before.lastSentPacketId then State() == before && Remaining() == due
      else
        var mid := if before.requestComplete then before else before.(requestComplete := true, serverEndpoint := from);
        if before.lastPacketSent then State() == Stopped(mid) && Remaining() == due
        else NextBlockSent(mid, due, fails)
    }

    /** The next block: its number is the previous one plus one, wrapping
        after 65535; a failed read sends ERROR 0, otherwise the DATA holds
        the next bytes due, at most 512 of them, and a short one is the
        last. */
    ghost predicate NextBlockSent(before: PutState, due: seq<byte>, fails: bool)
      reads this, if reader.Some? then ReaderRepr(reader.value) else {}
    {
      var id := ToU16(before.lastSentPacketId + 1);
      var block := due[..Min(DEFAULT_DATA_SIZE, |due|)];
      if fails then
        State() == Sent(before.(lastSentPacketId := id), ReadError(), false, 0) && Remaining() == due
      else
        State() == Sent(before.(lastSentPacketId := id), EncodeData(DataPkt(OP_DATA, id, block)),
          true, DEFAULT_RETRY_COUNTER).(lastPacketSent := |due| < DEFAULT_DATA_SIZE) &&
        Remaining() == due[|block|..]
    }

    /** `process_ack_received`. */
    method ProcessAckReceived(from: Endpoint, p: Packet)
      requires Valid() && p.AckPkt? && io.socketOpen && !io.resolvePending
      modifies Repr
      ensures Valid() && Repr == old(Repr)
      ensures AckHandled(from, p.blockNo, old(State()), old(Remaining()), old(ReadFails()))
    {
      if lastSentPacketId != p.blockNo {
        return;
      }
      if !requestComplete {
        requestComplete := true;
        serverEndpoint := from;
      }
      ghost var mid := State();
      ghost var due := Remaining();
      assert due == old(Remaining()) && ReadFails() == old(ReadFails());
      if lastPacketSent {
        Terminate(true);
        return;
      }
      SendNextBlock();
      assert NextBlockSent(mid, due, old(ReadFails()));
    }

    /** The rest of `process_ack_received`: number, read and send. */
    method SendNextBlock()
      requires Settled() && requestComplete && !lastPacketSent && io.socketOpen
      modifies Repr
      ensures Valid() && Repr == old(Repr)
      ensures NextBlockSent(old(State()), old(Remaining()), old(ReadFails()))
    {
      lastSentPacketId := ToU16(lastSentPacketId + 1);
      ghost var mid := State();
      assert mid == old(State()).(lastSentPacketId := ToU16(old(lastSentPacketId) + 1));
      ghost var due := Remaining();
      assert due == old(Remaining());
      var ok, block := ReadBlock();
      if !ok {
        SendReadError();
        return;
      }
      ShortOnlyAtEndIsPrefix(block, Remaining(), due, DEFAULT_DATA_SIZE);
      SendBlock(block);
    }

    /** The read of `process_ack_received`: at most one block of what is
        due, short only at the end; only a plain file that cannot deliver
        fails, and it has nothing due. */
    method ReadBlock() returns (ok: bool, block: seq<byte>)
      requires Settled() && reader.Some?
      modifies ReaderRepr(reader.value)
      ensures Settled() && State() == old(State())
      ensures !ok <==> old(ReadFails())
      ensures !ok ==> Remaining() == old(Remaining()) == []
      ensures ok ==> block + Remaining() == old(Remaining())
      ensures ok ==> |block| <= DEFAULT_DATA_SIZE && (|block| < DEFAULT_DATA_SIZE ==> Remaining() == [])
    {
      ok, block := Read(reader.value, DEFAULT_DATA_SIZE);
    }

    /** The ERROR of `process_ack_received` when the read fails: it awaits
        no answer, so its completion ends the upload. */
    method SendReadError()
      requires Settled() && io.socketOpen && !io.resolvePending
      modifies this`outPacketData, this`responseExpected, this`retryCounter, this`io
      ensures Valid() && Repr == old(Repr) && Remaining() == old(Remaining())
      ensures State() == Sent(old(State()), ReadError(), false, 0)
    {
      var bytes := BuildError(ErrorPkt(OP_ERROR, ERRCODE_UNDEFINED, MSG_CANNOT_READ_DATA));
      SendPacket(bytes, false, 0);
    }

    /** The DATA of `process_ack_received`: sent awaiting its ACK with a
        budget of 5, then marked last when short. */
    method SendBlock(block: seq<byte>)
      requires Settled() && requestComplete && !lastPacketSent && io.socketOpen
      requires |block| <= DEFAULT_DATA_SIZE
      modifies this`lastPacketSent, this`payload, this`outPacketData, this`responseExpected, this`retryCounter, this`io
      ensures Valid() && Repr == old(Repr) && Remaining() == old(Remaining())
      ensures State() == Sent(old(State()), EncodeData(DataPkt(OP_DATA, lastSentPacketId, block)),
        true, DEFAULT_RETRY_COUNTER).(lastPacketSent := |block| < DEFAULT_DATA_SIZE)
    {
      var bytes := BuildData(DataPkt(OP_DATA, lastSentPacketId, block));
      payload := block;
      SendPacket(bytes, true, DEFAULT_RETRY_COUNTER);
      if |block| < DEFAULT_DATA_SIZE {
        lastPacketSent := true;
      }
    }
  }

  /** One round without an answer: the send completes, the timer fires and
      the same packet goes out again with one retry fewer. */
  method Unanswered1(c: ClientPut)
    requires c.Valid() && c.responseExpected && c.retryCounter > 1 && c.io.sendsInFlight > 0
    modifies c
    ensures c.Valid() && c.Repr == old(c.Repr)
    ensures c.State() == old(c.State()).(retryCounter := old(c.retryCounter) - 1,
      io := old(c.io).(outbox := old(c.io.outbox) + [Datagram(old(c.serverEndpoint), old(c.outPacketData))],
        receivesPending := old(c.io.receivesPending) + 1, timerArmed := false))
  {
    c.OnPacketSent(false);
    c.OnSendTimeout(false);
  }

  /** Two rounds without an answer. */
  method Unanswered2(c: ClientPut)
    requires c.Valid() && c.responseExpected && c.retryCounter > 2 && c.io.sendsInFlight > 0
    modifies c
    ensures c.Valid() && c.Repr == old(c.Repr)
    ensures var d := Datagram(old(c.serverEndpoint), old(c.outPacketData));
      c.State() == old(c.State()).(retryCounter := old(c.retryCounter) - 2,
        io := old(c.io).(outbox := old(c.io.outbox) + [d, d],
          receivesPending := old(c.io.receivesPending) + 2, timerArmed := false))
  {
    ghost var d := Datagram(c.serverEndpoint, c.outPacketData);
    ghost var s := c.State();
    Unanswered1(c);
    assert c.State() == s.(retryCounter := s.retryCounter - 1, io := s.io.(outbox := s.io.outbox + [d],
      receivesPending := s.io.receivesPending + 1, timerArmed := false));
    Unanswered1(c);
    assert c.io.outbox == s.io.outbox + [d, d];
  }

  /** The last round without an answer: the send completes and the timer
      fires with one retry left, so the client stops. */
  method Exhausted(c: ClientPut)
    requires c.Valid() && c.responseExpected && c.retryCounter == 1 && c.io.sendsInFlight > 0
    modifies c
    ensures c.State() == Stopped(old(c.State()).(retryCounter := 0))
  {
    c.OnPacketSent(false);
    c.OnSendTimeout(false);
  }

  /** A server that never answers: the packet just sent with the full
      budget of 5 (the WRQ or a DATA) goes out four more times, once per
      timeout, and the fifth timeout stops the client, so the server is sent
      that packet five times in all. */
  method Unanswered(c: ClientPut)
    requires c.Valid() && c.responseExpected && c.retryCounter == DEFAULT_RETRY_COUNTER
    requires c.io.sendsInFlight > 0 && c.io.outbox != []
    requires c.io.outbox[|c.io.outbox| - 1] == Datagram(c.serverEndpoint, c.outPacketData)
    modifies c
    ensures var d := Datagram(old(c.serverEndpoint), old(c.outPacketData));
      c.State() == Stopped(old(c.State()).(retryCounter := 0, io := old(c.io).(outbox := old(c.io.outbox) + [d, d, d, d])))
    ensures var d := Datagram(old(c.serverEndpoint), old(c.outPacketData));
      c.io.outbox[|old(c.io.outbox)| - 1..] == [d, d, d, d, d]
  {
    ghost var d := Datagram(c.serverEndpoint, c.outPacketData);
    ghost var s := c.State();
    Unanswered2(c);
    Unanswered2(c);
    assert c.io.outbox == s.io.outbox + [d, d, d, d];
    assert c.State() == s.(retryCounter := 1, io := s.io.(outbox := s.io.outbox + [d, d, d, d],
      receivesPending := s.io.receivesPending + 4, timerArmed := false));
    Exhausted(c);
    FiveInARow(s.io.outbox, d);
  }
}
