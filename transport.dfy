/** The asio objects of one transfer (its socket, its retry timer and, on
    the client side, its resolver) as the handlers see them: a send, a
    receive, a timer wait or a resolution is outstanding from the call that
    starts it until its completion handler runs, and `stop` cancels every
    one of them. */
module Transport {
  import opened Wire

  datatype Io = Io(
    /** Every datagram passed to `async_send_to`, in order. */
    outbox: seq<Datagram>,
    socketOpen: bool,
    resolvePending: bool,
    sendsInFlight: nat,
    receivesPending: nat,
    /** A timer wait is armed; re-arming replaces the previous wait. */
    timerArmed: bool)

  /** Nothing opened, nothing armed. */
  const Idle: Io := Io([], false, false, 0, 0, false)

  /** `async_send_to(bytes, to)`. */
  function SendTo(io: Io, to: Endpoint, bytes: seq<byte>): Io
  {
    io.(outbox := io.outbox + [Datagram(to, bytes)], sendsInFlight := io.sendsInFlight + 1)
  }

  /** `stop`: the resolver and the timer are cancelled and the socket is
      closed, so every outstanding completion reports cancellation, which
      every handler ignores; they are dropped here. */
  function Closed(io: Io): Io
  {
    io.(socketOpen := false, resolvePending := false, sendsInFlight := 0, receivesPending := 0, timerArmed := false)
  }

  /** Nothing is outstanding on a closed socket. */
  predicate Quiet(io: Io)
  {
    !io.socketOpen ==> !io.resolvePending && io.sendsInFlight == 0 && io.receivesPending == 0 && !io.timerArmed
  }

  /** A send only adds its datagram at the end and one send outstanding,
      and keeps a quiet open socket quiet. */
  lemma SendAppends(io: Io, to: Endpoint, bytes: seq<byte>)
    ensures SendTo(io, to, bytes).outbox[..|io.outbox|] == io.outbox
    ensures SendTo(io, to, bytes).outbox[|io.outbox|] == Datagram(to, bytes)
    ensures SendTo(io, to, bytes).sendsInFlight == io.sendsInFlight + 1
    ensures Quiet(io) && io.socketOpen ==> Quiet(SendTo(io, to, bytes))
  {
  }

  /** `stop` leaves nothing outstanding and sends nothing. */
  lemma CloseQuiets(io: Io)
    ensures Quiet(Closed(io)) && !Closed(io).socketOpen && Closed(io).outbox == io.outbox
  {
  }

  /** Four resends of the datagram sent last make five copies of it at the
      end of the outbox. */
  lemma FiveInARow(outbox: seq<Datagram>, d: Datagram)
    requires outbox != [] && outbox[|outbox| - 1] == d
    ensures (outbox + [d, d, d, d])[|outbox| - 1..] == [d, d, d, d, d]
  {
  }
}
