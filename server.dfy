/** The TFTP server's registry of live transfers: an RRQ or WRQ arriving at
    the server port creates a connection, registers it and starts it; a
    connection that finishes asks the server to stop and forget it. */
module Servers {
  import opened Wire
  import opened FileIo
  import opened Streams
  import ReadConnections
  import WriteConnections

  /** A registered connection: one of the two transfer directions. */
  datatype Connection =
    | Reading(r: ReadConnections.ReadConnection)
    | Writing(w: WriteConnections.WriteConnection)

  /** The object behind a connection, the one its `stop` changes. */
  function Target(c: Connection): object
  {
    match c
    case Reading(r) => r
    case Writing(w) => w
  }

  class Server {
    /** The root directory the server's I/O manager serves files from. */
    const root: Str
    /** `m_connections`. */
    var connections: set<Connection>

    constructor (root: Str)
      ensures this.root == root && connections == {}
    {
      this.root := root;
      connections := {};
    }

    /** `handle_server_packet`: an RRQ creates a read connection, a WRQ a
        write connection, each registered and started with the files as
        they are now; any other opcode is reported and dropped. The new
        connection is returned so that callers can keep driving it. */
    method HandleServerPacket(fs: FileSystem, packet: Packet, clientEndpoint: Endpoint)
      returns (created: Option<Connection>)
      requires packet.op == OP_RRQ || packet.op == OP_WRQ ==> packet.FileReq?
      modifies this`connections
      ensures created.Some? <==> packet.op == OP_RRQ || packet.op == OP_WRQ
      ensures created.None? ==> connections == old(connections)
      ensures created.Some? ==>
        created.value !in old(connections) && connections == old(connections) + {created.value}
      ensures created.Some? ==> (created.value.Reading? <==> packet.op == OP_RRQ)
      ensures created.Some? && created.value.Reading? ==>
        var r := created.value.r;
        fresh(r) && fresh(r.Repr) && r.Valid() && r.root == root && r.request == packet &&
        r.clientEndpoint == clientEndpoint && r.FirstSent(fs)
      ensures created.Some? && created.value.Writing? ==>
        var w := created.value.w;
        fresh(w) && fresh(w.Repr) && w.Valid() && w.root == root && w.request == packet &&
        w.clientEndpoint == clientEndpoint && w.FirstSent(fs)
    {
      if packet.op == OP_RRQ {
        var r := HandleRrqPacket(fs, packet, clientEndpoint);
        created := Some(Reading(r));
      } else if packet.op == OP_WRQ {
        var w := HandleWrqPacket(fs, packet, clientEndpoint);
        created := Some(Writing(w));
      } else {
        created := None;
      }
    }

    /** `handle_rrq_packet`. */
    method HandleRrqPacket(fs: FileSystem, packet: Packet, clientEndpoint: Endpoint)
      returns (r: ReadConnections.ReadConnection)
      requires packet.FileReq?
      modifies this`connections
      ensures fresh(r) && fresh(r.Repr) && r.Valid() && r.FirstSent(fs)
      ensures r.root == root && r.request == packet && r.clientEndpoint == clientEndpoint
      ensures Reading(r) !in old(connections) && connections == old(connections) + {Reading(r)}
    {
      r := new ReadConnections.ReadConnection(root, packet, clientEndpoint);
      ConnectionCreated(fs, Reading(r));
    }

    /** `handle_wrq_packet`. */
    method HandleWrqPacket(fs: FileSystem, packet: Packet, clientEndpoint: Endpoint)
      returns (w: WriteConnections.WriteConnection)
      requires packet.FileReq?
      modifies this`connections
      ensures fresh(w) && fresh(w.Repr) && w.Valid() && w.FirstSent(fs)
      ensures w.root == root && w.request == packet && w.clientEndpoint == clientEndpoint
      ensures Writing(w) !in old(connections) && connections == old(connections) + {Writing(w)}
    {
      w := new WriteConnections.WriteConnection(root, packet, clientEndpoint);
      ConnectionCreated(fs, Writing(w));
    }

    /** `connection_created`: the connection is registered, then started. */
    method ConnectionCreated(fs: FileSystem, c: Connection)
      requires c.Reading? ==> c.r.Valid() && c.r.Initial()
      requires c.Writing? ==> c.w.Valid() && c.w.Initial()
      requires this !in (if c.Reading? then c.r.Repr else c.w.Repr)
      modifies this`connections, if c.Reading? then c.r.Repr else c.w.Repr
      ensures connections == old(connections) + {c}
      ensures c.Reading? ==> c.r.Valid() && fresh(c.r.Repr - old(c.r.Repr)) && c.r.FirstSent(fs)
      ensures c.Writing? ==> c.w.Valid() && fresh(c.w.Repr - old(c.w.Repr)) && c.w.FirstSent(fs)
    {
      connections := connections + {c};
      match c {
        case Reading(r) => r.Start(fs);
        case Writing(w) => w.Start(fs);
      }
    }

    /** `connection_terminated`: the connection is stopped, then removed if
        it is registered; an unregistered one is only reported. */
    method ConnectionTerminated(c: Connection) returns (registered: bool)
      modifies this`connections, Target(c)
      ensures registered <==> c in old(connections)
      ensures connections == old(connections) - {c}
      ensures !registered ==> connections == old(connections)
      ensures c.Reading? ==> c.r.State() == ReadConnections.Stopped(old(c.r.State()))
      ensures c.Writing? ==> c.w.State() == WriteConnections.Stopped(old(c.w.State()))
    {
      match c {
        case Reading(r) => r.Stop();
        case Writing(w) => w.Stop();
      }
      registered := c in connections;
      if registered {
        connections := connections - {c};
      }
    }
  }
}
