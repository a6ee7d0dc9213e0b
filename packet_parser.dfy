/** Decoding of a received datagram into a packet record (RFC 1350,
    section 5). The functions state the wire layout the parser accepts; the
    methods are the parser itself, run over a `Deserializer`, and are proved
    to compute exactly those functions. */
module PacketParser {
  import opened Wire
  import opened Deserialization

  /** The big-endian 16-bit word at offset `i`. */
  function U16At(b: seq<byte>, i: nat): (r: u16)
    requires i + 2 <= |b|
  {
    b[i] as int * 256 + b[i + 1]
  }

  /** The NUL-terminated string starting at `from`, with the offset just
      past its terminator. */
  function StringAt(b: seq<byte>, from: nat): (r: Option<(Str, nat)>)
    requires from <= |b|
    ensures r.Some? ==> from < r.value.1 <= |b|
  {
    match FindNul(b, from)
    case None => None
    case Some(k) => Some((b[from..k], k + 1))
  }

  /** `StringAt` is the `FindNul` search `read_string` performs. */
  lemma StringAtFindNul(b: seq<byte>, from: nat)
    requires from <= |b|
    ensures FindNul(b, from).None? ==> StringAt(b, from).None?
    ensures FindNul(b, from).Some? ==>
      StringAt(b, from) == Some((b[from..FindNul(b, from).value], FindNul(b, from).value + 1))
  {
  }

  /** A string field is the bytes before the first NUL, which ends it; with
      no NUL left there is no field. */
  lemma StringAtShape(b: seq<byte>, from: nat)
    requires from <= |b|
    ensures StringAt(b, from).Some? ==>
      var (s, j) := StringAt(b, from).value;
      b[j - 1] == NUL && s == b[from..j - 1] && NUL !in s && b[from..] == s + [NUL] + b[j..]
    ensures StringAt(b, from).None? ==> NUL !in b[from..]
  {
    FindNulFirst(b, from);
    if StringAt(b, from).Some? {
      var (s, j) := StringAt(b, from).value;
      assert b[from..] == b[from..j - 1] + [b[j - 1]] + b[j..];
    }
  }

  /** `std::map::emplace`: inserts only when the key is not yet present. */
  function Emplace(m: map<Str, Str>, name: Str, value: Str): (r: map<Str, Str>)
    ensures name in r && r.Keys == m.Keys + {name}
    ensures name in m ==> r[name] == m[name]
    ensures name !in m ==> r[name] == value
  {
    if name in m then m else m[name := value]
  }

  /** `emplace` never changes a value already present. */
  lemma EmplaceKeeps(m: map<Str, Str>, name: Str, value: Str)
    ensures forall k :: k in m ==> Emplace(m, name, value)[k] == m[k]
  {
  }

  /** The (name, value) pairs from `from` to the end of the buffer, added to
      `acc`; a name without a value, or a missing terminator, fails. */
  function OptionsFrom(b: seq<byte>, from: nat, acc: map<Str, Str>): Option<map<Str, Str>>
    requires from <= |b|
    decreases |b| - from
  {
    if from == |b| then Some(acc)
    else
      match StringAt(b, from)
      case None => None
      case Some((name, i)) =>
        match StringAt(b, i)
        case None => None
        case Some((value, j)) => OptionsFrom(b, j, Emplace(acc, name, value))
  }

  /** RRQ/WRQ body from offset 2: file name, mode, then options. */
  function FileReqOf(op: u16, b: seq<byte>): Option<Packet>
    requires 2 <= |b|
  {
    match StringAt(b, 2)
    case None => None
    case Some((filename, i)) =>
      match StringAt(b, i)
      case None => None
      case Some((mode, j)) =>
        match OptionsFrom(b, j, map[])
        case None => None
        case Some(options) => Some(FileReq(op, filename, mode, options))
  }

  /** DATA body from offset 2: block number, then every remaining byte. */
  function DataOf(b: seq<byte>): Option<Packet>
    requires 2 <= |b|
  {
    if |b| < 4 then None else Some(DataPkt(OP_DATA, U16At(b, 2), b[4..]))
  }

  /** ACK body from offset 2: the block number and nothing after it. */
  function AckOf(b: seq<byte>): Option<Packet>
    requires 2 <= |b|
  {
    if |b| < 4 || 4 < |b| then None else Some(AckPkt(OP_ACK, U16At(b, 2)))
  }

  /** ERROR body from offset 2: code, message, and nothing after it. */
  function ErrorOf(b: seq<byte>): Option<Packet>
    requires 2 <= |b|
  {
    if |b| < 4 then None
    else
      match StringAt(b, 4)
      case None => None
      case Some((message, i)) =>
        if i < |b| then None else Some(ErrorPkt(OP_ERROR, U16At(b, 2), message))
  }

  /** The packet a datagram decodes to; `None` stands for the null pointer
      `parse_packet` returns on an unknown opcode or a decode failure. */
  function Parse(b: seq<byte>): Option<Packet>
  {
    if |b| < 2 then None
    else
      var op := U16At(b, 0);
      if op == OP_RRQ || op == OP_WRQ then FileReqOf(op, b)
      else if op == OP_DATA then DataOf(b)
      else if op == OP_ACK then AckOf(b)
      else if op == OP_ERROR then ErrorOf(b)
      else None
  }

  /** The outcome of a body parser agrees with its specification. */
  predicate Agrees(r: Result<Packet>, spec: Option<Packet>)
  {
    if r.Ok? then spec == Some(r.value) else spec.None?
  }

  /** `parse_packet`. */
  method ParsePacket(buffer: seq<byte>) returns (r: Option<Packet>)
    ensures r == Parse(buffer)
  {
    var d := new Deserializer(buffer);
    var op := d.ReadUint16();
    if op.Err? {
      return None;
    }
    var body: Result<Packet>;
    if op.value == OP_RRQ || op.value == OP_WRQ {
      body := ParseFileReq(op.value, d);
    } else if op.value == OP_DATA {
      body := ParseData(d);
    } else if op.value == OP_ACK {
      body := ParseAck(d);
    } else if op.value == OP_ERROR {
      body := ParseError(d);
    } else {
      return None;
    }
    r := if body.Ok? then Some(body.value) else None;
  }

  /** `parse_file_req`: file name and mode, then the options. */
  method ParseFileReq(op: u16, d: Deserializer) returns (r: Result<Packet>)
    requires d.Valid() && d.current == 2
    modifies d
    ensures Agrees(r, FileReqOf(op, d.buffer))
  {
    ghost var b := d.buffer;
    var filename := d.ReadString();
    if filename.Err? {
      return Err(filename.error);
    }
    assert StringAt(b, 2) == Some((filename.value, d.current));
    ghost var i := d.current;
    var mode := d.ReadString();
    if mode.Err? {
      return Err(mode.error);
    }
    assert StringAt(b, i) == Some((mode.value, d.current));
    var options := ReadOptions(d);
    if options.Err? {
      return Err(options.error);
    }
    r := Ok(FileReq(op, filename.value, mode.value, options.value));
  }

  /** The option loop of `parse_file_req`: (name, value) pairs while bytes
      remain, each added with `emplace`, then `ensure_all_read`. */
  method ReadOptions(d: Deserializer) returns (r: Result<map<Str, Str>>)
    requires d.Valid()
    modifies d
    ensures var spec := OptionsFrom(d.buffer, old(d.current), map[]);
      if r.Ok? then spec == Some(r.value) else spec.None?
  {
    ghost var b := d.buffer;
    ghost var spec := OptionsFrom(b, d.current, map[]);
    var options: map<Str, Str> := map[];
    while d.HasMoreBytes()
      invariant d.Valid()
      invariant OptionsFrom(b, d.current, options) == spec
      decreases |b| - d.current
    {
      ghost var at := d.current;
      var name := d.ReadString();
      if name.Err? {
        StringAtFindNul(b, at);
        return Err(NotEnoughData);
      }
      StringAtFindNul(b, at);
      ghost var mid := d.current;
      var value := d.ReadString();
      if value.Err? {
        StringAtFindNul(b, mid);
        return Err(NotEnoughData);
      }
      StringAtFindNul(b, mid);
      OptionsStep(b, at, mid, d.current, options, name.value, value.value);
      options := Emplace(options, name.value, value.value);
    }
    var done := d.EnsureAllRead();
    if done.Err? {
      return Err(TooMuchData);
    }
    r := Ok(options);
  }

  /** One (name, value) pair of the option loop. */
  lemma OptionsStep(b: seq<byte>, at: nat, mid: nat, next: nat, acc: map<Str, Str>, name: Str, value: Str)
    requires at < |b| && mid <= |b|
    requires StringAt(b, at) == Some((name, mid)) && StringAt(b, mid) == Some((value, next))
    ensures OptionsFrom(b, at, acc) == OptionsFrom(b, next, Emplace(acc, name, value))
  {
  }

  /** `parse_data`: no cap on the payload length. */
  method ParseData(d: Deserializer) returns (r: Result<Packet>)
    requires d.Valid() && d.current == 2
    modifies d
    ensures Agrees(r, DataOf(d.buffer))
  {
    var blockNo := d.ReadUint16();
    if blockNo.Err? {
      return Err(blockNo.error);
    }
    var data := d.ReadRemainingBytes([]);
    assert data == d.buffer[4..];
    var done := d.EnsureAllRead();
    if done.Err? {
      return Err(TooMuchData);
    }
    r := Ok(DataPkt(OP_DATA, blockNo.value, data));
  }

  /** `parse_ack`. */
  method ParseAck(d: Deserializer) returns (r: Result<Packet>)
    requires d.Valid() && d.current == 2
    modifies d
    ensures Agrees(r, AckOf(d.buffer))
  {
    var blockNo := d.ReadUint16();
    if blockNo.Err? {
      return Err(blockNo.error);
    }
    var done := d.EnsureAllRead();
    if done.Err? {
      return Err(done.error);
    }
    r := Ok(AckPkt(OP_ACK, blockNo.value));
  }

  /** `parse_error`. */
  method ParseError(d: Deserializer) returns (r: Result<Packet>)
    requires d.Valid() && d.current == 2
    modifies d
    ensures Agrees(r, ErrorOf(d.buffer))
  {
    var code := d.ReadUint16();
    if code.Err? {
      return Err(code.error);
    }
    var message := d.ReadString();
    if message.Err? {
      return Err(message.error);
    }
    var done := d.EnsureAllRead();
    if done.Err? {
      return Err(done.error);
    }
    r := Ok(ErrorPkt(OP_ERROR, code.value, message.value));
  }

  // ---------------------------------------------------------------------
  // Properties of the accepted layout

  /** Input shorter than an opcode, and any opcode outside 1..5, decode to
      null; a decoded packet carries the opcode it was read with. */
  lemma ParseOpcode(b: seq<byte>)
    ensures |b| < 2 ==> Parse(b).None?
    ensures |b| >= 2 && !(1 <= U16At(b, 0) <= 5) ==> Parse(b).None?
    ensures Parse(b).Some? ==> |b| >= 4 && Parse(b).value.op == U16At(b, 0)
    ensures Parse(b).Some? && Parse(b).value.FileReq? ==> U16At(b, 0) in {OP_RRQ, OP_WRQ}
    ensures Parse(b).Some? && Parse(b).value.DataPkt? ==> U16At(b, 0) == OP_DATA
    ensures Parse(b).Some? && Parse(b).value.AckPkt? ==> U16At(b, 0) == OP_ACK
    ensures Parse(b).Some? && Parse(b).value.ErrorPkt? ==> U16At(b, 0) == OP_ERROR
  {
    if |b| >= 2 && U16At(b, 0) in {OP_RRQ, OP_WRQ} && Parse(b).Some? {
      var op := U16At(b, 0);
      var (f, i) := StringAt(b, 2).value;
      var (m, j) := StringAt(b, i).value;
      assert j >= 4;
    }
  }

  /** An ACK is exactly opcode and block number: one trailing byte, or one
      missing, and the datagram is rejected. */
  lemma AckLayout(b: seq<byte>)
    requires |b| >= 2 && U16At(b, 0) == OP_ACK
    ensures Parse(b).Some? <==> |b| == 4
    ensures |b| == 4 ==> Parse(b) == Some(AckPkt(OP_ACK, U16At(b, 2)))
  {
  }

  /** A DATA packet needs its block number; its payload is every byte after
      it, however many there are. */
  lemma DataLayout(b: seq<byte>)
    requires |b| >= 2 && U16At(b, 0) == OP_DATA
    ensures Parse(b).Some? <==> |b| >= 4
    ensures |b| >= 4 ==> Parse(b) == Some(DataPkt(OP_DATA, U16At(b, 2), b[4..]))
  {
  }

  /** An ERROR packet is code plus message, and the message's NUL must be
      the last byte of the datagram. */
  lemma ErrorLayout(b: seq<byte>)
    requires |b| >= 2 && U16At(b, 0) == OP_ERROR
    ensures Parse(b).Some? <==> |b| >= 5 && NUL !in b[4..|b| - 1] && b[|b| - 1] == NUL
    ensures Parse(b).Some? ==> Parse(b) == Some(ErrorPkt(OP_ERROR, U16At(b, 2), b[4..|b| - 1]))
  {
    if |b| >= 5 && NUL !in b[4..|b| - 1] && b[|b| - 1] == NUL {
      assert forall j :: 4 <= j < |b| - 1 ==> b[j] != NUL by {
        forall j | 4 <= j < |b| - 1 ensures b[j] != NUL {
          assert b[4..|b| - 1][j - 4] == b[j];
        }
      }
      FindNulAt(b, 4, |b| - 1);
    }
    if Parse(b).Some? {
      StringAtShape(b, 4);
      var (m, i) := StringAt(b, 4).value;
      assert i == |b|;
    }
  }

  /** Number of NUL bytes from offset `from` to the end. */
  function NulsFrom(b: seq<byte>, from: nat): nat
    requires from <= |b|
    decreases |b| - from
  {
    if from == |b| then 0 else (if b[from] == NUL then 1 else 0) + NulsFrom(b, from + 1)
  }

  /** Reading up to the next NUL consumes exactly one NUL. */
  lemma {:induction false} NulsThroughString(b: seq<byte>, from: nat)
    requires from <= |b| && FindNul(b, from).Some?
    ensures NulsFrom(b, from) == 1 + NulsFrom(b, FindNul(b, from).value + 1)
    decreases |b| - from
  {
    if b[from] != NUL {
      NulsThroughString(b, from + 1);
    }
  }

  /** A (name, value) pair holds two terminators. */
  lemma PairNulCount(b: seq<byte>, from: nat, i: nat, j: nat)
    requires from < i < j <= |b|
    requires StringAt(b, from).Some? && StringAt(b, from).value.1 == i
    requires StringAt(b, i).Some? && StringAt(b, i).value.1 == j
    ensures NulsFrom(b, from) == 2 + NulsFrom(b, j)
  {
    NulsThroughString(b, from);
    NulsThroughString(b, i);
  }

  /** The option loop's first pair, when it has one: two string fields,
      and the loop goes on after them. */
  lemma OptionsUnfold(b: seq<byte>, from: nat, acc: map<Str, Str>) returns (i: nat, j: nat, next: map<Str, Str>)
    requires from < |b| && OptionsFrom(b, from, acc).Some?
    ensures from < i < j <= |b|
    ensures StringAt(b, from).Some? && StringAt(b, from).value.1 == i
    ensures StringAt(b, i).Some? && StringAt(b, i).value.1 == j
    ensures OptionsFrom(b, j, next).Some?
  {
    var (name, i') := StringAt(b, from).value;
    var (value, j') := StringAt(b, i').value;
    i, j, next := i', j', Emplace(acc, name, value);
    OptionsStep(b, from, i, j, acc, name, value);
  }

  /** The options only decode when they hold whole (name, value) pairs: an
      even number of terminators, ... */
  lemma {:induction false} OptionsArePairs(b: seq<byte>, from: nat, acc: map<Str, Str>)
    requires from <= |b| && OptionsFrom(b, from, acc).Some?
    ensures NulsFrom(b, from) % 2 == 0
    decreases |b| - from
  {
    if from < |b| {
      var i, j, next := OptionsUnfold(b, from, acc);
      PairNulCount(b, from, i, j);
      OptionsArePairs(b, j, next);
    }
  }

  /** ... the last byte of the datagram being one of them. */
  lemma {:induction false} OptionsEndWithNul(b: seq<byte>, from: nat, acc: map<Str, Str>)
    requires from < |b| && OptionsFrom(b, from, acc).Some?
    ensures b[|b| - 1] == NUL
    decreases |b| - from
  {
    var i, j, next := OptionsUnfold(b, from, acc);
    if j < |b| {
      OptionsEndWithNul(b, j, next);
    } else {
      StringAtShape(b, i);
    }
  }

  /** A name whose terminator ends the datagram has no value: rejected. */
  lemma OptionWithoutValue(b: seq<byte>, from: nat, acc: map<Str, Str>)
    requires from < |b| && StringAt(b, from).Some? && StringAt(b, from).value.1 == |b|
    ensures OptionsFrom(b, from, acc).None?
  {
    assert StringAt(b, |b|).None?;
  }

  /** For a duplicated option name the first value stays: once a name is in
      the map, later pairs never change its value. */
  lemma {:induction false} OptionsKeepFirst(b: seq<byte>, from: nat, acc: map<Str, Str>)
    requires from <= |b| && OptionsFrom(b, from, acc).Some?
    ensures var m := OptionsFrom(b, from, acc).value;
      acc.Keys <= m.Keys && forall k :: k in acc ==> m[k] == acc[k]
    decreases |b| - from
  {
    if from < |b| {
      var (name, i) := StringAt(b, from).value;
      var (value, j) := StringAt(b, i).value;
      EmplaceKeeps(acc, name, value);
      OptionsKeepFirst(b, j, Emplace(acc, name, value));
    }
  }

  // ---------------------------------------------------------------------
  // File requests: the layout of RFC 1350, section 5

  /** The bytes of a string field: its characters and one NUL. */
  function Field(s: Str): seq<byte>
  {
    s + [NUL]
  }

  /** Option pairs laid out one field after the other. */
  function OptionFields(pairs: seq<(Str, Str)>): seq<byte>
  {
    if pairs == [] then [] else Field(pairs[0].0) + Field(pairs[0].1) + OptionFields(pairs[1..])
  }

  /** The map `emplace` builds from the pairs, in order, on top of `acc`. */
  function EmplaceAll(acc: map<Str, Str>, pairs: seq<(Str, Str)>): map<Str, Str>
    decreases |pairs|
  {
    if pairs == [] then acc else EmplaceAll(Emplace(acc, pairs[0].0, pairs[0].1), pairs[1..])
  }

  predicate NoNulInPairs(pairs: seq<(Str, Str)>)
  {
    forall k :: 0 <= k < |pairs| ==> NUL !in pairs[k].0 && NUL !in pairs[k].1
  }

  /** A string field without NUL inside is read back exactly. */
  lemma StringAtField(b: seq<byte>, from: nat, s: Str)
    requires NUL !in s && from + |s| < |b| && b[from..from + |s| + 1] == Field(s)
    ensures StringAt(b, from) == Some((s, from + |s| + 1))
  {
    assert forall j :: from <= j < from + |s| ==> b[j] != NUL by {
      forall j | from <= j < from + |s| ensures b[j] != NUL {
        assert b[j] == b[from..from + |s| + 1][j - from] == s[j - from];
      }
    }
    assert b[from + |s|] == b[from..from + |s| + 1][|s|] == NUL;
    FindNulAt(b, from, from + |s|);
    assert b[from..from + |s|] == b[from..from + |s| + 1][..|s|] == s;
  }

  lemma {:induction false} FindNulAt(b: seq<byte>, from: nat, k: nat)
    requires from <= k < |b| && b[k] == NUL
    requires forall j :: from <= j < k ==> b[j] != NUL
    ensures FindNul(b, from) == Some(k)
    decreases k - from
  {
    if from < k {
      FindNulAt(b, from + 1, k);
    }
  }

  /** Options laid out as whole pairs decode to the `emplace` fold. */
  lemma {:induction false} OptionsFromFields(b: seq<byte>, from: nat, acc: map<Str, Str>, pairs: seq<(Str, Str)>)
    requires NoNulInPairs(pairs)
    requires from <= |b| && b[from..] == OptionFields(pairs)
    ensures OptionsFrom(b, from, acc) == Some(EmplaceAll(acc, pairs))
    decreases pairs
  {
    if pairs != [] {
      var (n, v) := pairs[0];
      var i := from + |n| + 1;
      var j := i + |v| + 1;
      assert j <= |b| && StringAt(b, from) == Some((n, i)) && StringAt(b, i) == Some((v, j)) &&
        b[j..] == OptionFields(pairs[1..]) by {
        var rest := OptionFields(pairs[1..]);
        assert b[from..] == Field(n) + Field(v) + rest;
        assert b[from..i] == Field(n);
        StringAtField(b, from, n);
        assert b[i..] == Field(v) + rest;
        assert b[i..j] == Field(v);
        StringAtField(b, i, v);
      }
      assert NoNulInPairs(pairs[1..]) by {
        forall k | 0 <= k < |pairs[1..]| ensures NUL !in pairs[1..][k].0 && NUL !in pairs[1..][k].1 {
          assert pairs[1..][k] == pairs[k + 1];
        }
      }
      var next := Emplace(acc, n, v);
      assert OptionsFrom(b, j, next) == Some(EmplaceAll(next, pairs[1..])) by {
        OptionsFromFields(b, j, next, pairs[1..]);
      }
      assert OptionsFrom(b, from, acc) == OptionsFrom(b, j, next) by {
        OptionsStep(b, from, i, j, acc, n, v);
      }
    } else {
      assert |b[from..]| == 0;
    }
  }

  /** A request laid out as RFC 1350 describes it (opcode, file name, mode,
      then option pairs) decodes to its fields, with options folded by
      `emplace` so that a repeated name keeps its first value. */
  lemma ParseFileReqLayout(op: u16, filename: Str, mode: Str, pairs: seq<(Str, Str)>)
    requires op == OP_RRQ || op == OP_WRQ
    requires NUL !in filename && NUL !in mode && NoNulInPairs(pairs)
    ensures Parse(BigEndian(op) + Field(filename) + Field(mode) + OptionFields(pairs))
      == Some(FileReq(op, filename, mode, EmplaceAll(map[], pairs)))
  {
    RequestFieldsAt(op, filename, mode, pairs);
    LaidOut(BigEndian(op) + Field(filename) + Field(mode) + OptionFields(pairs), op, filename, mode, pairs);
  }

  lemma LaidOut(b: seq<byte>, op: u16, filename: Str, mode: Str, pairs: seq<(Str, Str)>)
    requires op == OP_RRQ || op == OP_WRQ
    requires NoNulInPairs(pairs)
    requires |b| >= 2 + |filename| + 1 + |mode| + 1 && U16At(b, 0) == op
    requires StringAt(b, 2) == Some((filename, 2 + |filename| + 1))
    requires StringAt(b, 2 + |filename| + 1) == Some((mode, 2 + |filename| + 1 + |mode| + 1))
    requires b[2 + |filename| + 1 + |mode| + 1..] == OptionFields(pairs)
    ensures Parse(b) == Some(FileReq(op, filename, mode, EmplaceAll(map[], pairs)))
  {
    var j := 2 + |filename| + 1 + |mode| + 1;
    var options := EmplaceAll(map[], pairs);
    assert OptionsFrom(b, j, map[]) == Some(options) by {
      OptionsFromFields(b, j, map[], pairs);
    }
    FileReqFrom(b, op, filename, 2 + |filename| + 1, mode, j, options);
  }

  /** A request's decoding from where its fields were found. */
  lemma FileReqFrom(b: seq<byte>, op: u16, filename: Str, i: nat, mode: Str, j: nat, options: map<Str, Str>)
    requires op == OP_RRQ || op == OP_WRQ
    requires 2 <= i <= j <= |b| && U16At(b, 0) == op
    requires StringAt(b, 2) == Some((filename, i)) && StringAt(b, i) == Some((mode, j))
    requires OptionsFrom(b, j, map[]) == Some(options)
    ensures Parse(b) == Some(FileReq(op, filename, mode, options))
  {
  }

  /** Where the fields of a laid-out request sit. */
  lemma RequestFieldsAt(op: u16, filename: Str, mode: Str, pairs: seq<(Str, Str)>)
    requires NUL !in filename && NUL !in mode
    ensures var b := BigEndian(op) + Field(filename) + Field(mode) + OptionFields(pairs);
      var i := 2 + |filename| + 1;
      var j := i + |mode| + 1;
      |b| >= 2 && U16At(b, 0) == op && j <= |b| &&
      StringAt(b, 2) == Some((filename, i)) && StringAt(b, i) == Some((mode, j)) &&
      b[j..] == OptionFields(pairs)
  {
    var b := BigEndian(op) + Field(filename) + Field(mode) + OptionFields(pairs);
    var i := 2 + |filename| + 1;
    var j := i + |mode| + 1;
    assert b[2..i] == Field(filename);
    StringAtField(b, 2, filename);
    assert b[i..j] == Field(mode);
    StringAtField(b, i, mode);
    assert b[j..] == OptionFields(pairs);
  }
}
