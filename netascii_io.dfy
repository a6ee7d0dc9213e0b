/** The netascii filters (RFC 764, as RFC 1350 uses it): the reader turns a
    local byte stream into netascii, the writer turns netascii back. */
module NetasciiIo {
  import opened Wire
  import opened FileIo

  // ---------------------------------------------------------------------
  // Reader side

  /** The netascii form of one local byte: LF as CR LF, CR as CR NUL. */
  function ExpandByte(c: byte): (r: seq<byte>)
    ensures c == LF ==> r == [CR, LF]
    ensures c == CR ==> r == [CR, NUL]
    ensures c != LF && c != CR ==> r == [c]
  {
    if c == LF then [CR, LF] else if c == CR then [CR, NUL] else [c]
  }

  function Expand(s: seq<byte>): seq<byte>
  {
    if s == [] then [] else ExpandByte(s[0]) + Expand(s[1..])
  }

  /** The character a pending marker still owes the reader's caller: the LF
      of CR LF or the NUL of CR NUL. */
  function PendingOut(pending: byte): (r: seq<byte>)
    ensures pending == LF ==> r == [LF]
    ensures pending == CR ==> r == [NUL]
    ensures pending != LF && pending != CR ==> r == []
  {
    if pending == LF then [LF] else if pending == CR then [NUL] else []
  }

  lemma {:induction false} ExpandAppend(a: seq<byte>, b: seq<byte>)
    ensures Expand(a + b) == Expand(a) + Expand(b)
  {
    if a == [] {
      assert a + b == b;
    } else {
      assert (a + b)[1..] == a[1..] + b;
      ExpandAppend(a[1..], b);
    }
  }

  /** Expansion adds exactly one byte per LF and per CR, and keeps every
      other byte. */
  function LineEnds(s: seq<byte>): nat
  {
    if s == [] then 0 else (if s[0] == LF || s[0] == CR then 1 else 0) + LineEnds(s[1..])
  }

  lemma {:induction false} ExpandLength(s: seq<byte>)
    ensures |Expand(s)| == |s| + LineEnds(s)
  {
    if s != [] {
      ExpandLength(s[1..]);
    }
  }

  /** In netascii output a CR is always followed by LF or NUL. */
  lemma {:induction false} ExpandedCrIsPaired(s: seq<byte>, i: nat)
    requires i < |Expand(s)| && Expand(s)[i] == CR
    ensures i + 1 < |Expand(s)| && (Expand(s)[i + 1] == LF || Expand(s)[i + 1] == NUL)
  {
    var e := ExpandByte(s[0]);
    assert Expand(s) == e + Expand(s[1..]);
    if i >= |e| {
      ExpandedCrIsPaired(s[1..], i - |e|);
    }
  }

  /** `netascii_reader` over a file stream. */
  class NetasciiReader {
    const peer: FileReader
    /** `m_pending_char`: 0, or the LF or CR whose second half is owed. */
    var pendingChar: byte

    constructor (peer: FileReader)
      ensures this.peer == peer && pendingChar == 0
    {
      this.peer := peer;
      pendingChar := 0;
    }

    ghost predicate Valid()
      reads this
    {
      pendingChar == 0 || pendingChar == LF || pendingChar == CR
    }

    /** Everything the reader will still deliver: the pending half, then the
        expansion of the unread file bytes. A peer that cannot deliver ends
        the stream. */
    ghost function Remaining(): seq<byte>
      reads this, peer
    {
      PendingOut(pendingChar) + (if peer.Delivers() then Expand(peer.rest) else [])
    }

    predicate IsOpen()
      reads this, peer
    {
      peer.isOpen
    }

    /** `read_char`: 1 with the next netascii byte, or 0 at the end of the
        stream, which a failing peer read also counts as. */
    method ReadChar() returns (rv: int, c: byte)
      requires Valid()
      modifies this, peer`rest
      ensures Valid() && peer.isOpen == old(peer.isOpen)
      ensures rv == 0 || rv == 1
      ensures rv == 1 ==> [c] + Remaining() == old(Remaining())
      ensures rv == 0 ==> old(Remaining()) == [] && Remaining() == []
    {
      if pendingChar == LF {
        c := LF;
        pendingChar := 0;
        return 1, c;
      }
      if pendingChar == CR {
        c := NUL;
        pendingChar := 0;
        return 1, c;
      }
      var charsRead: seq<byte>;
      var ok;
      ok, charsRead := peer.Read(1);
      if !ok {
        return 0, 0;
      }
      if |charsRead| == 1 {
        c := charsRead[0];
        assert old(peer.rest) == [c] + peer.rest;
        if c == LF || c == CR {
          pendingChar := c;
          c := CR;
        }
        rv := 1;
      } else {
        rv := 0;
        c := 0;
      }
    }

    /** `read`: fills up to `n` bytes; it stops early only at the end of
        the stream, and always reports success. */
    method Read(n: nat) returns (ok: bool, bytes: seq<byte>)
      requires Valid()
      modifies this, peer`rest
      ensures Valid()
      ensures peer.isOpen == old(peer.isOpen)
      ensures ok
      ensures bytes + Remaining() == old(Remaining())
      ensures |bytes| <= n
      ensures |bytes| < n ==> Remaining() == []
    {
      ghost var whole := Remaining();
      bytes := [];
      var i := 0;
      while i < n
        invariant Valid() && peer.isOpen == old(peer.isOpen)
        invariant i == |bytes| <= n
        invariant bytes + Remaining() == whole
      {
        ghost var before := Remaining();
        var rv, c := ReadChar();
        if rv == 0 {
          break;
        }
        TakeOne(bytes, c, before, Remaining(), whole);
        bytes := bytes + [c];
        i := i + 1;
      }
      ok := true;
    }

    method Close() returns (ok: bool)
      modifies peer`isOpen
      ensures !peer.isOpen && ok
    {
      ok := peer.Close();
    }
  }

  /** Moving the next byte from what is due to what was delivered. */
  lemma TakeOne(got: seq<byte>, c: byte, due: seq<byte>, due': seq<byte>, whole: seq<byte>)
    requires got + due == whole && [c] + due' == due
    ensures (got + [c]) + due' == whole
  {
  }

  lemma PrefixSplit(a: seq<byte>, b: seq<byte>, c: seq<byte>)
    requires a + b == c
    ensures a == c[..|a|] && b == c[|a|..]
  {
  }

  /** Total of a sequence of buffer sizes. */
  function Sum(sizes: seq<nat>): nat
  {
    if sizes == [] then 0 else sizes[0] + Sum(sizes[1..])
  }

  lemma {:induction false} SumAppend(a: seq<nat>, b: seq<nat>)
    ensures Sum(a + b) == Sum(a) + Sum(b)
  {
    if a == [] {
      assert a + b == b;
    } else {
      assert (a + b)[1..] == a[1..] + b;
      SumAppend(a[1..], b);
    }
  }

  lemma SumPrefixStep(sizes: seq<nat>, k: nat)
    requires k < |sizes|
    ensures Sum(sizes[..k + 1]) == Sum(sizes[..k]) + sizes[k]
  {
    SumAppend(sizes[..k], [sizes[k]]);
    assert sizes[..k + 1] == sizes[..k] + [sizes[k]];
  }

  /** A read of this shape, possibly short only at the end, returns a
      fixed prefix of what remained: the output depends only on `n`. */
  lemma {:induction false} ShortOnlyAtEndIsPrefix(bytes: seq<byte>, rem: seq<byte>, whole: seq<byte>, n: nat)
    requires bytes + rem == whole && |bytes| <= n && (|bytes| < n ==> rem == [])
    ensures bytes == whole[..Min(n, |whole|)] && rem == whole[|bytes|..]
  {
    PrefixSplit(bytes, rem, whole);
  }

  lemma ChunkStep(out: seq<byte>, chunk: seq<byte>, before: seq<byte>, after: seq<byte>,
                  whole: seq<byte>, total: nat, n: nat)
    requires out + before == whole && |out| <= total && (|out| < total ==> before == [])
    requires chunk + after == before && |chunk| <= n && (|chunk| < n ==> after == [])
    ensures (out + chunk) + after == whole
    ensures |out + chunk| <= total + n
    ensures |out + chunk| < total + n ==> after == []
  {
  }

  /** Reading with any sequence of buffer sizes delivers exactly what one
      read of their total would: the output does not depend on chunking. */
  method ReadInChunks(r: NetasciiReader, sizes: seq<nat>) returns (out: seq<byte>)
    requires r.Valid()
    modifies r, r.peer`rest
    ensures r.Valid()
    ensures out + r.Remaining() == old(r.Remaining())
    ensures out == old(r.Remaining())[..Min(Sum(sizes), |old(r.Remaining())|)]
  {
    ghost var whole := r.Remaining();
    out := [];
    for k := 0 to |sizes|
      invariant r.Valid()
      invariant out + r.Remaining() == whole
      invariant |out| <= Sum(sizes[..k])
      invariant |out| < Sum(sizes[..k]) ==> r.Remaining() == []
    {
      ghost var before := r.Remaining();
      var ok, chunk := r.Read(sizes[k]);
      ChunkStep(out, chunk, before, r.Remaining(), whole, Sum(sizes[..k]), sizes[k]);
      out := out + chunk;
      SumPrefixStep(sizes, k);
    }
    assert sizes[..|sizes|] == sizes;
    ShortOnlyAtEndIsPrefix(out, r.Remaining(), whole, Sum(sizes));
  }

  // ---------------------------------------------------------------------
  // Writer side

  /** What one incoming byte makes the writer send to its peer, and the new
      pending-CR flag, when the peer accepts every write. */
  function Step(pendingCr: bool, c: byte): (r: (seq<byte>, bool))
  {
    if c == CR then ((if pendingCr then [CR] else []), true)
    else if c == LF then ([LF], false)
    else if c == NUL && pendingCr then ([CR], false)
    else ([c], pendingCr)
  }

  /** The pending flag left behind when the peer write for `c` fails: a LF
      has already cleared it, every other case leaves it as it was. */
  function FailPending(pendingCr: bool, c: byte): bool
  {
    if c == LF then false else pendingCr
  }

  /** Outcome of a `write` call: success, the bytes the peer received and
      the final pending flag. The peer either accepts every write or
      refuses every one, as `FileWriter` does. */
  datatype Outcome = Outcome(ok: bool, out: seq<byte>, pendingCr: bool)

  function WriteRun(pendingCr: bool, s: seq<byte>, peerOk: bool): Outcome
    decreases |s|
  {
    if s == [] then Outcome(true, [], pendingCr)
    else
      var (o, p) := Step(pendingCr, s[0]);
      if o != [] && !peerOk then Outcome(false, [], FailPending(pendingCr, s[0]))
      else
        var r := WriteRun(p, s[1..], peerOk);
        Outcome(r.ok, o + r.out, r.pendingCr)
  }

  /** The writer's per-byte rules, one by one. */
  lemma StepRules(p: bool, c: byte)
    ensures c == CR ==> Step(p, c) == ((if p then [CR] else []), true)
    ensures c == LF ==> Step(p, c) == ([LF], false)
    ensures c == NUL ==> Step(p, c) == (if p then ([CR], false) else ([NUL], false))
    ensures c != CR && c != LF && c != NUL ==> Step(p, c) == ([c], p)
  {
  }

  /** Netascii pairs collapse: CR LF to LF, CR NUL to CR; a lone NUL stays. */
  lemma PairsCollapse(c: byte)
    ensures WriteRun(false, [CR, LF], true) == Outcome(true, [LF], false)
    ensures WriteRun(false, [CR, NUL], true) == Outcome(true, [CR], false)
    ensures WriteRun(false, [NUL], true) == Outcome(true, [NUL], false)
    ensures WriteRun(false, [CR, CR], true) == Outcome(true, [CR], true)
    ensures c != CR && c != LF && c != NUL ==> WriteRun(true, [c], true) == Outcome(true, [c], true)
  {
    assert [CR, LF][1..] == [LF] && [CR, NUL][1..] == [NUL] && [CR, CR][1..] == [CR];
    assert [LF][1..] == [] && [NUL][1..] == [] && [CR][1..] == [] && [c][1..] == [];
    assert WriteRun(true, [LF], true) == Outcome(true, [LF], false);
    assert WriteRun(true, [NUL], true) == Outcome(true, [CR], false);
    assert WriteRun(true, [CR], true) == Outcome(true, [CR], true);
  }

  /** Writing `a + b` in one call is writing `a`, then `b` from the flag
      `a` left, when the writes succeed. */
  lemma {:induction false} WriteRunAppend(p: bool, a: seq<byte>, b: seq<byte>)
    decreases |a|
    ensures WriteRun(p, a + b, true) ==
      var ra := WriteRun(p, a, true);
      var rb := WriteRun(ra.pendingCr, b, true);
      Outcome(true, ra.out + rb.out, rb.pendingCr)
  {
    if a == [] {
      assert a + b == b;
      WriteRunOk(p, b);
    } else {
      assert (a + b)[1..] == a[1..] + b;
      WriteRunAppend(Step(p, a[0]).1, a[1..], b);
    }
  }

  lemma {:induction false} WriteRunOk(p: bool, s: seq<byte>)
    decreases |s|
    ensures WriteRun(p, s, true).ok
  {
    if s != [] {
      WriteRunOk(Step(p, s[0]).1, s[1..]);
    }
  }

  /** A refusing peer receives nothing. */
  lemma {:induction false} WriteRunRefused(p: bool, s: seq<byte>)
    decreases |s|
    ensures WriteRun(p, s, false).out == []
  {
    if s != [] && Step(p, s[0]).0 == [] {
      WriteRunRefused(Step(p, s[0]).1, s[1..]);
    }
  }

  lemma ExpandByteCollapses(c: byte)
    ensures WriteRun(false, ExpandByte(c), true) == Outcome(true, [c], false)
  {
    PairsCollapse(c);
    if c != LF && c != CR {
      assert ExpandByte(c)[1..] == [];
    }
  }

  /** The writer inverts the reader: netascii produced from `s` collapses
      back to `s`, with nothing left pending. */
  lemma {:induction false} WriteInvertsExpand(s: seq<byte>)
    ensures WriteRun(false, Expand(s), true) == Outcome(true, s, false)
  {
    if s != [] {
      var e := ExpandByte(s[0]);
      ExpandAppend([s[0]], s[1..]);
      assert [s[0]] + s[1..] == s;
      assert Expand([s[0]]) == e + Expand([]);
      assert e + [] == e;
      WriteRunAppend(false, e, Expand(s[1..]));
      ExpandByteCollapses(s[0]);
      WriteInvertsExpand(s[1..]);
    }
  }

  /** Writing a sequence of chunks, call after call. */
  function WriteChunks(p: bool, chunks: seq<seq<byte>>): Outcome
    decreases |chunks|
  {
    if chunks == [] then Outcome(true, [], p)
    else
      var r := WriteRun(p, chunks[0], true);
      var rest := WriteChunks(r.pendingCr, chunks[1..]);
      Outcome(rest.ok, r.out + rest.out, rest.pendingCr)
  }

  function Flatten(chunks: seq<seq<byte>>): seq<byte>
  {
    if chunks == [] then [] else chunks[0] + Flatten(chunks[1..])
  }

  /** Chunk boundaries do not matter to the writer. */
  lemma {:induction false} WriteChunksFlat(p: bool, chunks: seq<seq<byte>>)
    decreases |chunks|
    ensures WriteChunks(p, chunks) == WriteRun(p, Flatten(chunks), true)
  {
    if chunks != [] {
      WriteChunksFlat(WriteRun(p, chunks[0], true).pendingCr, chunks[1..]);
      WriteRunAppend(p, chunks[0], Flatten(chunks[1..]));
      WriteRunOk(WriteRun(p, chunks[0], true).pendingCr, Flatten(chunks[1..]));
    }
  }

  /** Round trip whatever the chunking: the reader's netascii for `s`, cut
      into any chunks and written call by call, reproduces `s`. */
  lemma RoundTripInChunks(s: seq<byte>, chunks: seq<seq<byte>>)
    requires Flatten(chunks) == Expand(s)
    ensures WriteChunks(false, chunks) == Outcome(true, s, false)
  {
    WriteChunksFlat(false, chunks);
    WriteInvertsExpand(s);
  }

  /** One byte of the `write` loop: what the step sends moves from the
      outcome still due to what the peer has. */
  lemma RunStep(start: seq<byte>, whole: Outcome, written: seq<byte>, o: seq<byte>, r: Outcome, r': Outcome)
    requires r == Outcome(r'.ok, o + r'.out, r'.pendingCr)
    requires whole.ok == r.ok && whole.pendingCr == r.pendingCr && start + whole.out == written + r.out
    ensures whole.ok == r'.ok && whole.pendingCr == r'.pendingCr && start + whole.out == (written + o) + r'.out
  {
  }

  /** `netascii_writer` over a file stream. */
  class NetasciiWriter {
    const peer: FileWriter
    /** `m_pending_cr`: a CR was received and not yet written. */
    var pendingCr: bool

    constructor (peer: FileWriter)
      ensures this.peer == peer && !pendingCr
    {
      this.peer := peer;
      pendingCr := false;
    }

    predicate IsOpen()
      reads this, peer
    {
      peer.isOpen
    }

    /** `write_cr`. */
    method WriteCr() returns (ok: bool)
      modifies peer`written
      ensures ok == peer.Accepts()
      ensures peer.written == old(peer.written) + (if ok then [CR] else [])
    {
      ok := peer.Write([CR]);
    }

    /** The body of the loop in `write`: the handling of one byte, which
        either succeeds as `Step` says or fails on the first peer write. */
    method WriteChar(c: byte) returns (ok: bool)
      modifies this, peer`written
      ensures var (o, p) := Step(old(pendingCr), c);
        if o != [] && !peer.Accepts() then
          !ok && pendingCr == FailPending(old(pendingCr), c) && peer.written == old(peer.written)
        else
          ok && pendingCr == p && peer.written == old(peer.written) + o
    {
      if c == CR {
        if pendingCr {
          // CR CR: the first one is written, the second stays pending
          var written := WriteCr();
          if !written {
            return false;
          }
        }
        pendingCr := true;
        return true;
      }
      if c == LF {
        // CR LF: the pending CR is dropped
        pendingCr := false;
      } else if c == NUL {
        if pendingCr {
          // CR NUL: only the CR is written
          var written := WriteCr();
          if !written {
            return false;
          }
          pendingCr := false;
          return true;
        }
      }
      ok := peer.Write([c]);
    }

    /** `write`: every byte in turn, stopping at the first failed peer
        write. */
    method Write(bytes: seq<byte>) returns (ok: bool)
      modifies this, peer`written
      ensures var r := WriteRun(old(pendingCr), bytes, old(peer.Accepts()));
        ok == r.ok && pendingCr == r.pendingCr && peer.written == old(peer.written) + r.out
    {
      var peerOk := peer.Accepts();
      ghost var whole := WriteRun(pendingCr, bytes, peerOk);
      for i := 0 to |bytes|
        invariant peer.Accepts() == peerOk
        invariant var r := WriteRun(pendingCr, bytes[i..], peerOk);
          whole.ok == r.ok && whole.pendingCr == r.pendingCr &&
          old(peer.written) + whole.out == peer.written + r.out
      {
        ghost var before := peer.written;
        ghost var (o, p) := Step(pendingCr, bytes[i]);
        ghost var r := WriteRun(pendingCr, bytes[i..], peerOk);
        assert bytes[i..][1..] == bytes[i + 1..];
        var written := WriteChar(bytes[i]);
        if !written {
          return false;
        }
        RunStep(old(peer.written), whole, before, o, r, WriteRun(p, bytes[i + 1..], peerOk));
      }
      return true;
    }

    /** `close`: writes a pending CR, then closes the peer, and reports
        whether both succeeded; both are attempted. The flag stays set. */
    method Close() returns (ok: bool)
      modifies peer
      ensures !peer.isOpen && pendingCr == old(pendingCr)
      ensures peer.written == old(peer.written) + (if pendingCr && old(peer.Accepts()) then [CR] else [])
      ensures ok == ((!pendingCr || old(peer.Accepts())) && (!old(peer.isOpen) || !peer.faulty))
    {
      ok := true;
      if pendingCr {
        var crOk := WriteCr();
        ok := ok && crOk;
      }
      var closeOk := peer.Close();
      ok := ok && closeOk;
    }
  }
}
