/** The `reader` and `writer` interfaces over the two kinds of stream the
    managers build, and the opening of a described stream. */
module Streams {
  import opened Wire
  import opened FileIo
  import opened NetasciiIo
  import opened IoManagers

  datatype ReaderRef = PlainReader(file: FileReader) | NetasciiReaderRef(netascii: NetasciiReader)

  datatype WriterRef = PlainWriter(file: FileWriter) | NetasciiWriterRef(netascii: NetasciiWriter)

  ghost function ReaderRepr(r: ReaderRef): set<object>
  {
    match r
    case PlainReader(f) => {f}
    case NetasciiReaderRef(n) => {n, n.peer}
  }

  ghost function WriterRepr(w: WriterRef): set<object>
  {
    match w
    case PlainWriter(f) => {f}
    case NetasciiWriterRef(n) => {n, n.peer}
  }

  ghost predicate ReaderValid(r: ReaderRef)
    reads ReaderRepr(r)
  {
    r.NetasciiReaderRef? ==> r.netascii.Valid()
  }

  /** The bytes the reader will still deliver before reporting the end. */
  ghost function ReaderRemaining(r: ReaderRef): seq<byte>
    reads ReaderRepr(r)
  {
    match r
    case PlainReader(f) => if f.Delivers() then f.rest else []
    case NetasciiReaderRef(n) => n.Remaining()
  }

  predicate ReaderIsOpen(r: ReaderRef)
    reads ReaderRepr(r)
  {
    match r
    case PlainReader(f) => f.isOpen
    case NetasciiReaderRef(n) => n.IsOpen()
  }

  predicate WriterIsOpen(w: WriterRef)
    reads WriterRepr(w)
  {
    match w
    case PlainWriter(f) => f.isOpen
    case NetasciiWriterRef(n) => n.IsOpen()
  }

  /** The file a writer ends in. */
  function WriterFile(w: WriterRef): FileWriter
  {
    match w
    case PlainWriter(f) => f
    case NetasciiWriterRef(n) => n.peer
  }

  /** A read from `r` fails: only a plain file that cannot deliver
      fails. */
  predicate ReaderFails(r: ReaderRef)
    reads ReaderRepr(r)
  {
    r.PlainReader? && !r.file.Delivers()
  }

  /** `reader::read`: a plain file read fails on a closed or faulty file; a
      netascii read never fails and reports such a file as already ended.
      On success the bytes are the next ones due, short only at the end. */
  method Read(r: ReaderRef, n: nat) returns (ok: bool, bytes: seq<byte>)
    requires ReaderValid(r)
    modifies ReaderRepr(r)
    ensures ReaderValid(r) && ReaderIsOpen(r) == old(ReaderIsOpen(r))
    ensures !ok <==> old(ReaderFails(r))
    ensures ok ==> bytes + ReaderRemaining(r) == old(ReaderRemaining(r))
    ensures ok ==> |bytes| <= n && (|bytes| < n ==> ReaderRemaining(r) == [])
  {
    match r
    case PlainReader(f) =>
      ok, bytes := f.Read(n);
      if ok {
        PrefixSplit(bytes, f.rest, old(f.rest));
      }
    case NetasciiReaderRef(nr) =>
      ok, bytes := nr.Read(n);
  }

  /** What a writer stack holds: the file's state and the netascii
      filter's pending CR (always false for a plain file). */
  datatype WriterState = WriterState(isOpen: bool, written: seq<byte>, pendingCr: bool, faulty: bool)

  function WriterSnap(w: WriterRef): (r: WriterState)
    reads WriterRepr(w)
    ensures r.isOpen == WriterIsOpen(w) && r.written == WriterFile(w).written
  {
    match w
    case PlainWriter(f) => WriterState(f.isOpen, f.written, false, f.faulty)
    case NetasciiWriterRef(n) => WriterState(n.peer.isOpen, n.peer.written, n.pendingCr, n.peer.faulty)
  }

  /** The effect of one `write` call on a writer stack: a plain file
      stores the bytes as given when it accepts them, a netascii writer
      collapses them first (see `WriteRun`). */
  function WriteEffect(netascii: bool, s: WriterState, bytes: seq<byte>): (r: (bool, WriterState))
  {
    if !netascii then
      var ok := s.isOpen && (bytes == [] || !s.faulty);
      (ok, s.(written := s.written + (if ok then bytes else [])))
    else
      var run := WriteRun(s.pendingCr, bytes, s.isOpen && !s.faulty);
      (run.ok, s.(written := s.written + run.out, pendingCr := run.pendingCr))
  }

  /** `writer::write`. */
  method Write(w: WriterRef, bytes: seq<byte>) returns (ok: bool)
    modifies WriterRepr(w)
    ensures (ok, WriterSnap(w)) == WriteEffect(w.NetasciiWriterRef?, old(WriterSnap(w)), bytes)
  {
    match w
    case PlainWriter(f) =>
      ok := f.Write(bytes);
    case NetasciiWriterRef(nw) =>
      ok := nw.Write(bytes);
  }

  /** A write never opens or closes the file, and never loses what was
      written before. */
  lemma WriteKeeps(netascii: bool, s: WriterState, bytes: seq<byte>)
    ensures var (ok, t) := WriteEffect(netascii, s, bytes);
      t.isOpen == s.isOpen && t.faulty == s.faulty && s.written <= t.written
  {
  }

  /** A plain file accepts exactly the writes it can complete, and then
      holds the bytes as sent; a refused write stores nothing. */
  lemma PlainWriteStores(s: WriterState, bytes: seq<byte>)
    ensures WriteEffect(false, s, bytes).0 <==> s.isOpen && (bytes == [] || !s.faulty)
    ensures WriteEffect(false, s, bytes).0 ==> WriteEffect(false, s, bytes).1.written == s.written + bytes
    ensures !WriteEffect(false, s, bytes).0 ==> WriteEffect(false, s, bytes).1 == s
  {
  }

  /** Netascii text written through a fresh netascii writer stores the
      original bytes: the writer inverts the reader's expansion. */
  lemma NetasciiWriteRestores(s: WriterState, data: seq<byte>)
    requires s.isOpen && !s.faulty && !s.pendingCr
    ensures WriteEffect(true, s, Expand(data)) == (true, s.(written := s.written + data))
  {
    WriteInvertsExpand(data);
  }

  /** The streams the managers build: a file, or netascii over a file. */
  predicate Openable(spec: StreamSpec)
  {
    spec.File? || (spec.Netascii? && spec.inner.File?)
  }

  function SpecPath(spec: StreamSpec): Str
    requires Openable(spec)
  {
    if spec.File? then spec.path else spec.inner.path
  }

  /** What a reader opened on `spec` delivers: the file, expanded for
      netascii, or nothing when it is missing or faulty. */
  function Contents(fs: FileSystem, spec: StreamSpec): seq<byte>
    requires Openable(spec)
  {
    var path := SpecPath(spec);
    if path in fs.files && path !in fs.faulty then
      (if spec.File? then fs.files[path] else Expand(fs.files[path]))
    else []
  }

  /** Opening a described reader: `make_unique<file_reader>(path)`, wrapped
      in a `netascii_reader` for a netascii stream. It is open exactly when
      the file exists; it then delivers the file, expanded for netascii, or
      nothing when the file is faulty. */
  method OpenReader(fs: FileSystem, spec: StreamSpec) returns (r: ReaderRef)
    requires Openable(spec)
    ensures fresh(ReaderRepr(r)) && ReaderValid(r)
    ensures r.PlainReader? <==> spec.File?
    ensures ReaderIsOpen(r) <==> SpecPath(spec) in fs.files
    ensures ReaderRemaining(r) == Contents(fs, spec)
    ensures ReaderFails(r) <==> spec.File? && (SpecPath(spec) !in fs.files || SpecPath(spec) in fs.faulty)
  {
    var file := new FileReader(fs, SpecPath(spec));
    if spec.File? {
      r := PlainReader(file);
    } else {
      var netascii := new NetasciiReader(file);
      r := NetasciiReaderRef(netascii);
    }
  }

  /** The state of a writer stack just opened on `spec`. */
  function NewWriterState(fs: FileSystem, spec: StreamSpec): WriterState
    requires Openable(spec)
  {
    WriterState(SpecPath(spec) in fs.creatable, [], false, SpecPath(spec) in fs.faulty)
  }

  /** Opening a described writer, likewise; a new writer has written
      nothing and holds no pending CR. */
  method OpenWriter(fs: FileSystem, spec: StreamSpec) returns (w: WriterRef)
    requires Openable(spec)
    ensures fresh(WriterRepr(w))
    ensures w.PlainWriter? <==> spec.File?
    ensures WriterIsOpen(w) <==> SpecPath(spec) in fs.creatable
    ensures WriterFile(w).written == [] && WriterFile(w).faulty == (SpecPath(spec) in fs.faulty)
    ensures w.NetasciiWriterRef? ==> !w.netascii.pendingCr
    ensures WriterSnap(w) == NewWriterState(fs, spec)
  {
    var file := new FileWriter(fs, SpecPath(spec));
    if spec.File? {
      w := PlainWriter(file);
    } else {
      var netascii := new NetasciiWriter(file);
      w := NetasciiWriterRef(netascii);
    }
  }

  /** Every stream either manager builds can be opened. */
  lemma ManagersBuildOpenable(root: Str, filename: Str, mode: Str)
    ensures DefaultStream(root, filename, mode).Some? ==> Openable(DefaultStream(root, filename, mode).value)
    ensures DefaultStream(root, filename, mode).Some? ==>
      SpecPath(DefaultStream(root, filename, mode).value) == JoinPath(root, filename)
  {
  }

  /** The streams the clients open on their local path can be opened. */
  lemma ClientStreamOpenable(path: Str, mode: Str)
    ensures OpenStream(path, mode).Some? ==> Openable(OpenStream(path, mode).value)
    ensures OpenStream(path, mode).Some? ==> SpecPath(OpenStream(path, mode).value) == path
  {
  }
}
