/** The stdio streams the transfers read from and write to. A file system
    is a value saying which paths `fopen` can open for reading (and with
    what contents), which it can create for writing, and on which paths the
    stream reports an error (`ferror`). */
module FileIo {
  import opened Wire

  datatype FileSystem = FileSystem(
    files: map<Str, seq<byte>>,
    creatable: set<Str>,
    faulty: set<Str>)

  function Min(a: nat, b: nat): (r: nat)
    ensures r <= a && r <= b && (r == a || r == b)
  {
    if a <= b then a else b
  }

  /** `file_reader`: a stream opened with mode "rb". */
  class FileReader {
    var isOpen: bool
    /** The bytes not yet read. */
    var rest: seq<byte>
    /** The stream's error indicator: every read on it reports failure. */
    const faulty: bool

    constructor (fs: FileSystem, path: Str)
      ensures isOpen == (path in fs.files)
      ensures rest == (if path in fs.files then fs.files[path] else [])
      ensures faulty == (path in fs.faulty)
    {
      isOpen := path in fs.files;
      rest := if path in fs.files then fs.files[path] else [];
      faulty := path in fs.faulty;
    }

    /** A read that delivers the file's bytes: open and without error. */
    predicate Delivers()
      reads this
    {
      isOpen && !faulty
    }

    /** `read`: up to `n` bytes; fails on a closed or faulty stream, then
        delivering nothing and consuming nothing. */
    method Read(n: nat) returns (ok: bool, bytes: seq<byte>)
      modifies this`rest
      ensures ok == old(Delivers())
      ensures ok ==> bytes == old(rest)[..Min(n, |old(rest)|)] && rest == old(rest)[|bytes|..]
      ensures !ok ==> bytes == [] && rest == old(rest)
      ensures |bytes| <= n
    {
      if !isOpen || faulty {
        return false, [];
      }
      var k := Min(n, |rest|);
      bytes := rest[..k];
      rest := rest[k..];
      ok := true;
    }

    /** `close`: closing a read stream always succeeds. */
    method Close() returns (ok: bool)
      modifies this`isOpen
      ensures !isOpen && ok
    {
      isOpen := false;
      ok := true;
    }
  }

  /** `file_writer`: a stream opened with mode "wb", so it starts empty. */
  class FileWriter {
    var isOpen: bool
    /** Every byte written so far. */
    var written: seq<byte>
    /** The stream's error indicator: every non-empty write fails. */
    const faulty: bool

    constructor (fs: FileSystem, path: Str)
      ensures isOpen == (path in fs.creatable)
      ensures written == []
      ensures faulty == (path in fs.faulty)
    {
      isOpen := path in fs.creatable;
      written := [];
      faulty := path in fs.faulty;
    }

    predicate Accepts()
      reads this
    {
      isOpen && !faulty
    }

    /** `write`: succeeds when the stream is open and `fwrite` stores every
        byte; a zero-length write therefore succeeds even on a faulty
        stream. A failing write stores nothing. */
    method Write(bytes: seq<byte>) returns (ok: bool)
      modifies this`written
      ensures ok == (old(isOpen) && (bytes == [] || !faulty))
      ensures written == old(written) + (if ok then bytes else [])
    {
      if !isOpen {
        return false;
      }
      if bytes != [] && faulty {
        return false;
      }
      written := written + bytes;
      ok := true;
    }

    /** `close`: the final flush fails on a faulty stream. */
    method Close() returns (ok: bool)
      modifies this`isOpen
      ensures !isOpen
      ensures ok == (!old(isOpen) || !faulty)
    {
      ok := !isOpen || !faulty;
      isOpen := false;
    }
  }
}
