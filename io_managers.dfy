/** How the server turns the filename and mode of a request into a stream:
    the file layer refuses names with "..", joins the name to the root
    directory and opens a file; the mode layer keeps an "octet" stream and
    wraps a "netascii" one. Streams are described by value; `Streams` opens
    them. */
module IoManagers {
  import opened Wire
  import opened StringUtils

  /** A stream as the managers build it: a file on a path, or a netascii
      filter around another stream. */
  datatype StreamSpec = File(path: Str) | Netascii(inner: StreamSpec)

  const DOT: byte := '.' as int
  const SLASH: byte := '/' as int

  function Octet(): (r: Str)
    ensures r == [111, 99, 116, 101, 116]
  {
    Ascii("octet")
  }

  function NetasciiMode(): (r: Str)
    ensures r == [110, 101, 116, 97, 115, 99, 105, 105]
  {
    Ascii("netascii")
  }

  /** `filename.find("..") != npos`. */
  predicate HasDotDot(filename: Str)
  {
    exists i :: 0 <= i < |filename| - 1 && filename[i] == DOT && filename[i + 1] == DOT
  }

  /** `root + '/' + filename`. */
  function JoinPath(root: Str, filename: Str): (r: Str)
    ensures |r| == |root| + 1 + |filename|
    ensures r[..|root|] == root && r[|root|] == SLASH && r[|root| + 1..] == filename
  {
    root + [SLASH] + filename
  }

  /** `file_data_io_manager::create_reader` and `create_writer`, which are
      identical: no stream for a name with "..", otherwise a raw file
      stream on the joined path, whether or not it will open. */
  function FileDataStream(root: Str, filename: Str): Option<StreamSpec>
  {
    if HasDotDot(filename) then None else Some(File(JoinPath(root, filename)))
  }

  /** `default_mode_io_manager::create_reader` and `create_writer`: "octet"
      keeps the stream, "netascii" wraps it, any other mode gives none. */
  function ModeStream(stream: StreamSpec, mode: Str): Option<StreamSpec>
  {
    if SameIgnoringCase(mode, Octet()) then Some(stream)
    else if SameIgnoringCase(mode, NetasciiMode()) then Some(Netascii(stream))
    else None
  }

  /** `io_manager::create_reader` and `create_writer`: the file layer, then
      the mode layer on its stream when there is one. */
  function LayeredStream(root: Str, filename: Str, mode: Str): Option<StreamSpec>
  {
    match FileDataStream(root, filename)
    case None => None
    case Some(stream) => ModeStream(stream, mode)
  }

  /** `default_io_manager::open_reader` and `open_writer`. */
  function OpenStream(path: Str, mode: Str): Option<StreamSpec>
  {
    if SameIgnoringCase(mode, Octet()) then Some(File(path))
    else if SameIgnoringCase(mode, NetasciiMode()) then Some(Netascii(File(path)))
    else None
  }

  /** `default_io_manager::create_reader` and `create_writer`: the ".."
      check first, then the mode decision on the joined path. */
  function DefaultStream(root: Str, filename: Str, mode: Str): Option<StreamSpec>
  {
    if HasDotDot(filename) then None else OpenStream(JoinPath(root, filename), mode)
  }

  // ---------------------------------------------------------------------
  // Properties

  /** A name containing ".." never gets a stream, from either manager and
      in any mode. */
  lemma DotDotRefused(root: Str, filename: Str, mode: Str, i: nat)
    requires i + 1 < |filename| && filename[i] == DOT && filename[i + 1] == DOT
    ensures FileDataStream(root, filename).None?
    ensures LayeredStream(root, filename, mode).None?
    ensures DefaultStream(root, filename, mode).None?
  {
  }

  /** The file layer never refuses a name without "..", and never wraps. */
  lemma FileLayerIsRawFile(root: Str, filename: Str)
    ensures FileDataStream(root, filename).Some? <==> !HasDotDot(filename)
    ensures FileDataStream(root, filename).Some? ==>
      FileDataStream(root, filename).value == File(root + [SLASH] + filename)
  {
  }

  /** The mode layer's three outcomes, letter case ignored. */
  lemma ModeDecision(stream: StreamSpec, mode: Str)
    ensures SameIgnoringCase(mode, Octet()) ==> ModeStream(stream, mode) == Some(stream)
    ensures SameIgnoringCase(mode, NetasciiMode()) ==> ModeStream(stream, mode) == Some(Netascii(stream))
    ensures ModeStream(stream, mode).None? <==>
      !SameIgnoringCase(mode, Octet()) && !SameIgnoringCase(mode, NetasciiMode())
  {
    assert Octet()[0] != NetasciiMode()[0];
  }

  /** The two mode names never both match, so the order of the tests in
      the source does not matter. */
  lemma ModesExclusive(mode: Str)
    ensures !(SameIgnoringCase(mode, Octet()) && SameIgnoringCase(mode, NetasciiMode()))
  {
  }

  /** The layered manager and the default manager return the same stream
      for every request, including no stream for a name with "..". Only the
      returned stream is compared: what an open does to the disk on the way
      is not part of a `StreamSpec`. */
  lemma LayeredIsDefault(root: Str, filename: Str, mode: Str)
    ensures LayeredStream(root, filename, mode) == DefaultStream(root, filename, mode)
  {
  }

  /** The filename only reaches the file layer and the mode only the mode
      layer: changing one cannot change what the other decides. */
  lemma LayersAreIndependent(root: Str, filename: Str, mode: Str, mode': Str)
    requires !HasDotDot(filename)
    ensures LayeredStream(root, filename, mode).Some? ==>
      LayeredStream(root, filename, mode).value.File? ||
      LayeredStream(root, filename, mode).value == Netascii(File(JoinPath(root, filename)))
    ensures SameIgnoringCase(mode, mode') ==>
      LayeredStream(root, filename, mode) == LayeredStream(root, filename, mode')
  {
    if SameIgnoringCase(mode, mode') {
      forall t: Str ensures SameIgnoringCase(mode, t) <==> SameIgnoringCase(mode', t) {
        if SameIgnoringCase(mode, t) {
          SameIgnoringCaseSymmetric(mode, mode');
          SameIgnoringCaseTransitive(mode', mode, t);
        }
        if SameIgnoringCase(mode', t) {
          SameIgnoringCaseTransitive(mode, mode', t);
        }
      }
    }
  }

  /** Letter case of the mode is ignored: "OCTET" and "NetAscii" work. */
  lemma ModeCaseIgnored(root: Str, filename: Str)
    requires !HasDotDot(filename)
    ensures DefaultStream(root, filename, [79, 67, 84, 69, 84]) == Some(File(JoinPath(root, filename)))
    ensures DefaultStream(root, filename, [78, 101, 116, 65, 115, 99, 105, 105]) ==
      Some(Netascii(File(JoinPath(root, filename))))
    ensures DefaultStream(root, filename, [109, 97, 105, 108]).None?
  {
    var mail: Str := [109, 97, 105, 108];
    assert !SameIgnoringCase(mail, NetasciiMode());
  }
}
