/** Case-insensitive comparison of byte strings, with `tolower` as in the
    "C" locale: only 'A'..'Z' are folded. */
module StringUtils {
  import opened Wire

  /** `std::tolower` in the "C" locale. */
  function ToLower(c: byte): (r: byte)
    ensures 'A' as int <= c <= 'Z' as int ==> r == c + 32
    ensures !('A' as int <= c <= 'Z' as int) ==> r == c
    ensures !('A' as int <= r <= 'Z' as int)
  {
    if 'A' as int <= c <= 'Z' as int then c + 32 else c
  }

  /** Same length, and every position equal after lowercasing. */
  predicate SameIgnoringCase(a: Str, b: Str)
  {
    |a| == |b| && forall i :: 0 <= i < |a| ==> ToLower(a[i]) == ToLower(b[i])
  }

  /** `equal_ignore_case`: length check, then an index loop that stops at
      the first position whose lowercased bytes differ. */
  method EqualIgnoreCase(a: Str, b: Str) returns (r: bool)
    ensures r <==> SameIgnoringCase(a, b)
    ensures |a| != |b| ==> !r
  {
    var aSize := |a|;
    if |b| != aSize {
      return false;
    }
    for i := 0 to aSize
      invariant forall j :: 0 <= j < i ==> ToLower(a[j]) == ToLower(b[j])
    {
      if ToLower(a[i]) != ToLower(b[i]) {
        return false;
      }
    }
    return true;
  }

  /** Lowercasing every byte. */
  function LowerAll(s: Str): (r: Str)
    ensures |r| == |s|
    ensures forall i :: 0 <= i < |s| ==> r[i] == ToLower(s[i])
  {
    if s == [] then [] else [ToLower(s[0])] + LowerAll(s[1..])
  }

  /** The comparison is equality of the lowercased strings. */
  lemma SameIgnoringCaseIsLowerEquality(a: Str, b: Str)
    ensures SameIgnoringCase(a, b) <==> LowerAll(a) == LowerAll(b)
  {
    if LowerAll(a) == LowerAll(b) {
      assert |a| == |LowerAll(a)| == |LowerAll(b)| == |b|;
      forall i | 0 <= i < |a|
        ensures ToLower(a[i]) == ToLower(b[i])
      {
        assert LowerAll(a)[i] == LowerAll(b)[i];
      }
    }
  }

  lemma SameIgnoringCaseReflexive(a: Str)
    ensures SameIgnoringCase(a, a)
  {
  }

  lemma SameIgnoringCaseSymmetric(a: Str, b: Str)
    ensures SameIgnoringCase(a, b) <==> SameIgnoringCase(b, a)
  {
  }

  lemma SameIgnoringCaseTransitive(a: Str, b: Str, c: Str)
    requires SameIgnoringCase(a, b) && SameIgnoringCase(b, c)
    ensures SameIgnoringCase(a, c)
  {
  }

  /** Changing only the case of letters never breaks equality. */
  lemma CaseChangesAreIgnored()
    ensures SameIgnoringCase(Ascii("OCTET"), Ascii("octet"))
    ensures SameIgnoringCase(Ascii("NetAscii"), Ascii("netascii"))
    ensures !SameIgnoringCase(Ascii("octet"), Ascii("octets"))
    ensures !SameIgnoringCase(Ascii("octet"), Ascii("ostet"))
  {
    var o := Ascii("ostet");
    assert ToLower(o[1]) != ToLower(Ascii("octet")[1]);
  }

  /** Folding is only for letters: a byte outside 'A'..'Z' and 'a'..'z'
      matches only itself. */
  lemma NonLettersMatchExactly(c: byte, d: byte)
    requires !('A' as int <= c <= 'Z' as int) && !('a' as int <= c <= 'z' as int)
    ensures ToLower(c) == ToLower(d) <==> c == d
  {
  }
}
