/** The cursor the packet parser reads a received datagram with. A read past
    the end raises `deserialize_error`; here that is the `Err` result. */
module Deserialization {
  import opened Wire

  /** The two messages `deserialize_error` is raised with. */
  datatype DecodeError = NotEnoughData | TooMuchData

  datatype Result<+T> = Ok(value: T) | Err(error: DecodeError)

  /** Index of the first NUL at or after `from`, if there is one. */
  function FindNul(b: seq<byte>, from: nat): (r: Option<nat>)
    requires from <= |b|
    ensures r.Some? ==> from <= r.value < |b| && b[r.value] == NUL
    decreases |b| - from
  {
    if from == |b| then None
    else if b[from] == NUL then Some(from)
    else FindNul(b, from + 1)
  }

  /** The NUL found is the first one; when none is found there is none. */
  lemma {:induction false} FindNulFirst(b: seq<byte>, from: nat)
    requires from <= |b|
    ensures FindNul(b, from).Some? ==> NUL !in b[from..FindNul(b, from).value]
    ensures FindNul(b, from).None? ==> NUL !in b[from..]
    decreases |b| - from
  {
    if from < |b| && b[from] != NUL {
      FindNulFirst(b, from + 1);
      assert b[from..] == [b[from]] + b[from + 1..];
      if FindNul(b, from).Some? {
        assert b[from..FindNul(b, from).value] == [b[from]] + b[from + 1..FindNul(b, from).value];
      }
    }
  }

  class Deserializer {
    /** The received bytes; `m_end_ptr` is `|buffer|`. */
    const buffer: seq<byte>
    /** `m_current_ptr`, as an offset into `buffer`. */
    var current: nat

    ghost predicate Valid()
      reads this
    {
      current <= |buffer|
    }

    constructor (buffer: seq<byte>)
      ensures Valid() && this.buffer == buffer && current == 0
    {
      this.buffer := buffer;
      current := 0;
    }

    predicate HasMoreBytes()
      reads this
    {
      current < |buffer|
    }

    /** `ensure_all_read`: fails exactly when unread bytes remain. */
    method EnsureAllRead() returns (r: Result<()>)
      requires Valid()
      ensures r.Err? <==> HasMoreBytes()
      ensures r.Err? ==> r.error == TooMuchData
    {
      if HasMoreBytes() {
        r := Err(TooMuchData);
      } else {
        r := Ok(());
      }
    }

    /** `read_remaining_bytes`: appends every unread byte to `into`. */
    method ReadRemainingBytes(into: seq<byte>) returns (out: seq<byte>)
      requires Valid()
      modifies this`current
      ensures Valid()
      ensures out == into + old(buffer[current..])
      ensures current == |buffer| && !HasMoreBytes()
    {
      out := into + buffer[current..];
      current := |buffer|;
    }

    /** `read_uint8`: fails, without moving, when no byte remains. */
    method ReadUint8() returns (r: Result<byte>)
      requires Valid()
      modifies this`current
      ensures Valid()
      ensures old(current) < |buffer| ==> r == Ok(buffer[old(current)]) && current == old(current) + 1
      ensures old(current) == |buffer| ==> r == Err(NotEnoughData) && current == old(current)
    {
      if current >= |buffer| {
        return Err(NotEnoughData);
      }
      r := Ok(buffer[current]);
      current := current + 1;
    }

    /** `read_uint16`: two bytes, the first one the high byte. */
    method ReadUint16() returns (r: Result<u16>)
      requires Valid()
      modifies this`current
      ensures Valid()
      ensures old(current) + 2 <= |buffer| ==>
        r == Ok(buffer[old(current)] as int * 256 + buffer[old(current) + 1]) && current == old(current) + 2
      ensures old(current) + 2 > |buffer| ==> r == Err(NotEnoughData) && current == |buffer|
    {
      var byte1 := ReadUint8();
      if byte1.Err? {
        return Err(byte1.error);
      }
      var byte2 := ReadUint8();
      if byte2.Err? {
        return Err(byte2.error);
      }
      r := Ok(byte1.value as int * 256 + byte2.value);
    }

    /** `read_string`: the bytes up to the next NUL, consuming the NUL too;
        without a NUL before the end it fails with the cursor at the end. */
    method ReadString() returns (r: Result<Str>)
      requires Valid()
      modifies this`current
      ensures Valid()
      ensures FindNul(buffer, old(current)).Some? ==>
        var k := FindNul(buffer, old(current)).value;
        r == Ok(buffer[old(current)..k]) && current == k + 1
      ensures FindNul(buffer, old(current)).None? ==> r == Err(NotEnoughData) && current == |buffer|
    {
      var start := current;
      while true
        invariant Valid()
        invariant start <= current
        invariant FindNul(buffer, start) == FindNul(buffer, current)
        decreases |buffer| - current
      {
        var c := ReadUint8();
        if c.Err? {
          return Err(c.error);
        }
        if c.value == NUL {
          break;
        }
      }
      r := Ok(buffer[start..current - 1]);
    }
  }
}
