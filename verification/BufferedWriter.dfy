/** `buffered_writer`: a bounded buffer in front of a writer that takes what it can. The writer is
    the POSIX socket, with its `so_write` and `write_enabled`. */
module BufferedWriter {
  import opened Bytes
  import opened AsyncSocket

  datatype Outcome = Wrote(n: nat) | Thrown

  class BufferedWriter {
    const writer: AsyncSocket
    const bufferSize: nat
    /** What `reserve` really allocated; at least what was asked for. */
    const capacity: nat
    var buffer: seq<byte>
    ghost var taken: seq<byte>   // the prefixes `write` reported as written

    ghost predicate Valid()
      reads this, writer
    {
      && writer.Valid() && writer.backend.Posix?
      && |buffer| <= capacity && bufferSize <= capacity
      && writer.wire + buffer == taken
    }

    constructor (writer: AsyncSocket, bufferSize: nat, capacity: nat)
      requires writer.Valid() && writer.backend.Posix? && writer.wire == [] && bufferSize <= capacity
      ensures Valid() && buffer == [] && taken == []
      ensures this.writer == writer && this.bufferSize == bufferSize && this.capacity == capacity
    {
      this.writer, this.bufferSize, this.capacity := writer, bufferSize, capacity;
      buffer, taken := [], [];
    }

    /** Throws exactly when the vector's capacity is not the requested one. */
    method AddToBuffer(b: seq<byte>) returns (r: Outcome)
      requires Valid()
      modifies this`buffer, this`taken
      ensures Valid()
      ensures buffer == old(buffer) + b[..Min(|b|, capacity - old(|buffer|))]
      ensures taken == old(taken) + b[..Min(|b|, capacity - old(|buffer|))]
      ensures r == if capacity == bufferSize then Wrote(Min(|b|, capacity - old(|buffer|))) else Thrown
    {
      var toBuffer := Min(|b|, capacity - |buffer|);
      Regroup(writer.wire, buffer, b[..toBuffer]);
      buffer := buffer + b[..toBuffer];
      taken := taken + b[..toBuffer];
      if capacity != bufferSize {
        return Thrown;
      }
      r := Wrote(toBuffer);
    }

    /** A prefix is written or kept; less than all of it only if the buffer is full afterwards. */
    method Write(b: seq<byte>) returns (r: Outcome)
      requires Valid()
      modifies this`buffer, this`taken, writer
      ensures Valid()
      ensures r.Thrown? ==> capacity != bufferSize
      ensures r.Wrote? ==> r.n <= |b| && taken == old(taken) + b[..r.n]
      ensures r.Wrote? && r.n < |b| ==> |buffer| == capacity
      ensures old(writer.wire) <= writer.wire && writer.faulty == old(writer.faulty)
      ensures old(buffer) != [] || !old(writer.writeEnabled) ==>
        writer.wire == old(writer.wire) && writer.room == old(writer.room) && old(buffer) <= buffer
      ensures old(buffer) == [] && old(writer.writeEnabled) && !writer.faulty ==>
        |writer.wire| == old(|writer.wire|) + Min(|b|, old(writer.room))
    {
      if buffer != [] || !writer.writeEnabled {
        r := AddToBuffer(b);
        return;
      }
      var n := writer.SoWrite(b);
      taken := taken + b[..n];
      assert writer.wire + [] == writer.wire && old(writer.wire) + [] == old(writer.wire);
      r := Wrote(n);
      if n < |b| {
        r := AddToBuffer(b[n..]);
        if r.Wrote? {
          TwoPrefixes(b, n, r.n);
          Regroup(old(taken), b[..n], b[n..][..r.n]);
          r := Wrote(n + r.n);
        }
      }
    }

    /** The exception for a writer that takes more than it was given is never thrown. */
    method WriteBuffered() returns (r: Outcome)
      requires Valid()
      modifies this`buffer, writer
      ensures Valid() && r.Wrote? && r.n <= old(|buffer|)
      ensures buffer == old(buffer)[r.n..] && writer.wire == old(writer.wire) + old(buffer)[..r.n]
      ensures taken == old(taken) && writer.faulty == old(writer.faulty)
      ensures !writer.faulty ==> r.n == Min(old(|buffer|), old(writer.room))
    {
      if buffer == [] {
        assert writer.wire + [] == writer.wire;
        return Wrote(0);
      }
      var n := writer.SoWrite(buffer);
      if n > |buffer| {
        return Thrown;
      }
      assert buffer[..n] + buffer[n..] == buffer;
      Regroup(old(writer.wire), buffer[..n], buffer[n..]);
      if n > 0 {
        buffer := buffer[n..];
      }
      r := Wrote(n);
    }

    /** Alternating `write` of what is left with `write_buffered` delivers a whole message, in order,
        in at most one round per byte, if in every round the kernel has room for a byte and the
        buffer can hold one. */
    method Pump(message: seq<byte>) returns (rounds: nat)
      requires Valid() && capacity == bufferSize && 0 < bufferSize && !writer.faulty
      modifies this, writer
      ensures Valid() && buffer == []
      ensures writer.wire == old(writer.wire) + old(buffer) + message
      ensures rounds <= old(|buffer|) + |message|
    {
      hide Passed;
      rounds := 0;
      var rest := message;
      NothingPassed(message, taken);
      while rest != [] || buffer != []
        invariant Valid() && !writer.faulty && Passed(message, rest, old(taken), taken)
        invariant rounds + |rest| + |buffer| <= old(|buffer|) + |message|
        invariant rounds <= |writer.wire| - old(|writer.wire|)
        decreases |rest| + |buffer|
      {
        ghost var wire0, taken0 := writer.wire, taken;
        Freed();
        var r := Write(rest);
        MessageStep(message, rest, r.n, old(taken), taken0, taken);
        rest := rest[r.n..];
        var _ := WriteBuffered();
        rounds := rounds + 1;
      }
      AllPassed(message, rest, old(taken), taken);
      assert writer.wire + [] == writer.wire;
    }

    /** The kernel frees some room. */
    method Freed()
      requires Valid()
      modifies writer`room
      ensures Valid() && writer.room > 0
    {
      var k: int := *;
      writer.room := writer.room + if k > 0 then k else 1;
    }
  }

  lemma TwoPrefixes(b: seq<byte>, n: nat, m: nat)
    requires n + m <= |b|
    ensures b[..n + m] == b[..n] + b[n..][..m]
  {
  }

  /** Of `message`, all but `rest` has been taken since `before`. */
  predicate Passed(message: seq<byte>, rest: seq<byte>, before: seq<byte>, taken: seq<byte>) {
    && |rest| <= |message| && rest == message[|message| - |rest|..]
    && taken == before + message[..|message| - |rest|]
  }

  lemma NothingPassed(message: seq<byte>, taken: seq<byte>)
    ensures Passed(message, message, taken, taken)
  {
    assert taken + message[..0] == taken;
  }

  lemma AllPassed(message: seq<byte>, rest: seq<byte>, before: seq<byte>, taken: seq<byte>)
    requires Passed(message, rest, before, taken) && rest == []
    ensures taken == before + message
  {
    assert message[..|message|] == message;
  }

  lemma MessageStep(message: seq<byte>, rest: seq<byte>, n: nat, before: seq<byte>, taken0: seq<byte>, taken: seq<byte>)
    requires Passed(message, rest, before, taken0) && n <= |rest| && taken == taken0 + rest[..n]
    ensures Passed(message, rest[n..], before, taken)
  {
    var k := |message| - |rest|;
    assert message[..k + n] == message[..k] + rest[..n];
    Regroup(before, message[..k], rest[..n]);
  }
}
