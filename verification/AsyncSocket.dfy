/** `async_socket_base`: the write side of a non-blocking stream socket, on top of a kernel that is
    foreign code. Windows keeps one overlapped operation with a fixed buffer; Linux and macOS call
    `send` in a loop and arm write readiness when the kernel buffer is full. */
module AsyncSocket {
  import opened Bytes

  const OP_BUFFER := 10 * 1024       // write_operation::buffer
  const LINUX_CHUNK := 1024 * 20
  const MACOS_CHUNK := 1024 * 4

  datatype Backend = Overlapped | Posix(chunk: nat)

  /** Result of `send`: a count, a full kernel buffer (EAGAIN), or another error. */
  datatype SendResult = Took(n: nat) | Again | Failure

  class AsyncSocket {
    const backend: Backend
    // the kernel
    var wire: seq<byte>            // bytes taken for good, in order
    var room: nat                  // Posix: free bytes in the send buffer
    var faulty: bool               // `send` may fail for other reasons than a full buffer, `WSASend` at once
    // Overlapped: write_op
    const opBuffer: array<byte>
    var opLen: nat
    var inUse: bool
    var underway: bool             // the kernel has the operation and will report its completion
    // Posix: EPOLLOUT in the interest set, or a one-shot EVFILT_WRITE registered
    var armed: bool
    var writeEnabled: bool

    ghost predicate Valid()
      reads this
    {
      match backend
      case Overlapped =>
        && opBuffer.Length == OP_BUFFER && opLen <= OP_BUFFER
        && (underway ==> inUse) && (inUse && !faulty ==> underway)
      case Posix(chunk) => 0 < chunk && !inUse && !underway
    }

    ghost function InFlight(): seq<byte>
      reads this, opBuffer
    {
      if underway && opLen <= opBuffer.Length then opBuffer[..opLen] else []
    }

    /** Everything a `write` has been told was taken. */
    ghost function Accepted(): seq<byte>
      reads this, opBuffer
    {
      wire + InFlight()
    }

    /** An event is due that will call `on_sent`. */
    predicate WakeupDue()
      reads this
    {
      match backend
      case Overlapped => underway
      case Posix(_) => armed
    }

    constructor (backend: Backend, room: nat, faulty: bool)
      requires backend.Posix? ==> 0 < backend.chunk
      ensures Valid() && Accepted() == [] && !WakeupDue() && writeEnabled && !inUse
      ensures this.backend == backend && this.room == room && this.faulty == faulty && fresh(opBuffer)
    {
      this.backend, this.room, this.faulty := backend, room, faulty;
      opBuffer := new byte[if backend.Overlapped? then OP_BUFFER else 0];
      wire, opLen, inUse, underway, armed, writeEnabled := [], 0, false, false, false, true;
    }

    /** The kernel's `send`. A call with no bytes takes none. */
    method Send(b: seq<byte>) returns (r: SendResult)
      requires Valid() && backend.Posix?
      modifies this`wire, this`room
      ensures r.Took? ==> r.n <= |b| && r.n <= old(room) && room == old(room) - r.n && wire == old(wire) + b[..r.n]
      ensures !r.Took? ==> room == old(room) && wire == old(wire)
      ensures r.Took? && r.n == 0 ==> b == []
      ensures r.Again? ==> b != [] && room == 0
      ensures r.Failure? ==> faulty
    {
      var fails: bool, n: nat := *, *;
      if faulty && fails {
        r := Failure;
      } else if b == [] {
        r := Took(0);
        assert wire + b[..0] == wire;
      } else if room == 0 {
        r := Again;
      } else {
        if !(0 < n <= |b| && n <= room) { n := 1; }
        wire, room := wire + b[..n], room - n;
        r := Took(n);
      }
    }

    method SoWriteInternal(b: seq<byte>) returns (n: nat)
      requires Valid() && backend.Posix?
      modifies this`wire, this`room, this`armed, this`writeEnabled
      ensures Valid() && n <= |b| && n <= old(room) && room == old(room) - n && wire == old(wire) + b[..n]
      ensures n == 0 ==> b == [] || faulty || (room == 0 && armed && !writeEnabled)
      ensures n > 0 || b == [] || room > 0 ==> armed == old(armed) && writeEnabled == old(writeEnabled)
      ensures old(armed) ==> armed
    {
      var r := Send(b);
      match r {
        case Took(k) =>
          n := k;
        case Again =>
          writeEnabled := false;
          armed := true;
          n := 0;
          assert wire + b[..0] == wire;
        case Failure =>
          n := 0;
          assert wire + b[..0] == wire;
      }
    }

    /** However the kernel splits it and whatever the chunk size, what is sent is the longest prefix
        that fits the kernel buffer; a short result leaves readiness armed. */
    method SoWrite(buffer: seq<byte>) returns (result: nat)
      requires Valid() && backend.Posix?
      modifies this`wire, this`room, this`armed, this`writeEnabled
      ensures Valid() && result <= |buffer| && result <= old(room)
      ensures wire == old(wire) + buffer[..result] && room == old(room) - result
      ensures !faulty ==> result == Min(|buffer|, old(room))
      ensures !faulty && result < |buffer| ==> armed && !writeEnabled
      ensures (!faulty && result == |buffer|) || room > 0 ==> armed == old(armed) && writeEnabled == old(writeEnabled)
      ensures old(armed) ==> armed
    {
      result := 0;
      var b := buffer;
      assert wire + buffer[..0] == wire;
      while true
        invariant Valid() && result <= |buffer| && b == buffer[result..]
        invariant result + room == old(room) && wire == old(wire) + buffer[..result]
        invariant armed == old(armed) && writeEnabled == old(writeEnabled)
        decreases |b|
      {
        var len := Min(|b|, backend.chunk);
        var n := SoWriteInternal(b[..len]);
        if n == 0 {
          assert wire == old(wire) + buffer[..result];
          break;
        }
        assert buffer[..result + n] == buffer[..result] + b[..len][..n];
        Regroup(old(wire), buffer[..result], b[..len][..n]);
        result := result + n;
        b := b[n..];
      }
    }

    /** Windows: copy into the operation's buffer and start an overlapped send. If that fails at once it
        throws, and the operation stays in use although no completion will come. */
    method InternalWrite(b: seq<byte>) returns (l: nat, threw: bool)
      requires Valid() && backend.Overlapped? && !inUse
      modifies this`opLen, this`inUse, this`underway, opBuffer
      ensures Valid() && inUse && l == Min(OP_BUFFER, |b|) && underway == !threw
      ensures threw ==> faulty
      ensures InFlight() == if threw then [] else b[..l]
    {
      l := Min(OP_BUFFER, |b|);
      forall i | 0 <= i < l {
        opBuffer[i] := b[i];
      }
      threw := *;
      threw := threw && faulty;
      opLen, inUse, underway := l, true, !threw;
    }

    method OverlappedWrite(b: seq<byte>) returns (n: nat, threw: bool)
      requires Valid() && backend.Overlapped?
      modifies this`opLen, this`inUse, this`underway, opBuffer
      ensures Valid() && inUse && (threw ==> faulty && !old(inUse))
      ensures n == if old(inUse) || threw then 0 else Min(OP_BUFFER, |b|)
      ensures underway == if old(inUse) then old(underway) else !threw
      ensures !old(inUse) ==> InFlight() == b[..n]
      ensures Accepted() == old(Accepted()) + b[..n]
    {
      assert Accepted() + b[..0] == Accepted() && wire + [] == wire;
      if inUse {
        n, threw := 0, false;
      } else {
        n, threw := InternalWrite(b);
        n := if threw then 0 else n;
      }
    }

    method Write(b: seq<byte>) returns (n: nat, threw: bool)
      requires Valid()
      modifies this`wire, this`room, this`armed, this`writeEnabled, this`opLen, this`inUse, this`underway, opBuffer
      ensures Valid() && n <= |b| && Accepted() == old(Accepted()) + b[..n]
      ensures threw ==> backend.Overlapped? && faulty && !old(inUse)
      ensures backend.Overlapped? ==> n == if old(inUse) || threw then 0 else Min(OP_BUFFER, |b|)
      ensures backend.Overlapped? ==> inUse && wire == old(wire) && underway == if old(inUse) then old(underway) else !threw
      ensures backend.Overlapped? && !old(inUse) ==> InFlight() == b[..n]
      ensures backend.Posix? && !faulty ==> n == Min(|b|, old(room)) && room == old(room) - n
      ensures old(WakeupDue()) ==> WakeupDue()
      ensures !faulty && n < |b| ==> WakeupDue()
      ensures backend.Posix? && !faulty && n == |b| ==> armed == old(armed)
    {
      threw := false;
      match backend {
        case Overlapped => n, threw := OverlappedWrite(b);
        case Posix(_) =>
          n := SoWrite(b);
          assert wire + [] == wire && old(wire) + [] == old(wire);
      }
    }

    /** The event that precedes `on_sent`: a completed overlapped send, or write readiness, which is
        disarmed before any callback runs (by hand on Linux, being one-shot on macOS). */
    method TakeWakeup(freed: nat)
      requires Valid() && (backend.Overlapped? ==> underway)
      modifies this`wire, this`room, this`armed, this`writeEnabled, this`inUse, this`underway
      ensures Valid() && !WakeupDue() && !inUse && Accepted() == old(Accepted())
      ensures InFlight() == [] && wire == old(Accepted())
      ensures room == old(room) + if backend.Posix? then freed else 0
    {
      match backend {
        case Overlapped =>
          wire := wire + if opLen <= opBuffer.Length then opBuffer[..opLen] else [];
          inUse, underway := false, false;
          assert wire + [] == wire;
        case Posix(_) =>
          room := room + freed;
          armed, writeEnabled := false, true;
          assert wire + [] == wire;
      }
    }

    /** The kernel has sent some of its buffer. Readiness is level-triggered or one-shot, and reported
        by an event of its own. */
    method RoomFreed(freed: nat)
      requires Valid()
      modifies this`room
      ensures Valid() && room == old(room) + freed && Accepted() == old(Accepted())
    {
      room := room + freed;
    }
  }

  /** The chunk sizes of Linux and macOS cannot be told apart by the caller or on the wire. */
  method SendOnBoth(linux: AsyncSocket, macos: AsyncSocket, buffer: seq<byte>) returns (n: nat, m: nat)
    requires linux != macos && linux.Valid() && macos.Valid()
    requires linux.backend == Posix(LINUX_CHUNK) && macos.backend == Posix(MACOS_CHUNK)
    requires !linux.faulty && !macos.faulty && linux.room == macos.room
    modifies linux, macos
    ensures n == m <= |buffer| && linux.room == macos.room
    ensures linux.wire == old(linux.wire) + buffer[..n] && macos.wire == old(macos.wire) + buffer[..n]
    ensures n < |buffer| ==> linux.armed && macos.armed
  {
    n := linux.SoWrite(buffer);
    m := macos.SoWrite(buffer);
  }
}
