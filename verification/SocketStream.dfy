/** `socket_stream` and the event handler of its socket: a queue of bytes the socket did not take,
    flushed when the socket says it can take more. */
module SocketStream {
  import opened Bytes
  import opened AsyncSocket
  import opened PendingQueue

  const RECV_CHUNK := 1024 * 4

  datatype UpCall = Connected | Received(data: seq<byte>) | Disconnected

  /** What `recv` found: data, the end of the stream, or an error; `NoInput` without EPOLLIN. */
  datatype Recv = NoInput | Arrived(data: seq<byte>) | Eof | RecvFailed

  function Connections(ups: seq<UpCall>): nat {
    if ups == [] then 0
    else Connections(ups[..|ups| - 1]) + if ups[|ups| - 1].Connected? then 1 else 0
  }

  lemma SnocConnections(ups: seq<UpCall>, u: UpCall)
    ensures Connections(ups + [u]) == Connections(ups) + if u.Connected? then 1 else 0
  {
    assert (ups + [u])[..|ups|] == ups;
  }

  /** The layer above hears of a connection at most once, and of data only after that; received
      pieces are not empty and no larger than the receive buffer. */
  ghost predicate Announced(ups: seq<UpCall>, connected: bool, accepted: bool, dialFailed: bool) {
    && Connections(ups) <= (if connected && !accepted && !dialFailed then 1 else 0)
    && (ups != [] ==> connected)
    && (ups != [] && !accepted && !dialFailed ==> ups[0].Connected?)
    && (dialFailed ==> forall u <- ups :: u.Disconnected?)
    && (forall u <- ups :: u.Received? ==> 0 < |u.data| <= RECV_CHUNK)
  }

  lemma Answer(f: Flow<byte>, buf: seq<byte>, n: nat)
    requires n <= |buf|
    ensures Apply(f, Wrote(buf, n)) == Flow(f.sent + buf[..n], if n < |buf| then f.pending + buf else f.pending)
  {
  }

  lemma NothingAppends(p: nat, size: nat, n: nat)
    requires n <= size
    ensures n == 0 || (p == 0 && n == size) ==> AlwaysAppends(p, size, n)
  {
  }

  lemma AnnouncedMore(ups: seq<UpCall>, connected: bool, accepted: bool, dialFailed: bool, u: UpCall)
    requires Announced(ups, connected, accepted, dialFailed) && connected
    requires u.Connected? ==> ups == [] && !accepted && !dialFailed
    requires !u.Connected? && !accepted && !dialFailed ==> ups != []
    requires u.Received? ==> !dialFailed && 0 < |u.data| <= RECV_CHUNK
    ensures Announced(ups + [u], connected, accepted, dialFailed)
  {
    SnocConnections(ups, u);
  }

  datatype Backlog = Backlog(room: nat, armed: bool, accepted: seq<byte>, pending: seq<byte>)

  /** What writes of `given` in all, on a socket without errors, do: readiness is armed exactly if they are more
      than there was room for, and else they are taken whole. */
  predicate Absorbed(k: Backlog, given: seq<byte>, k': Backlog) {
    && k'.room == (if |given| > k.room then 0 else k.room - |given|)
    && (k'.armed <==> k.armed || |given| > k.room)
    && (|given| <= k.room ==> k'.accepted == k.accepted + given && k'.pending == k.pending)
  }

  lemma AbsorbedNothing(k: Backlog)
    ensures Absorbed(k, [], k)
  {
    assert k.accepted + [] == k.accepted;
  }

  lemma AbsorbedRoom(k: Backlog, given: seq<byte>, k': Backlog)
    requires Absorbed(k, given, k')
    ensures k'.room == RoomLeft(k.room, |given|)
  {
  }

  function RoomLeft(room: nat, len: nat): nat {
    if len > room then 0 else room - len
  }

  /** What is asked of a socket without errors, and its answers, when buffers are written one after another. */
  function WriteSteps(room: nat, bufs: seq<seq<byte>>): seq<Step<byte>> {
    if bufs == [] then []
    else
      [Wrote(bufs[0], Min(|bufs[0]|, room))] + WriteSteps(RoomLeft(room, |bufs[0]|), bufs[1..])
  }

  /** And when so many bytes are pending and it says it can take more. */
  function FlushSteps(pending: nat, room: nat): seq<Step<byte>> {
    if pending == 0 then [] else [Flushed(Min(pending, room))]
  }

  /** Bytes a writability event has to send: what is pending, or at first what the application then writes. */
  function OutputOf(connected: bool, pending: nat, dialError: bool, writes: seq<seq<byte>>): nat {
    if connected then pending else if dialError then 0 else |Flatten(writes)|
  }

  lemma {:induction false} WriteStepsMore(room: nat, bufs: seq<seq<byte>>, buf: seq<byte>)
    ensures WriteSteps(room, bufs + [buf]) ==
      WriteSteps(room, bufs) + [Wrote(buf, Min(|buf|, RoomLeft(room, |Flatten(bufs)|)))]
    decreases |bufs|
  {
    if bufs == [] {
      assert [] + [buf] == [buf] && [buf][1..] == [];
      assert WriteSteps(RoomLeft(room, |buf|), []) == [];
    } else {
      assert (bufs + [buf])[1..] == bufs[1..] + [buf];
      WriteStepsMore(RoomLeft(room, |bufs[0]|), bufs[1..], buf);
      assert |Flatten(bufs)| == |bufs[0]| + |Flatten(bufs[1..])|;
    }
  }

  lemma AbsorbedMore(k: Backlog, given: seq<byte>, k1: Backlog, buf: seq<byte>, k2: Backlog)
    requires Absorbed(k, given, k1)
    requires var n := Min(|buf|, k1.room);
             && k2.room == k1.room - n && (k2.armed <==> k1.armed || n < |buf|)
             && Flow(k2.accepted, k2.pending) == Apply(Flow(k1.accepted, k1.pending), Wrote(buf, n))
    ensures Absorbed(k, given + buf, k2)
  {
    Regroup(k.accepted, given, buf);
  }

  function Heard(recv: Recv): seq<UpCall> {
    match recv
    case Arrived(d) => [Received(d)]
    case Eof => [Disconnected]
    case _ => []
  }

  class SocketStream {
    const sock: AsyncSocket
    var pending: seq<byte>
    var connected: bool
    ghost const accepted: bool     // made by `accept`, so connected from the start
    var dialFailed: bool           // the environment's: the connection attempt ended in an error
    ghost var ups: seq<UpCall>
    ghost var steps: seq<Step<byte>>   // what was asked of the socket, and its answers
    ghost var written: seq<byte>   // all buffers, concatenated
    ghost var repeated: nat        // bytes taken by writes that were cut short
    ghost var inOrder: bool        // no write was cut short or overtook pending data

    ghost function Line(): seq<byte>
      reads this, sock, sock.opBuffer
    {
      sock.Accepted() + pending
    }

    /** What matters of a POSIX socket and its queue when data is kept back. */
    ghost function Kernel(): Backlog
      reads this, sock, sock.opBuffer
    {
      Backlog(sock.room, sock.armed, sock.Accepted(), pending)
    }

    ghost predicate Valid()
      reads this, sock, sock.opBuffer
    {
      && sock.Valid()
      && Recorded(Flow(sock.Accepted(), pending), steps, written, repeated, inOrder)
      && (accepted ==> connected)
      && (connected && !accepted && !dialFailed ==> ups != [])
      && Announced(ups, connected, accepted, dialFailed)
    }

    /** Where stalls are ruled out: on a connected socket without errors. */
    ghost predicate Reliable()
      reads this, sock
    {
      !sock.faulty && (sock.backend.Overlapped? || connected)
    }

    /** Data kept back has an event coming that will flush it. */
    ghost predicate NotStalled()
      reads this, sock
    {
      Reliable() && pending != [] ==> sock.WakeupDue()
    }

    /** What the history of answers says of the line. */
    lemma LineFacts()
      requires Valid()
      ensures Flow(sock.Accepted(), pending) == PendingQueue.Run(Flow([], []), steps) && Written(steps) == written
      ensures |Line()| == |written| + repeated && (inOrder ==> Line() == written)
      ensures Distinct(written) ==> (Line() == written <==> inOrder)
    {
      RecordedFacts(Flow(sock.Accepted(), pending), steps, written, repeated, inOrder);
    }

    constructor (sock: AsyncSocket, accepted: bool)
      requires sock.Valid() && sock.Accepted() == []
      ensures this.sock == sock && this.accepted == accepted && connected == accepted
      ensures Valid() && NotStalled() && pending == [] && written == [] && inOrder && repeated == 0 && ups == []
    {
      this.sock, this.accepted, connected, pending := sock, accepted, accepted, [];
      dialFailed, ups, steps, written, repeated, inOrder := false, [], [], [], 0, true;
    }

    /** `socket_stream::write`: reports the whole buffer as written. `taken` is the socket's answer. An exception
        of the socket passes through, and the buffer is neither sent nor kept. */
    method Write(buf: seq<byte>) returns (size: nat, ghost taken: nat, threw: bool)
      requires Valid()
      modifies this`pending, this`steps, this`written, this`repeated, this`inOrder, sock, sock.opBuffer
      ensures Valid() && sock.faulty == old(sock.faulty)
      ensures old(NotStalled()) ==> NotStalled()
      ensures threw ==> sock.backend.Overlapped? && sock.faulty && !old(sock.inUse)
      ensures threw ==> Line() == old(Line()) && pending == old(pending) && written == old(written) && inOrder == old(inOrder)
      ensures !threw ==> size == |buf| && written == old(written) + buf
      ensures taken <= |buf|
      ensures !threw ==>
        && Flow(sock.Accepted(), pending) == Apply(Flow(old(sock.Accepted()), old(pending)), Wrote(buf, taken))
        && repeated == old(repeated) + (if taken < |buf| then taken else 0)
        && inOrder == (old(inOrder) && AlwaysAppends(|old(pending)|, |buf|, taken))
        && steps == old(steps) + [Wrote(buf, taken)]
      ensures sock.backend.Overlapped? ==> taken == if old(sock.inUse) || threw then 0 else Min(OP_BUFFER, |buf|)
      ensures sock.backend.Posix? && !sock.faulty ==>
        && taken == Min(|buf|, old(sock.room)) && sock.room == old(sock.room) - taken
        && (sock.armed <==> old(sock.armed) || taken < |buf|)
      ensures old(pending) <= pending
      ensures sock.backend.Overlapped? ==>
        && sock.inUse && sock.wire == old(sock.wire)
        && sock.underway == if old(sock.inUse) then old(sock.underway) else !threw
      ensures sock.backend.Overlapped? && old(NotStalled()) && !sock.faulty && |buf| <= OP_BUFFER ==> inOrder == old(inOrder)
      ensures old(sock.WakeupDue()) ==> sock.WakeupDue()
    {
      hide Announced, AlwaysAppends, Recorded, Apply;
      ghost var f := Flow(sock.Accepted(), pending);
      var n: nat;
      n, threw := sock.Write(buf);
      taken, size := n, |buf|;
      NothingAppends(|f.pending|, |buf|, n);
      if threw {
        assert sock.Accepted() == f.sent;
        return;
      }
      if n < |buf| {
        pending := pending + buf;
      }
      Answer(f, buf, n);
      RecordedMore(f, steps, written, repeated, inOrder, Wrote(buf, taken));
      steps := steps + [Wrote(buf, taken)];
      written := written + buf;
      repeated := repeated + if taken < |buf| then taken else 0;
      inOrder := inOrder && AlwaysAppends(|old(pending)|, |buf|, taken);
    }

    /** The `on_sent` callback. */
    method OnSent() returns (threw: bool)
      requires Valid()
      modifies this`pending, this`steps, sock, sock.opBuffer
      ensures Valid() && Line() == old(Line()) && sock.faulty == old(sock.faulty)
      ensures threw ==> sock.backend.Overlapped? && sock.faulty && !old(sock.inUse) && pending == old(pending)
      ensures !sock.faulty ==> pending != [] ==> sock.WakeupDue()
      ensures |pending| <= |old(pending)|
      ensures sock.backend.Overlapped? && !old(sock.inUse) && old(pending) != [] ==>
        sock.inUse && sock.underway == !threw && (!threw ==> |pending| < |old(pending)|)
      ensures sock.backend.Overlapped? && !old(sock.inUse) && old(pending) == [] ==> !threw && !sock.inUse && pending == []
      ensures sock.backend.Overlapped? && !old(sock.inUse) && !threw ==>
        var n := Min(OP_BUFFER, |old(pending)|);
        pending == old(pending)[n..] && (old(pending) != [] ==> sock.InFlight() == old(pending)[..n])
      ensures sock.backend.Posix? && !sock.faulty ==>
        var n := Min(|old(pending)|, old(sock.room));
        && pending == old(pending)[n..] && sock.room == old(sock.room) - n
        && (sock.armed <==> old(sock.armed) || n < |old(pending)|)
        && steps == old(steps) + FlushSteps(|old(pending)|, old(sock.room))
      ensures sock.backend.Overlapped? ==> sock.wire == old(sock.wire)
    {
      hide Announced, Recorded;
      threw := false;
      assert steps + [] == steps;
      if pending != [] {
        ghost var f := Flow(sock.Accepted(), pending);
        var n: nat;
        n, threw := sock.Write(pending);
        FlushKeepsLine(f, n);
        RecordedMore(f, steps, written, repeated, inOrder, Flushed(n));
        assert written + [] == written;
        steps := steps + [Flushed(n)];
        if n > 0 {
          pending := pending[n..];
        }
      }
    }

    /** Writes made from inside a callback of a POSIX socket. */
    method WriteAll(bufs: seq<seq<byte>>)
      requires Valid() && sock.backend.Posix?
      modifies this`pending, this`steps, this`written, this`repeated, this`inOrder, sock, sock.opBuffer
      ensures Valid() && written == old(written) + Flatten(bufs)
      ensures old(NotStalled()) ==> NotStalled()
      ensures old(sock.WakeupDue()) ==> sock.WakeupDue()
      ensures sock.faulty == old(sock.faulty)
      ensures !sock.faulty ==> Absorbed(old(Kernel()), Flatten(bufs), Kernel())
      ensures !sock.faulty ==> steps == old(steps) + WriteSteps(old(sock.room), bufs)
      ensures old(pending) <= pending
      ensures bufs == [] ==> pending == old(pending) && sock.armed == old(sock.armed)
    {
      hide Recorded, Announced, Flatten, Absorbed, Valid, NotStalled, Apply, AlwaysAppends;
      FlattenNothing<byte>();
      assert bufs[..0] == [] && written + [] == written && steps + [] == steps && WriteSteps(sock.room, []) == [];
      hide WriteSteps;
      ghost var k0 := Kernel();
      AbsorbedNothing(k0);
      for i := 0 to |bufs|
        invariant Valid() && written == old(written) + Flatten(bufs[..i])
        invariant old(NotStalled()) ==> NotStalled()
        invariant old(sock.WakeupDue()) ==> sock.WakeupDue()
        invariant sock.faulty == old(sock.faulty)
        invariant old(pending) <= pending
        invariant i == 0 ==> pending == old(pending) && sock.armed == old(sock.armed)
        invariant !sock.faulty ==> Absorbed(k0, Flatten(bufs[..i]), Kernel())
        invariant !sock.faulty ==> steps == old(steps) + WriteSteps(k0.room, bufs[..i])
      {
        ghost var k := Kernel();
        var _, _, _ := Write(bufs[i]);
        FlattenSnoc(bufs[..i], bufs[i]);
        Regroup(old(written), Flatten(bufs[..i]), bufs[i]);
        if !sock.faulty {
          AbsorbedRoom(k0, Flatten(bufs[..i]), k);
          AbsorbedMore(k0, Flatten(bufs[..i]), k, bufs[i], Kernel());
          WriteStepsMore(k0.room, bufs[..i], bufs[i]);
          Regroup(old(steps), WriteSteps(k0.room, bufs[..i]), [Wrote(bufs[i], Min(|bufs[i]|, k.room))]);
        }
        assert bufs[..i + 1] == bufs[..i] + [bufs[i]];
      }
      assert bufs[..|bufs|] == bufs;
    }

    /** After a send that failed at once the operation stays in use, and no completion comes. */
    ghost predicate Stuck()
      reads sock
    {
      sock.backend.Overlapped? && sock.inUse && !sock.underway
    }

    /** Then nothing is sent any more, although every write reports success and its buffer is kept. */
    method WritesAfterFailure(bufs: seq<seq<byte>>)
      requires Valid() && Stuck()
      modifies this`pending, this`steps, this`written, this`repeated, this`inOrder, sock, sock.opBuffer
      ensures Valid() && Stuck() && sock.wire == old(sock.wire)
      ensures pending == old(pending) + Flatten(bufs) && written == old(written) + Flatten(bufs)
    {
      hide Recorded, Announced, Flatten, Valid, NotStalled, AlwaysAppends;
      FlattenNothing<byte>();
      assert bufs[..0] == [] && written + [] == written && pending + [] == pending;
      for i := 0 to |bufs|
        invariant Valid() && Stuck() && sock.wire == old(sock.wire)
        invariant pending == old(pending) + Flatten(bufs[..i]) && written == old(written) + Flatten(bufs[..i])
      {
        var _, _, threw := Write(bufs[i]);
        FlattenSnoc(bufs[..i], bufs[i]);
        Regroup(old(written), Flatten(bufs[..i]), bufs[i]);
        Regroup(old(pending), Flatten(bufs[..i]), bufs[i]);
        assert bufs[..i + 1] == bufs[..i] + [bufs[i]];
      }
      assert bufs[..|bufs|] == bufs;
    }

    /** Windows, a write completion: the operation is free again, then `on_sent`. */
    method WriteCompleted() returns (threw: bool)
      requires Valid() && NotStalled() && sock.backend.Overlapped? && sock.underway
      modifies this`pending, this`steps, sock, sock.opBuffer
      ensures Valid() && NotStalled() && Line() == old(Line())
      ensures sock.wire == old(sock.Accepted()) && sock.faulty == old(sock.faulty)
      ensures threw ==> sock.faulty && old(pending) != []
      ensures if old(pending) == [] then pending == [] && !sock.inUse
              else if threw then Stuck() && pending == old(pending)
              else |pending| < |old(pending)| && sock.underway
    {
      sock.TakeWakeup(0);
      threw := OnSent();
    }

    /** Linux and macOS, the socket is writable; readiness is disarmed before any callback. The first
        such event ends the connection attempt, later ones are `on_sent`. */
    method HandleWritable(freed: nat, dialError: bool, writes: seq<seq<byte>>)
      requires Valid() && sock.backend.Posix?
      modifies this, sock, sock.opBuffer
      ensures Valid() && connected && sock.faulty == old(sock.faulty)
      ensures old(NotStalled()) && (old(connected) || old(pending) == []) ==> NotStalled()
      ensures !old(connected) && (writes == [] || dialError) ==> !sock.armed && pending == old(pending)
      ensures !old(connected) && !sock.faulty ==>
        (sock.armed <==> !dialError && |Flatten(writes)| > old(sock.room) + freed)
      ensures !old(connected) && !sock.faulty && old(pending) != [] ==>
        (NotStalled() <==> !dialError && |Flatten(writes)| > old(sock.room) + freed)
      ensures !old(connected) && !sock.faulty && !dialError && |Flatten(writes)| <= old(sock.room) + freed ==>
        sock.Accepted() == old(sock.Accepted()) + Flatten(writes) && pending == old(pending)
      ensures !old(connected) ==> written == old(written) + if dialError then [] else Flatten(writes)
      ensures ups == old(ups) + if old(connected) || dialError then [] else [Connected]
      ensures dialFailed == (if old(connected) then old(dialFailed) else dialError)
      ensures old(connected) ==> Line() == old(Line()) && written == old(written)
      ensures old(connected) && !sock.faulty ==>
        && pending == old(pending)[Min(|old(pending)|, old(sock.room) + freed)..]
        && (sock.armed <==> |old(pending)| > old(sock.room) + freed)
      ensures !sock.faulty ==>
        && sock.room == RoomLeft(old(sock.room) + freed, OutputOf(old(connected), |old(pending)|, dialError, writes))
        && steps == old(steps) + if old(connected) then FlushSteps(|old(pending)|, old(sock.room) + freed)
                                 else if dialError then [] else WriteSteps(old(sock.room) + freed, writes)
    {
      hide Announced, Recorded, Flatten, WriteSteps;
      sock.TakeWakeup(freed);
      assert ups + [] == ups && written + [] == written;
      if !connected {
        FirstWritable(dialError, writes);
      } else {
        var _ := OnSent();
      }
    }

    /** The first writability event is the end of the connection attempt. */
    method FirstWritable(dialError: bool, writes: seq<seq<byte>>)
      requires Valid() && sock.backend.Posix? && !connected && !sock.armed
      modifies this, sock, sock.opBuffer
      ensures Valid() && connected && sock.faulty == old(sock.faulty) && dialFailed == dialError
      ensures old(pending) == [] ==> NotStalled()
      ensures old(pending) <= pending
      ensures writes == [] || dialError ==> !sock.armed && pending == old(pending)
      ensures !sock.faulty ==> (sock.armed <==> !dialError && |Flatten(writes)| > old(sock.room))
      ensures !sock.faulty && !dialError && |Flatten(writes)| <= old(sock.room) ==>
        sock.Accepted() == old(sock.Accepted()) + Flatten(writes) && pending == old(pending)
      ensures written == old(written) + if dialError then [] else Flatten(writes)
      ensures ups == old(ups) + if dialError then [] else [Connected]
      ensures !sock.faulty ==>
        && sock.room == RoomLeft(old(sock.room), if dialError then 0 else |Flatten(writes)|)
        && steps == old(steps) + if dialError then [] else WriteSteps(old(sock.room), writes)
    {
      hide Recorded, Flatten, WriteSteps;
      assert ups + [] == ups && written + [] == written && steps + [] == steps;
      connected, dialFailed := true, dialError;
      if !dialError {
        AnnouncedMore(ups, connected, accepted, dialFailed, Connected);
        hide Announced;
        ups := ups + [Connected];
        WriteAll(writes);
      }
    }

    method HandleReadable(recv: Recv, writes: seq<seq<byte>>)
      requires Valid() && sock.backend.Posix? && connected
      requires recv.Arrived? ==> !dialFailed && 0 < |recv.data| <= RECV_CHUNK
      modifies this, sock, sock.opBuffer
      ensures Valid() && connected && sock.faulty == old(sock.faulty) && dialFailed == old(dialFailed)
      ensures old(NotStalled()) ==> NotStalled()
      ensures recv.Arrived? ==> ups == old(ups) + [Received(recv.data)]
      ensures recv.Eof? ==> ups == old(ups) + [Disconnected]
      ensures recv.NoInput? || recv.RecvFailed? ==> ups == old(ups)
      ensures written == old(written) + if recv.Arrived? then Flatten(writes) else []
      ensures !recv.Arrived? ==> Line() == old(Line()) && pending == old(pending) && sock.armed == old(sock.armed)
      ensures !recv.Arrived? ==> steps == old(steps)
      ensures recv.Arrived? && !sock.faulty ==> steps == old(steps) + WriteSteps(old(sock.room), writes)
    {
      hide Announced, Recorded, WriteSteps;
      assert written + [] == written;
      match recv {
        case Arrived(d) =>
          AnnouncedMore(ups, connected, accepted, dialFailed, Received(d));
          ups := ups + [Received(d)];
          WriteAll(writes);
        case Eof =>
          AnnouncedMore(ups, connected, accepted, dialFailed, Disconnected);
          ups := ups + [Disconnected];
        case _ =>
          assert ups + [] == ups;
      }
    }

    /** `socket_base_pimpl::handle_event` on Linux: writability first, then input. The kernel reports
        no input before the connection attempt has ended, and no data if it failed. */
    method HandleEvent(out: bool, freed: nat, dialError: bool, recv: Recv,
                       onReady: seq<seq<byte>>, onData: seq<seq<byte>>)
      requires Valid() && sock.backend.Posix?
      requires !connected && !recv.NoInput? ==> out
      requires recv.Arrived? ==> !dialFailed && (connected || !dialError) && 0 < |recv.data| <= RECV_CHUNK
      modifies this, sock, sock.opBuffer
      ensures Valid() && sock.faulty == old(sock.faulty)
      ensures connected && !accepted && !dialFailed ==> ups != []
      ensures connected == (old(connected) || out) && (!connected ==> pending == old(pending))
      ensures old(NotStalled()) && (old(connected) || old(pending) == []) ==> NotStalled()
      ensures ups == old(ups) + (if out && !old(connected) && !dialError then [Connected] else []) + Heard(recv)
      ensures recv.Arrived? ==> ups != [] && ups[|ups| - 1] == Received(recv.data)
      ensures recv.Eof? ==> ups != [] && ups[|ups| - 1] == Disconnected
      ensures old(connected) && out && !recv.Arrived? && !sock.faulty ==>
        && pending == old(pending)[Min(|old(pending)|, old(sock.room) + freed)..] && Line() == old(Line())
        && (sock.armed <==> |old(pending)| > old(sock.room) + freed)
      ensures !sock.faulty ==>
        var room := old(sock.room) + if out then freed else 0;
        var used := if out then OutputOf(old(connected), |old(pending)|, dialError, onReady) else 0;
        steps == old(steps)
          + (if !out then [] else if old(connected) then FlushSteps(|old(pending)|, room)
             else if dialError then [] else WriteSteps(room, onReady))
          + if recv.Arrived? then WriteSteps(RoomLeft(room, used), onData) else []
      ensures dialFailed == if out && !old(connected) then dialError else old(dialFailed)
      ensures written == old(written) + (if out && !old(connected) && !dialError then Flatten(onReady) else [])
                                      + if recv.Arrived? then Flatten(onData) else []
    {
      hide Announced, Recorded, WriteSteps, Flatten;
      assert ups + [] == ups && written + [] == written && steps + [] == steps;
      if out {
        HandleWritable(freed, dialError, onReady);
      }
      assert ups + [] == ups && written + [] == written && steps + [] == steps;
      if !recv.NoInput? {
        HandleReadable(recv, onData);
      }
    }

    /** On a connected POSIX socket without errors, pending data is flushed by at most as many
        writability events as there are bytes, each of which is due when the last is over. */
    method FlushPending() returns (events: nat)
      requires Valid() && NotStalled() && sock.backend.Posix? && connected && !sock.faulty
      modifies this, sock, sock.opBuffer
      ensures Valid() && NotStalled() && pending == []
      ensures sock.Accepted() == old(Line()) && events <= old(|pending|)
    {
      events := 0;
      while pending != []
        invariant Valid() && NotStalled() && connected && !sock.faulty
        invariant Line() == old(Line()) && events + |pending| <= old(|pending|)
        decreases |pending|
      {
        assert sock.WakeupDue();
        var freed: int := *;
        ghost var before := pending;
        HandleEvent(true, if freed > 0 then freed else 1, false, NoInput, [], []);
        assert |pending| < |before|;
        events := events + 1;
      }
      assert sock.Accepted() + [] == sock.Accepted();
    }
  }

  /** A write of the application; room that falls free in the kernel's buffer, at any time; or what the
      kernel reports of a POSIX socket and what the callbacks write in answer. */
  datatype Event =
    | AppWrites(buf: seq<byte>)
    | Freed(room: nat)
    | Reported(out: bool, freed: nat, dialError: bool, recv: Recv, onReady: seq<seq<byte>>, onData: seq<seq<byte>>)

  /** What the kernel may report: no input before the connection attempt has ended, and no data of a
      connection that failed. The application writes once the socket is connected. */
  predicate Allowed(connected: bool, dialFailed: bool, event: Event) {
    match event
    case AppWrites(_) => connected
    case Freed(_) => true
    case Reported(out, _, dialError, recv, _, _) =>
      && (!connected && !recv.NoInput? ==> out)
      && (recv.Arrived? ==> !dialFailed && (connected || !dialError) && 0 < |recv.data| <= RECV_CHUNK)
  }

  /** What a run knows of the connection. */
  datatype Link = Link(connected: bool, dialFailed: bool)

  function Next(l: Link, event: Event): Link {
    match event
    case Reported(out, _, dialError, _, _, _) => if out && !l.connected then Link(true, dialError) else l
    case _ => l
  }

  /** What the application is told of an event. */
  function Told(l: Link, event: Event): seq<UpCall> {
    match event
    case Reported(out, _, dialError, recv, _, _) =>
      (if out && !l.connected && !dialError then [Connected] else []) + Heard(recv)
    case _ => []
  }

  /** What it writes, by itself or in answer. */
  function Sends(l: Link, event: Event): seq<byte> {
    match event
    case AppWrites(buf) => buf
    case Freed(_) => []
    case Reported(out, _, dialError, recv, onReady, onData) =>
      (if out && !l.connected && !dialError then Flatten(onReady) else [])
      + if recv.Arrived? then Flatten(onData) else []
  }

  function After(l: Link, events: seq<Event>): Link {
    if events == [] then l else Next(After(l, events[..|events| - 1]), events[|events| - 1])
  }

  function AllTold(l: Link, events: seq<Event>): seq<UpCall> {
    if events == [] then []
    else
      var init := events[..|events| - 1];
      AllTold(l, init) + Told(After(l, init), events[|events| - 1])
  }

  function AllWritten(l: Link, events: seq<Event>): seq<byte> {
    if events == [] then []
    else
      var init := events[..|events| - 1];
      AllWritten(l, init) + Sends(After(l, init), events[|events| - 1])
  }

  /** All data handed up, and how often the end of the stream was. */
  function Data(ups: seq<UpCall>): seq<byte> {
    if ups == [] then []
    else Data(ups[..|ups| - 1]) + if ups[|ups| - 1].Received? then ups[|ups| - 1].data else []
  }

  function Ends(ups: seq<UpCall>): nat {
    if ups == [] then 0
    else Ends(ups[..|ups| - 1]) + if ups[|ups| - 1].Disconnected? then 1 else 0
  }

  /** All data the kernel reported, and how often the end of the stream. */
  function Arrivals(events: seq<Event>): seq<byte> {
    if events == [] then []
    else
      var e := events[|events| - 1];
      Arrivals(events[..|events| - 1]) + if e.Reported? && e.recv.Arrived? then e.recv.data else []
  }

  function Eofs(events: seq<Event>): nat {
    if events == [] then 0
    else
      var e := events[|events| - 1];
      Eofs(events[..|events| - 1]) + if e.Reported? && e.recv.Eof? then 1 else 0
  }

  lemma {:induction false} DataAppend(ups: seq<UpCall>, more: seq<UpCall>)
    ensures Data(ups + more) == Data(ups) + Data(more) && Ends(ups + more) == Ends(ups) + Ends(more)
    decreases |more|
  {
    if more == [] {
      assert ups + more == ups && Data(ups) + [] == Data(ups);
    } else {
      var init := more[..|more| - 1];
      assert (ups + more)[..|ups + more| - 1] == ups + init;
      DataAppend(ups, init);
    }
  }

  lemma OneUp(u: UpCall)
    ensures Data([]) == [] && Ends([]) == 0
    ensures Data([u]) == (if u.Received? then u.data else []) && Ends([u]) == if u.Disconnected? then 1 else 0
  {
    assert [u][..0] == [];
  }

  lemma ToldData(l: Link, event: Event)
    ensures Data(Told(l, event)) == if event.Reported? && event.recv.Arrived? then event.recv.data else []
    ensures Ends(Told(l, event)) == if event.Reported? && event.recv.Eof? then 1 else 0
  {
    hide Data, Ends;
    OneUp(Connected);
    if event.Reported? {
      var heard := Heard(event.recv);
      if heard != [] {
        OneUp(heard[0]);
        assert heard == [heard[0]];
      }
      DataAppend([Connected], heard);
      DataAppend([], heard);
    }
  }

  /** Over every run the data handed up is the data the kernel reported, in order, and the end of the stream is
      told as often as it was reported. */
  lemma {:induction false} AllArrives(l: Link, events: seq<Event>)
    ensures Data(AllTold(l, events)) == Arrivals(events) && Ends(AllTold(l, events)) == Eofs(events)
    decreases |events|
  {
    if events != [] {
      var init := events[..|events| - 1];
      AllArrives(l, init);
      hide Told;
      DataAppend(AllTold(l, init), Told(After(l, init), events[|events| - 1]));
      ToldData(After(l, init), events[|events| - 1]);
    }
  }

  predicate AllAllowed(l: Link, events: seq<Event>) {
    forall i :: 0 <= i < |events| ==> var m := After(l, events[..i]); Allowed(m.connected, m.dialFailed, events[i])
  }

  lemma OneMore(l: Link, events: seq<Event>, i: nat)
    requires i < |events| && AllAllowed(l, events)
    ensures var m := After(l, events[..i]);
            && Allowed(m.connected, m.dialFailed, events[i])
            && After(l, events[..i + 1]) == Next(m, events[i])
            && AllTold(l, events[..i + 1]) == AllTold(l, events[..i]) + Told(m, events[i])
            && AllWritten(l, events[..i + 1]) == AllWritten(l, events[..i]) + Sends(m, events[i])
  {
    assert events[..i + 1][..i] == events[..i];
  }

  /** Between events, on a socket without errors. */
  ghost predicate Ready(s: SocketStream)
    reads s, s.sock, s.sock.opBuffer
  {
    && s.Valid() && s.NotStalled() && s.sock.backend.Posix? && !s.sock.faulty
    && (s.connected || s.pending == [])
  }

  method HandleOne(s: SocketStream, event: Event)
    requires Ready(s) && Allowed(s.connected, s.dialFailed, event)
    modifies s, s.sock, s.sock.opBuffer
    ensures Ready(s) && Link(s.connected, s.dialFailed) == Next(old(Link(s.connected, s.dialFailed)), event)
    ensures s.ups == old(s.ups) + Told(old(Link(s.connected, s.dialFailed)), event)
    ensures s.written == old(s.written) + Sends(old(Link(s.connected, s.dialFailed)), event)
  {
    hide Announced, Flatten;
    ghost var l := Link(s.connected, s.dialFailed);
    assert s.ups + [] == s.ups && s.written + [] == s.written;
    match event {
      case AppWrites(buf) =>
        var _, _, _ := s.Write(buf);
      case Freed(room) =>
        s.sock.RoomFreed(room);
      case Reported(out, freed, dialError, recv, onReady, onData) =>
        Regroup(s.ups, if out && !l.connected && !dialError then [Connected] else [], Heard(recv));
        Regroup(s.written, if out && !l.connected && !dialError then Flatten(onReady) else [],
                if recv.Arrived? then Flatten(onData) else []);
        s.HandleEvent(out, freed, dialError, recv, onReady, onData);
    }
  }

  /** Over every run of a socket without errors, dialled or accepted: data kept back always has write
      readiness armed; the application is told of exactly what happened, of a dialled connection once and
      before any data; and what is sent and kept back is what the queue makes of everything it wrote. */
  method Run(s: SocketStream, events: seq<Event>)
    requires s.Valid() && s.NotStalled() && s.sock.backend.Posix? && !s.sock.faulty
    requires s.connected == s.accepted && s.pending == [] && !s.dialFailed && s.ups == []
    requires AllAllowed(Link(s.connected, false), events)
    modifies s, s.sock, s.sock.opBuffer
    ensures s.Valid() && s.NotStalled() && !s.sock.faulty
    ensures s.connected && s.pending != [] ==> s.sock.armed
    ensures s.connected && !s.accepted && !s.dialFailed ==> s.ups != []
    ensures Link(s.connected, s.dialFailed) == After(Link(old(s.connected), false), events)
    ensures s.ups == AllTold(Link(old(s.connected), false), events)
    ensures Data(s.ups) == Arrivals(events) && Ends(s.ups) == Eofs(events)
    ensures s.written == old(s.written) + AllWritten(Link(old(s.connected), false), events)
    ensures LegalRun(Flow([], []), s.steps) && Written(s.steps) == s.written
    ensures Flow(s.sock.Accepted(), s.pending) == PendingQueue.Run(Flow([], []), s.steps)
    ensures Distinct(s.written) ==> (s.Line() == s.written <==> s.inOrder)
  {
    ghost var l := Link(s.connected, false);
    assert events[..0] == [] && s.written + [] == s.written && After(l, []) == l;
    assert AllTold(l, []) == [] && AllWritten(l, []) == [];
    hide After, AllTold, AllWritten, AllAllowed, Told, Sends, Next, Allowed, Ready;
    for i := 0 to |events|
      invariant Ready(s) && Link(s.connected, s.dialFailed) == After(l, events[..i])
      invariant s.ups == AllTold(l, events[..i]) && s.written == old(s.written) + AllWritten(l, events[..i])
    {
      OneMore(l, events, i);
      ghost var m := After(l, events[..i]);
      HandleOne(s, events[i]);
      Regroup(old(s.written), AllWritten(l, events[..i]), Sends(m, events[i]));
    }
    assert events[..|events|] == events;
    AllArrives(l, events);
    ReadyFacts(s);
  }

  lemma ReadyFacts(s: SocketStream)
    requires Ready(s)
    ensures s.Valid() && s.NotStalled() && !s.sock.faulty
    ensures s.connected && s.pending != [] ==> s.sock.armed
    ensures s.connected && !s.accepted && !s.dialFailed ==> s.ups != []
    ensures LegalRun(Flow([], []), s.steps) && Written(s.steps) == s.written
    ensures Flow(s.sock.Accepted(), s.pending) == PendingQueue.Run(Flow([], []), s.steps)
    ensures Distinct(s.written) ==> (s.Line() == s.written <==> s.inOrder)
  {
    s.LineFacts();
  }

  /** Such a run need not be in order: room that falls free between two writes lets the second overtake
      the first. */
  method Overtake(a: byte, b: byte) returns (s: SocketStream)
    ensures s.Valid() && s.NotStalled() && s.connected && !s.sock.faulty && s.sock.backend == Posix(LINUX_CHUNK)
    ensures s.written == [a, b] && s.sock.wire == [b] && s.pending == [a] && !s.inOrder
  {
    hide Announced, Recorded;
    assert Apply(Flow([], []), Wrote([a], 0)) == Flow([], [a]);
    var sock := new AsyncSocket(Posix(LINUX_CHUNK), 0, false);
    s := new SocketStream(sock, true);
    var _, _, _ := s.Write([a]);
    sock.RoomFreed(1);
    var _, _, _ := s.Write([b]);
    assert sock.wire + [] == sock.wire;
  }

  /** And data kept back before the connection stalls, although `on_connected` writes: what it writes is
      taken whole. */
  method StallBeforeConnecting(a: byte, b: byte) returns (s: SocketStream)
    ensures s.Valid() && s.connected && !s.sock.faulty && s.sock.backend == Posix(LINUX_CHUNK)
    ensures s.written == [a, b] && s.sock.wire == [b] && s.pending == [a] && !s.sock.armed && !s.NotStalled()
  {
    hide Announced, Recorded;
    assert Apply(Flow([], []), Wrote([a], 0)) == Flow([], [a]) && Flatten([[b]]) == [b];
    var sock := new AsyncSocket(Posix(LINUX_CHUNK), 0, false);
    s := new SocketStream(sock, false);
    var _, _, _ := s.Write([a]);
    s.HandleWritable(1, false, [[b]]);
    assert sock.wire + [] == sock.wire;
  }
}
