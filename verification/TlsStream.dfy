/** `ssl::stream`: a five-status machine that moves bytes between the layer above and the layer
    below through a TLS session and its BIO pair. */
module TlsStream {
  import opened Bytes
  import opened TlsRecord
  import opened TlsEngine
  import opened TlsSession
  import opened TlsSteps

  class TlsStream {
    const side: Side
    var status: Status
    var eng: Engine
    /** What the layer above does in its next up-calls; once used up it does nothing. */
    var script: seq<seq<AppCall>>
    /** Buffers passed to `next_.write`, oldest first. */
    var toNext: seq<seq<byte>>
    ghost var log: Log

    ghost function Now(): Snapshot
      reads this
    {
      Snapshot(status, eng, script, toNext, log)
    }

    /** What holds when no call is in progress. */
    ghost predicate Idle()
      reads this
    {
      Inv(Now()) && Clean(eng) && Quiet(eng)
    }

    constructor (side: Side, cap: nat, maxFrag: nat, rd: Cipher, wr: Cipher, script: seq<seq<AppCall>>)
      requires 0 < cap && 0 < maxFrag <= MAX_PLAINTEXT && Lawful(rd) && Lawful(wr)
      ensures Idle() && log == Log([], 0, 0, [], [], [], [], [], Bad, false, [], false, false, 0) && toNext == []
      ensures this.side == side && this.script == script && status == Closed
      ensures eng == Engine(rd, wr, maxFrag, cap, Handshaking, [], [], [], false, [], 0, 0, [], 0, false, false)
    {
      this.side, this.script, this.status := side, script, Closed;
      eng := Engine(rd, wr, maxFrag, cap, Handshaking, [], [], [], false, [], 0, 0, [], 0, false, false);
      toNext, log := [], Log([], 0, 0, [], [], [], [], [], Bad, false, [], false, false, 0);
    }

    /** `while (n = BIO_read(...), n > 0) next_.write(...)` */
    method DrainOutput()
      requires Body(Now())
      modifies this`eng, this`toNext
      ensures eng == old(eng).(outQ := [])
      ensures Body(Now()) && Inside(old(Now()), Now()) && Calm(old(Now()), Now())
      ensures old(Inv(Now())) ==> Inv(Now())
      ensures old(eng.outQ) == [] ==> toNext == old(toNext)
    {
      hide Inv, Body, Inside, Calm, Draining;
      ghost var x0 := Now();
      DrainBegins(x0);
      while true
        invariant Draining(x0, Now())
        invariant x0.e.outQ == [] ==> eng.outQ == [] && toNext == x0.toNext
        decreases |eng.outQ|
      {
        var (b, e) := BioRead(eng, SCRATCH);
        if b == [] {
          break;
        }
        DrainRound(x0, Now());
        eng := e;
        toNext := toNext + [b];
      }
      DrainEnds(x0, Now());
    }

    /** `ssl::stream::write`: the result is the full length in every case. With a record torn by an
        earlier write, the library may take the call for a repetition of that one; `first` is then its
        answer to the first SSL_write. */
    method Write(buf: seq<byte>) returns (n: nat, ghost first: (int, Engine))
      requires Inv(Now()) && Clean(eng)
      modifies this`eng, this`toNext, this`log
      ensures Inv(Now()) && Clean(eng) && Inside(old(Now()), Now()) && Calm(old(Now()), Now())
      ensures n == |buf| && (old(Quiet(eng)) ==> Quiet(eng))
      ensures status != Connected ==> Now() == old(Now())
      ensures status == Connected ==> eng.outQ == [] && log.emitted == Flatten(toNext)
      ensures status == Connected && !old(Retrying(eng)) ==>
        var r := SendAll(old(eng).(outQ := []), buf);
        && eng == r.e && eng.outQ == [] && log.emitted == Flatten(toNext) && log.spoilt == old(log.spoilt)
        && log.emitted == old(log.emitted) + r.out && log.sealed == old(log.sealed) + r.frags
      ensures status == Connected && old(Retrying(eng)) ==>
        && old(log.sealed) <= log.sealed
        && Resealed(eng.maxFrag, old(log.cut), old(eng.tornLen), buf, log.sealed[|old(log.sealed)|..])
      ensures old(!Retrying(eng) && Fits(eng, |buf|)) ==> !Retrying(eng) && log.spoilt == old(log.spoilt)
      ensures status == Connected && old(Retrying(eng)) ==>
        if buf == [] then eng == old(eng) && log.sealed == old(log.sealed) else Resumed(old(Now()), buf, first, Now())
      ensures Wrote(old(Now()), Now(), buf) && log.ups == old(log.ups)
    {
      hide Inv, Inside, Calm, Quiet, SendAll, Resealed, Resumed, Wrote, Sent, WroteTorn, Resent, EngineOk, Flatten, Fits;
      n, first := |buf|, (0, eng);
      if status != Connected {
        WroteNothing(Now(), buf);
      } else {
        ghost var x0 := Now();
        InvFacts(x0);
        first := WriteConnected(buf);
        if Retrying(x0.e) { TornFacts(x0, buf, first, Now()); }
        WriteFacts(x0, buf, Now());
        WriteSays(x0, buf, Now());
      }
    }

    method WriteConnected(buf: seq<byte>) returns (ghost first: (int, Engine))
      requires Inv(Now()) && Clean(eng) && status == Connected && 0 < eng.maxFrag && |eng.outQ| <= eng.cap
      modifies this`eng, this`toNext, this`log
      ensures if old(Retrying(eng)) then WroteTorn(old(Now()), buf, first, Now()) else Sent(old(Now()), buf, Now())
      ensures log.ups == old(log.ups)
    {
      hide Inv, Body, EngineOk, Inside, Calm, Sent, SendingRest, Sealing, SendAll, Seal, WriteStep, RetryStep, WriteLog,
           GoesOn, WroteTorn, Resent;
      ghost var x0 := Now();
      first := (0, eng);
      ghost var base, rest := x0, buf;   // where the last torn record was out, and what `buf` still held then
      var total := 0;
      InvFacts(x0);
      SendBegins(x0, buf);
      assert buf[total..] == buf;
      ghost var x, p, y := Now(), buf, Now();
      var k := 1;
      while total < |buf|
        invariant 0 <= total <= |buf| && 0 < base.e.maxFrag
        invariant SendingRest(base, rest, Now(), buf[total..])
        invariant (total == 0 ==> Now() == x0) && log.ups == x0.log.ups
        invariant total > 0 ==> !Retrying(eng)
        invariant if Retrying(x0.e) && total > 0 then GoesOn(x0, buf, first, base, rest)
                  else base == x0 && rest == buf && first == (0, x0.e)
      {
        x, p := Now(), buf[total..];
        SendingFacts(base, rest, x, p);
        var n, e := SslWrite(eng, buf[total..]);
        WriteTellsNobody(eng, log, p, e);
        log := WriteLog(eng, log, p, e);
        k, eng := n, e;
        y := Now();
        SealKeeps(x, y, p, n);
        WriteCases(x.e, x.log, p, n, e);
        if k <= 0 {
          break;
        }
        total := total + k;
        InvFacts(y);
        DrainOutput();
        if Retrying(x.e) {
          FirstOfTorn(x, y, Now(), buf, k);
          first := (k, y.e);
          base, rest := Now(), buf[total..];
          SendBegins(base, rest);
        } else {
          SendContinues(base, rest, x, p, y, Now());
        }
        assert p[k..] == buf[total..];
      }
      if total == |buf| {
        x := Now();
        SendingFacts(base, rest, x, []);
      } else {
        InvFacts(y);
      }
      DrainOutput();
      if total == |buf| {
        SendEnds(base, rest, x, Now());
      } else if Retrying(x.e) {
        FirstOfTorn(x, y, Now(), buf, k);
        first := (k, y.e);
      } else {
        SendContinues(base, rest, x, p, y, Now());
      }
      if Retrying(x0.e) && total > 0 {
        TornSent(x0, buf, first, base, rest, Now());
      } else if buf == [] {
        SentNothing(x0, Now());
      }
    }

    // ----- up-calls; the layer above may write and disconnect from inside them -----

    method RunScript()
      requires Inv(Now()) && Clean(eng)
      modifies this
      ensures Inv(Now()) && Clean(eng) && Inside(old(Now()), Now()) && Calm(old(Now()), Now())
      ensures Docile(old(Now()), Now()) && Obeyed(old(Now()), Now(), 1) && Conserves(old(Now()), Now())
      ensures old(status) != Connected ==> status == old(status)
      decreases |script|, 1
    {
      hide Inv, Inside, Calm, Clean, Docile, Tame, Obeyed, Conserves;
      ghost var x := Now();
      if script == [] {
        DocileReflexive(x);
        InsideReflexive(x);
        ObeyedNothing(x);
        ConservesSame(x, x);
      } else {
        var calls := script[0];
        script := script[1..];
        ghost var y := Now();
        ScriptKeeps(x, y);
        RunCalls(calls);
        assert x == y.(script := [calls] + y.script);
        Unasked(y, Now(), [calls] + y.script);
        InsideTransitive(x, y, Now());
      }
    }

    method RunCalls(calls: seq<AppCall>)
      requires Inv(Now()) && Clean(eng)
      modifies this
      ensures Inv(Now()) && Clean(eng) && Inside(old(Now()), Now()) && Calm(old(Now()), Now())
      ensures Docile(old(Now()).(script := [calls] + old(script)), Now())
      ensures Obeyed(old(Now()).(script := [calls] + old(script)), Now(), 1) && Conserves(old(Now()), Now())
      ensures old(status) != Connected ==> status == old(status)
      decreases |script|, 5
    {
      hide Inv, Inside, Calm, Clean, Docile, Called, Obeyed, Wrote, ShutSays, Conserves;
      ghost var x := Now();
      ghost var w := x.(script := [calls] + x.script);
      CalledBegins(x, calls);
      for i := 0 to |calls|
        invariant Inv(Now()) && Clean(eng) && |script| <= |x.script| && Called(w, x, Now(), calls, i)
        invariant x.status != Connected ==> status == x.status
      {
        ghost var y := Now();
        match calls[i] {
          case CallWrite(buf) => var _, _ := Write(buf);
          case CallDisconnect => Disconnect();
        }
        CallMade(w, x, y, Now(), calls, i);
      }
      CalledEnds(w, x, Now(), calls);
    }

    /** `ssl::stream::disconnect` */
    method Disconnect()
      requires Inv(Now()) && Clean(eng)
      modifies this
      ensures Inv(Now()) && Clean(eng) && Inside(old(Now()), Now()) && Calm(old(Now()), Now())
      ensures old(status) != Connected ==> Now() == old(Now())
      ensures old(status) == Connected ==> status != Connected && Quiet(eng)
      ensures old(status) == Connected ==> ShutSays(old(Now()).(status := Closing), Now())
      decreases |script|, 4
    {
      hide Inv, Inside, Calm, Clean, Quiet, ShutSays;
      ghost var x := Now();
      InsideReflexive(x);
      if status == Connected {
        status := Closing;
        ghost var y := Now();
        ClosingKeeps(x, y);
        InvFacts(x);
        FeedNothing(eng, log);
        var threw := DoShutdown([]);
        InsideTransitive(x, y, Now());
        SentCalm(x, Now());
      }
    }

    /** `while (n = SSL_read(...), n > 0) prior->on_received(...)` */
    method DeliverReads()
      requires Inv(Now()) && Clean(eng) && (eng.phase == Handshaking ==> eng.inQ == [])
      modifies this
      ensures Inv(Now()) && Clean(eng) && Quiet(eng) && Inside(old(Now()), Now())
      ensures Docile(old(Now()), Now())
      ensures status == old(status) || Gone(eng)
      ensures old(!Alive(eng)) ==> Now() == old(Now())
      ensures old(NothingToRead(eng)) ==> Now() == old(Now()).(e := Soaked(old(eng)))
      ensures Hushed(old(Now()), Now()) && Obeyed(old(Now()), Now(), 0) && Conserves(old(Now()), Now())
      ensures old(status) != Connected ==> status == old(status)
      decreases |script|, 2
    {
      hide Inv, Inside, Calm, Quiet, EngineOk, ReadStep, Body, Docile, Tame, Gone, Alive, Clean, Later, Hushed,
           NothingToRead, Soaked, Delivering, Obeyed, Conserves;
      ghost var x0 := Now();
      DeliverBegins(x0);
      while true
        invariant Delivering(x0, Now())
        decreases |eng.raw| + |eng.inQ|
      {
        ghost var x := Now();
        DeliverFacts(x0, x);
        var n, data, e, alert := SslRead(eng);
        eng := e;
        if n <= 0 {
          log := SealedPart(log, alert);
          DeliverEnds(x0, x, Now(), n, data, alert);
          break;
        }
        log := log.(ups := log.ups + [UpReceived(data)]);
        ghost var y := Now();
        DataKeeps(x, y, n, data, alert);
        RunScript();
        DeliverMore(x0, x, y, Now(), n, data, alert);
      }
    }

    /** `ssl::stream::do_shutdown`; `threw` stands for the exception of an invalid state. */
    method DoShutdown(buf: seq<byte>) returns (threw: bool)
      requires Inv(Now()) && Clean(eng)
      requires status == Closing ==> log.ditched || (buf == [] && (eng.sent ==> eng.got))
      modifies this
      ensures threw <==> old(status) != Closing
      ensures !threw ==>
        && Inv(Now()) && Clean(eng) && Quiet(eng)
        && Later(old(Now()), Now()) && status != Connected
        && (buf == [] ==> Inside(old(Now()), Now()))
        && (old(eng.phase) == Ready ==> eng.sent)
        && log.arrived == old(log.arrived) && log.lost == old(log.lost) && log.established == old(log.established)
      ensures !threw ==> ShutSays(old(Now()).(e := BioWrite(old(eng), buf).1), Now())
      decreases |script|, 3, 1
    {
      hide Inv, Inside, Calm, Clean, Quiet, EngineOk, Body, Later, ShutdownStep, BioWrite, ShutdownLog, ShutPending,
           Gone, Record, ShutSays, Wound, CloseFits, Fits, Alive, Conserves, Protocol;
      ghost var x0 := Now();
      InvFacts(x0);
      LaterReflexive(x0);
      FeedNothing(eng, log);
      if |buf| > 0 {
        var r := BioWrite(eng, buf);
        eng := r.1;
        if status == Closing {
          FeedDitched(x0, Now(), buf);
        }
      }
      if status != Closing {
        return true;
      }
      threw := false;
      ghost var x := Now();
      InvFacts(x);
      var r, e := SslShutdown(eng);
      log := ShutdownLog(eng, log, e);
      eng := e;
      if r == 1 {
        status := Closed;
      }
      ghost var y := Now();
      ShutdownDone(x0, x, y, r);
      FinishShutdown();
      InsideTransitive(x, y, Now());
      InsideFacts(x, Now());
      InsideFacts(y, Now());
      LaterTransitive(x0, y, Now());
      ShutConcludes(x, y, Now(), r);
    }

    /** From the drain loop of `do_shutdown` on. */
    method FinishShutdown()
      requires ShutPending(Now())
      modifies this
      ensures Inv(Now()) && Clean(eng) && Quiet(eng) && Inside(old(Now()), Now())
      ensures Wound(old(Now()), Now())
      decreases |script|, 3, 0
    {
      hide Inv, Inside, Calm, Quiet, EngineOk, Body, SessionAfter, Entries, Docile, Gone, Alive, Hushed,
           NothingToRead, Soaked, Obeyed, Winding, Wound, Conserves;
      ghost var y := Now();
      DrainOutput();
      ghost var z := Now();
      WindingDrained(y, z);
      if status == Closed {
        log := log.(ups := log.ups + [UpDisconnected]);
        DisconnectedUp(z);
        ghost var u := Now();
        RunScript();
        WindingTold(y, z, u, Now());
      }
      ghost var v := Now();
      InvFacts(v);
      WindingFacts(y, v);
      DeliverReads();
      WindingEnds(y, v, Now());
    }

    /** `ssl::stream::do_connect`; `threw` stands for the exception of an invalid state. */
    method DoConnect(buf: seq<byte>) returns (threw: bool)
      requires Idle()
      modifies this
      ensures threw <==> InSession(old(status))
      ensures threw && buf == [] ==> Now() == old(Now())
      ensures !threw ==> Idle() && Later(old(Now()), Now()) && Fed(old(Now()), Now(), buf) && Unharmed(old(Now()), Now())
      ensures !threw ==>
        && log.ditched == old(log.ditched) && Tried(old(Now()), Now()) && Greeted(old(Now()), Now())
    {
      hide Inv, Inside, Calm, Clean, Quiet, EngineOk, Body, Later, Fed, HandshakeStep, BioWrite, FeedLog,
           HandshakeLog, ConnectPending, Docile, Unharmed, Tame, Greeting, Greeted, Tried;
      ghost var x0 := Now();
      InvFacts(x0);
      FeedNothing(eng, log);
      if |buf| > 0 {
        eng := BioWrite(eng, buf).1;
      }
      if InSession(status) {
        return true;
      }
      threw := false;
      log := FeedLog(x0.e, log, buf);
      ghost var x := Now();
      ConnectFeeds(x0, x, buf);
      InvFacts(x);
      var r, e, hs, tickets := SslHandshake(eng);
      log := HandshakeLog(eng, log, e, hs, tickets);
      eng := e;
      log := Attempted(log, r);
      status := StatusAfterHandshake(r);
      ghost var y := Now();
      ConnectStep(x0, x, y, r, hs, tickets, buf);
      PendingBody(y);
      FinishConnect();
      GreetingInside(y, Now());
      ConnectGreets(x0, x, y, Now(), r, hs, tickets, buf);
      ConnectFed(x0, x, y, Now(), r, hs, tickets, buf);
      InsideFacts(y, Now());
      DocileUnharmed(y, Now());
      UnharmedTransitive(x0, y, Now());
      LaterTransitive(x0, y, Now());
    }

    /** From the drain loop of `do_connect` on. */
    method FinishConnect()
      requires ConnectPending(Now())
      modifies this
      ensures Idle() && Greeting(old(Now()), Now())
    {
      hide Inv, Inside, Calm, Quiet, EngineOk, Body, SessionAfter, Entries, Docile, Tame, Obeyed, Greeting, Hushed,
           NothingToRead, Soaked, Gone, Alive;
      ghost var y := Now();
      DrainOutput();
      ghost var z := Now();
      GreetingDrained(y, z);
      if status == Connected {
        log := log.(ups := log.ups + [UpConnected]);
        ConnectedUp(z);
        ghost var u := Now();
        InvFacts(u);
        RunScript();
        GreetingTold(y, z, u, Now());
      } else {
        StillDown(z);
      }
      ghost var v := Now();
      InvFacts(v);
      GreetingFacts(y, v);
      DeliverReads();
      GreetingEnds(y, v, Now());
    }

    /** `ssl::stream::on_connected`: the layer below is connected. */
    method OnConnected() returns (threw: bool)
      requires Idle()
      modifies this
      ensures Idle() && Later(old(Now()), Now()) && Fed(old(Now()), Now(), []) && Unharmed(old(Now()), Now())
      ensures threw <==> side == Client && InSession(old(status))
      ensures threw || side == Server ==> Now() == old(Now())
      ensures log.lost == old(log.lost) && log.ditched == old(log.ditched)
      ensures side == Client && !threw ==> Tried(old(Now()), Now()) && Greeted(old(Now()), Now())
    {
      LaterReflexive(Now());
      UnharmedReflexive(Now());
      FedNothing(Now());
      threw := false;
      if side == Client {
        threw := DoConnect([]);
      }
    }

    /** `ssl::stream::on_disconnected`: nothing is done. */
    method OnDisconnected()
      ensures Now() == old(Now())
    {
    }

    /** `ssl::stream::on_received`: input from the layer below. */
    method OnReceived(buf: seq<byte>) returns (threw: bool)
      requires Idle()
      modifies this
      ensures !threw && Idle() && Later(old(Now()), Now()) && Fed(old(Now()), Now(), buf) && Unharmed(old(Now()), Now())
      ensures old(status) == Connected ==> eng.outQ == [] && log.emitted == Flatten(toNext)
      ensures old(status) == PeerClosing ==> eng == old(eng) && toNext == old(toNext) && log.ups == old(log.ups)
      ensures !old(log.ditched) && old(status) != Closing ==> !log.ditched
      ensures !InSession(old(status)) ==> Tried(old(Now()), Now()) && Greeted(old(Now()), Now())
      ensures old(status) == Connected && status == Connected && eng.got ==> eng.sent
      ensures old(status) == Connected ==> Answered(old(Now()), Now()) && Replied(old(Now()), Now())
      ensures old(status) == PeerClosing ==> Now() == old(Now()).(log := old(log).(arrived := log.arrived))
      ensures old(status) == Closing ==> ShutSays(WithInput(old(Now()), buf), Now())
    {
      hide Inv, Inside, Calm, Quiet, EngineOk, Body, Later, Clean, Fed, Tame, ShutSays, Answered, Replied, Greeted;
      ghost var x0 := Now();
      InvFacts(x0);
      LaterReflexive(x0);
      threw := false;
      if status == Closed || status == Connecting {
        threw := DoConnect(buf);
        return;
      }
      if status == Closing {
        log := log.(ditched := true, arrived := log.arrived + buf);
        ghost var x := Now();
        DitchedKeeps(x0, x);
        threw := DoShutdown(buf);
        LaterTransitive(x0, x, Now());
        ClosingFed(x0, Now(), buf);
        return;
      }
      if status == Connected {
        PumpInput(buf);
      } else {
        log := log.(arrived := log.arrived + buf);
        IgnoredKeeps(x0, Now(), buf);
      }
    }

    /** `on_received` while connected: the input BIO is filled, the session read and its output
        drained, over and over. `tot_n` is compared as an unsigned number, so the loop also ends
        when it turns negative. */
    method PumpInput(buf: seq<byte>)
      requires Idle() && status == Connected
      modifies this
      ensures Idle() && Later(old(Now()), Now()) && Fed(old(Now()), Now(), buf)
      ensures eng.outQ == [] && log.emitted == Flatten(toNext) && log.ditched == old(log.ditched)
      ensures Unharmed(old(Now()), Now()) && Answered(old(Now()), Now()) && Replied(old(Now()), Now())
      ensures status == Connected && eng.got ==> eng.sent
    {
      hide Inv, Inside, Calm, Quiet, EngineOk, Body, Later, Clean, Fed, Pumping, Pumped, Docile, Unharmed, Tame, Gone,
           Answered, Hushed, Obeyed, Replied;
      ghost var x0 := Now();
      var tot := 0;
      ghost var fed := 0;
      InvFacts(x0);
      PumpBegins(x0, buf);
      while 0 <= tot < |buf|
        invariant Pumping(x0, Now(), buf, tot, fed)
        decreases if Alive(eng) then 1 else 0,
                  if Alive(eng) then |buf| - tot else eng.cap - |eng.inQ|,
                  tot + 1
      {
        ghost var x := Now();
        PumpFacts(x0, x, buf, tot, fed);
        tot, fed := PumpOnce(x0, buf, tot, fed);
        PumpFacts(x0, Now(), buf, tot, fed);
      }
      ghost var x := Now();
      PumpFacts(x0, x, buf, tot, fed);
      log := log.(arrived := x0.log.arrived + buf);
      PumpEnds(x0, x, Now(), buf, tot, fed);
      AnswerClose(x0, buf);
    }

    /** One round: fill the input BIO, read the session dry, drain its output. */
    method PumpOnce(ghost x0: Snapshot, buf: seq<byte>, tot: int, ghost fed: nat) returns (tot': int, ghost fed': nat)
      requires Pumping(x0, Now(), buf, tot, fed) && 0 <= tot < |buf|
      modifies this
      ensures Pumping(x0, Now(), buf, tot', fed')
      ensures eng.cap == old(eng.cap)
      ensures Alive(eng) ==> old(Alive(eng)) && tot < tot'
      ensures !Alive(eng) ==>
        old(Alive(eng)) || |eng.inQ| > old(|eng.inQ|) || (|eng.inQ| == old(|eng.inQ|) && tot' < tot)
    {
      hide Inv, Inside, Calm, Quiet, EngineOk, Body, Later, Clean, Pumping, PumpFed, BioWrite, Docile, Tame,
           Gone, Alive, Hushed, NothingToRead, Soaked, Obeyed, Conserves;
      ghost var x := Now();
      PumpRoom(x0, x, buf, tot, fed);
      var (n, e) := BioWrite(eng, buf[tot..]);
      eng := e;
      tot' := tot + n;
      fed' := if n > 0 then fed + n else fed;
      log := log.(arrived := x0.log.arrived + buf[..fed']);
      ghost var y := Now();
      PumpFeeds(x0, x, y, buf, tot, fed);
      InvFacts(y);
      DeliverReads();
      ghost var z := Now();
      InvFacts(z);
      DrainOutput();
      PumpAdvances(x0, x, y, z, Now(), buf, tot, tot', fed');
    }

    /** The rest of `on_received`: if the peer closed and this side did not, answer. */
    method AnswerClose(ghost x0: Snapshot, buf: seq<byte>)
      requires Pumped(x0, Now(), buf) && x0.e.phase != Handshaking
      modifies this
      ensures Idle() && Later(x0, Now()) && Fed(x0, Now(), buf)
      ensures eng.outQ == [] && log.emitted == Flatten(toNext) && log.ditched == x0.log.ditched
      ensures Unharmed(x0, Now())
      ensures Answered(x0, Now()) && Replied(x0, Now())
      ensures old(eng.got && !eng.sent) ==> status == PeerClosing
      ensures old(eng.got && !eng.sent && CloseFits(eng)) ==> log.sealed == old(log.sealed) + [CloseNotify]
      ensures !old(eng.got && !eng.sent) ==>
        && status == old(status) && log.sealed == old(log.sealed)
        && eng.got == old(eng.got) && eng.sent == old(eng.sent)
    {
      hide Inv, Inside, Calm, Quiet, EngineOk, Body, Later, Clean, Fed, Docile, Unharmed, Tame, Answered, Hushed,
           Obeyed, Replied;
      ghost var y := Now();
      InvFacts(y);
      assert log.sealed + [] == log.sealed;
      InsideReflexive(y);
      if eng.got && !eng.sent {
        // SSL_get_shutdown is exactly SSL_RECEIVED_SHUTDOWN
        status := PeerClosing;
        var r, e := SslShutdown(eng);
        log := ShutdownLog(eng, log, e);
        eng := e;
        PeerCloses(y, Now(), r);
      }
      ghost var u := Now();
      InvFacts(u);
      DrainOutput();
      PumpDone(x0, y, u, Now(), buf);
    }
  }
}
