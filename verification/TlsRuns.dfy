/** Whole runs of a TLS stream: what an event does, and what holds at every moment of every sequence of
    events. */
module TlsRuns {
  import opened Bytes
  import opened TlsRecord
  import opened TlsEngine
  import opened TlsSession
  import opened TlsSteps
  import opened T = TlsStream
  import S = SocketStream

  // ----- what the layer above has been handed -----

  /** For every way the input was cut, what was handed up is the decoding of all of it, in one up-call for each
      record with a text, unless input
      came while this side waited for the peer's close_notify, or a write broke the session when a record
      was torn. */
  lemma ReceivedIsDecoded(x: Snapshot)
    requires Inv(x) && Quiet(x.e) && Followed(x.log)
    ensures Text(x.log.ups) == Decode(x.e.rd, 0, x.log.arrived).text
    ensures Handed(x.log.ups) == Pieces(x.e.rd, 0, x.log.arrived)
  {
    assert Handed(x.log.ups) + [] == Handed(x.log.ups);
    if Alive(x.e) {
      assert x.e.raw + x.e.inQ == x.e.raw;
      ScanDecode(x.e.rd, x.e.recvd, x.e.raw);
      ScanPieces(x.e.rd, x.e.recvd, x.e.raw);
      assert Text(x.log.ups) + [] == Text(x.log.ups);
    }
  }

  /** In particular at any moment of a connection the peer has not closed. */
  lemma ReceivedWhileConnected(x: Snapshot)
    requires Inv(x) && Quiet(x.e) && x.status == Connected && !x.e.got && !x.log.spoilt
    ensures Text(x.log.ups) == Decode(x.e.rd, 0, x.log.arrived).text
  {
    ReceivedIsDecoded(x);
  }

  /** A peer that has been given everything this side sealed has handed up what it means. */
  lemma PeerUnderstands(x: Snapshot, y: Snapshot)
    requires Inv(x) && Inv(y) && Quiet(y.e) && Followed(y.log)
    requires y.e.rd == x.e.wr && y.log.arrived == EncodeFrom(x.e.wr, 0, x.log.sealed)
    ensures Text(y.log.ups) == Meaning(0, x.log.sealed).text && Handed(y.log.ups) == Parts(x.log.sealed)
  {
    ReceivedIsDecoded(y);
    DecodeEncode(x.e.wr, 0, x.log.sealed);
    PiecesEncode(x.e.wr, 0, x.log.sealed);
  }

  // ----- runs -----

  datatype Event =
    | LowerConnected
    | LowerDisconnected
    | Input(chunk: seq<byte>)
    | AppWrites(buf: seq<byte>)
    | AppDisconnects

  /** The layer below reports its connection at most once, and before any input. */
  predicate WellOrdered(events: seq<Event>) {
    forall i, j :: 0 <= i < j < |events| && events[j].LowerConnected? ==>
      !events[i].LowerConnected? && !events[i].Input?
  }

  predicate ChunksWithin(events: seq<Event>, cap: nat) {
    forall e <- events :: e.Input? ==> |e.chunk| <= cap
  }

  function InputOf(event: Event): seq<byte> {
    if event.Input? then event.chunk else []
  }

  /** All input of a run. */
  function Received(events: seq<Event>): seq<byte> {
    if events == [] then []
    else Received(events[..|events| - 1]) + InputOf(events[|events| - 1])
  }

  /** No disconnect, and no write that does not fit. */
  predicate Harmless(e: Engine, event: Event) {
    !event.AppDisconnects? && (event.AppWrites? ==> Fits(e, |event.buf|))
  }

  /** The stream answers with an exception, and only then. */
  predicate Throws(side: Side, status: Status, event: Event) {
    event.LowerConnected? && side == Client && InSession(status)
  }

  /** Between events. */
  ghost predicate Rest(x: Snapshot) {
    Inv(x) && Clean(x.e) && Quiet(x.e)
  }

  ghost predicate Written(x: Snapshot, buf: seq<byte>, y: Snapshot)
    requires 0 < x.e.maxFrag
  {
    if x.status != Connected then y == x
    else
      && y.e.outQ == [] && y.log.emitted == Flatten(y.toNext)
      && if !Retrying(x.e) then
           var r := SendAll(x.e.(outQ := []), buf);
           y.e == r.e && y.log.emitted == x.log.emitted + r.out && y.log.sealed == x.log.sealed + r.frags
         else
           && x.log.sealed <= y.log.sealed
           && Resealed(x.e.maxFrag, x.log.cut, x.e.tornLen, buf, y.log.sealed[|x.log.sealed|..])
  }

  ghost predicate Disconnected(x: Snapshot, y: Snapshot) {
    if x.status != Connected then y == x
    else y.status != Connected && ShutSays(x.(status := Closing), y)
  }

  /** What a chunk of input does, by status. */
  ghost predicate TookIn(x: Snapshot, chunk: seq<byte>, y: Snapshot)
    requires |x.e.inQ| <= x.e.cap
  {
    match x.status
    case Closed => Tried(x, y) && Greeted(x, y)
    case Connecting => Tried(x, y) && Greeted(x, y)
    case Connected =>
      && y.e.outQ == [] && y.log.emitted == Flatten(y.toNext) && Answered(x, y) && Replied(x, y)
      && (y.status == Connected && y.e.got ==> y.e.sent)
    case PeerClosing => y == x.(log := x.log.(arrived := y.log.arrived))
    case Closing => ShutSays(WithInput(x, chunk), y)
  }

  /** What one event makes of a stream at rest. That what is handed up is what the input means is part of
      the invariant, hence of `Rest`. */
  ghost predicate Handled(side: Side, x: Snapshot, event: Event, y: Snapshot) {
    && 0 < x.e.maxFrag && |x.e.inQ| <= x.e.cap && Rest(y) && Later(x, y) && Fed(x, y, InputOf(event))
    && (Harmless(x.e, event) ==> Unharmed(x, y))
    && match event
       case LowerConnected => if side == Client && !InSession(x.status) then Tried(x, y) && Greeted(x, y) else y == x
       case LowerDisconnected => y == x
       case Input(chunk) => TookIn(x, chunk, y)
       case AppWrites(buf) => Written(x, buf, y)
       case AppDisconnects => Disconnected(x, y)
  }

  lemma FedInside(x: Snapshot, y: Snapshot)
    requires Inv(x) && Inside(x, y)
    ensures Fed(x, y, []) && Later(x, y)
  {
    assert x.log.arrived + [] == x.log.arrived;
  }

  lemma WriteUnharmed(x: Snapshot, buf: seq<byte>, y: Snapshot)
    requires y.status == x.status && y.log.ditched == x.log.ditched
    requires !Retrying(x.e) && Fits(x.e, |buf|) ==> !Retrying(y.e) && y.log.spoilt == x.log.spoilt
    ensures Harmless(x.e, AppWrites(buf)) ==> Unharmed(x, y)
  {
    hide Tame, Fits;
  }

  method Handle(t: TlsStream, event: Event) returns (threw: bool)
    requires t.Idle()
    modifies t
    ensures Handled(t.side, old(t.Now()), event, t.Now())
    ensures threw <==> Throws(t.side, old(t.status), event)
    ensures threw ==> t.Now() == old(t.Now())
  {
    hide Inv, Clean, Quiet, Later, Fed, Protocol, SendAll, Inside, Calm, Unharmed, Fits, Retrying, Resealed, Flatten,
         CloseFits, ShutSays, Answered, Replied, Tried, Greeted, WithInput, Body, EngineOk, Wrote, Resumed;
    threw := false;
    ghost var x := t.Now();
    InvFacts(x);
    LaterReflexive(x);
    UnharmedReflexive(x);
    FedNothing(x);
    match event {
      case LowerConnected =>
        threw := t.OnConnected();
      case LowerDisconnected =>
        t.OnDisconnected();
      case Input(chunk) =>
        var _ := t.OnReceived(chunk);
      case AppWrites(buf) =>
        var _, _ := t.Write(buf);
        InsideFacts(x, t.Now());
        FedInside(x, t.Now());
        WriteUnharmed(x, buf, t.Now());
      case AppDisconnects =>
        t.Disconnect();
        FedInside(x, t.Now());
    }
  }

  // ----- traces -----

  /** `xs` are the states of a stream before, between and after these events. */
  ghost predicate Trace(side: Side, events: seq<Event>, xs: seq<Snapshot>) {
    && |xs| == |events| + 1
    && forall i :: 0 <= i < |events| ==> Handled(side, xs[i], events[i], xs[i + 1])
  }

  ghost predicate Start(x: Snapshot) {
    Rest(x) && x.status == Closed && x.e.phase == Handshaking && x.log.lost == 0 && x.e.heard == []
  }

  lemma StepFacts(side: Side, events: seq<Event>, xs: seq<Snapshot>, i: nat)
    requires Trace(side, events, xs) && i < |events|
    ensures Rest(xs[i + 1]) && Later(xs[i], xs[i + 1]) && Fed(xs[i], xs[i + 1], InputOf(events[i]))
    ensures Harmless(xs[i].e, events[i]) ==> Unharmed(xs[i], xs[i + 1])
    ensures !events[i].LowerConnected? && !events[i].Input? && xs[i].status == Closed ==> xs[i + 1].status == Closed
  {
    assert Handled(side, xs[i], events[i], xs[i + 1]);
  }

  /** Nothing is taken back over any run: up-calls made, output handed down, records sealed, the end of
      a connection by the peer, and what else `Later` lists. */
  lemma {:induction false} NothingTakenBack(side: Side, events: seq<Event>, xs: seq<Snapshot>, i: nat, j: nat)
    requires Trace(side, events, xs) && i <= j < |xs|
    ensures Later(xs[i], xs[j])
    ensures xs[i].log.ups <= xs[j].log.ups && (xs[i].status == PeerClosing ==> xs[j].status == PeerClosing)
    decreases j
  {
    hide Handled, Inv, Clean, Quiet;
    if i < j {
      NothingTakenBack(side, events, xs, i, j - 1);
      StepFacts(side, events, xs, j - 1);
      LaterTransitive(xs[i], xs[j - 1], xs[j]);
    }
  }

  lemma FinalStep(side: Side, events: seq<Event>, xs: seq<Snapshot>, i: nat)
    requires Trace(side, events, xs) && i < |events| && xs[i].status == PeerClosing
    ensures xs[i + 1] == xs[i].(log := xs[i].log.(arrived := xs[i + 1].log.arrived))
  {
    assert Handled(side, xs[i], events[i], xs[i + 1]);
  }

  /** Once the peer has closed, no event of any run changes anything but the count of input: nothing is
      handed up or down any more, and the layer above is never told of a disconnection. */
  lemma {:induction false} PeerCloseIsFinal(side: Side, events: seq<Event>, xs: seq<Snapshot>, i: nat, j: nat)
    requires Trace(side, events, xs) && i <= j < |xs| && xs[i].status == PeerClosing
    ensures xs[j] == xs[i].(log := xs[i].log.(arrived := xs[j].log.arrived))
    decreases j
  {
    hide Handled;
    if i < j {
      PeerCloseIsFinal(side, events, xs, i, j - 1);
      FinalStep(side, events, xs, j - 1);
    }
  }

  /** A closed stream whose handshake is done is connected again by any further input. */
  lemma InputReopens(side: Side, events: seq<Event>, xs: seq<Snapshot>, i: nat)
    requires Trace(side, events, xs) && i < |events| && Rest(xs[0])
    requires xs[i].status == Closed && xs[i].e.phase == Ready && events[i].Input?
    ensures Entries(xs[i + 1].log.ups) == Entries(xs[i].log.ups) + 1
  {
    AtRest(side, events, xs, i);
    AtRest(side, events, xs, i + 1);
    assert Handled(side, xs[i], events[i], xs[i + 1]);
  }

  lemma AtRest(side: Side, events: seq<Event>, xs: seq<Snapshot>, j: nat)
    requires Trace(side, events, xs) && Rest(xs[0]) && j < |xs|
    ensures Rest(xs[j]) && Later(xs[0], xs[j])
  {
    NothingTakenBack(side, events, xs, 0, j);
    if j > 0 {
      StepFacts(side, events, xs, j - 1);
    }
  }

  /** At every moment of every run the layer above has seen an orderly session, with one connected up-call
      for each entry into connected. */
  lemma OrderlyOnRun(side: Side, events: seq<Event>, xs: seq<Snapshot>, j: nat)
    requires Trace(side, events, xs) && Rest(xs[0]) && j < |xs|
    ensures SessionAfter(xs[j].log.ups) != Disorder && Entries(xs[j].log.ups) == xs[j].log.entered
  {
    AtRest(side, events, xs, j);
  }

  lemma LaterFacts(x: Snapshot, y: Snapshot)
    requires Later(x, y)
    ensures y.e.cap == x.e.cap && y.e.rd == x.e.rd && y.e.wr == x.e.wr && y.e.maxFrag == x.e.maxFrag
    ensures x.log.established ==> y.log.established && y.log.hello == x.log.hello
    ensures x.log.ditched ==> y.log.ditched
    ensures x.log.ups <= y.log.ups && x.log.sealed <= y.log.sealed
    ensures Tame(x.e, x.script) ==> Tame(y.e, y.script)
  {
  }

  /** Every chunk of the handshake, up to moment `j`, fits the BIO. */
  predicate HandshakeWithin(events: seq<Event>, xs: seq<Snapshot>, j: nat)
    requires j < |xs| && |xs| == |events| + 1
  {
    forall k :: 0 <= k < j && xs[k].e.phase == Handshaking ==> |InputOf(events[k])| <= xs[0].e.cap
  }

  lemma FedLost(x: Snapshot, y: Snapshot, chunk: seq<byte>)
    requires Rest(x) && Fed(x, y, chunk)
    ensures y.log.lost == x.log.lost + if x.e.phase == Handshaking && |chunk| > x.e.cap then |chunk| - x.e.cap else 0
  {
  }

  /** At every moment of every run, no handshake input has been truncated if and only if every chunk of the
      handshake fits the BIO. */
  lemma {:induction false} LostIffTooLong(side: Side, events: seq<Event>, xs: seq<Snapshot>, j: nat)
    requires Trace(side, events, xs) && Start(xs[0]) && j < |xs|
    ensures xs[j].log.lost == 0 <==> HandshakeWithin(events, xs, j)
    decreases j
  {
    hide Handled, Inv, Clean, Quiet, Later, Fed, Unharmed, Tame;
    if j > 0 {
      LostIffTooLong(side, events, xs, j - 1);
      AtRest(side, events, xs, j - 1);
      StepFacts(side, events, xs, j - 1);
      LaterFacts(xs[0], xs[j - 1]);
      FedLost(xs[j - 1], xs[j], InputOf(events[j - 1]));
    }
  }

  /** In particular if all chunks do. */
  lemma NothingLost(side: Side, events: seq<Event>, xs: seq<Snapshot>, j: nat)
    requires Trace(side, events, xs) && Start(xs[0]) && j < |xs| && ChunksWithin(events, xs[0].e.cap)
    ensures xs[j].log.lost == 0
  {
    LostIffTooLong(side, events, xs, j);
    AllWithin(events, xs, j);
  }

  lemma AllWithin(events: seq<Event>, xs: seq<Snapshot>, j: nat)
    requires j < |xs| && |xs| == |events| + 1 && ChunksWithin(events, xs[0].e.cap)
    ensures HandshakeWithin(events, xs, j)
  {
    forall k | 0 <= k < j
      ensures |InputOf(events[k])| <= xs[0].e.cap
    {
      assert events[k] in events;
    }
  }

  lemma {:induction false} StillClosed(side: Side, events: seq<Event>, xs: seq<Snapshot>, j: nat)
    requires Trace(side, events, xs) && xs[0].status == Closed && j < |xs|
    requires forall i :: 0 <= i < j ==> !events[i].LowerConnected? && !events[i].Input?
    ensures xs[j].status == Closed
    decreases j
  {
    hide Handled;
    if j > 0 {
      StillClosed(side, events, xs, j - 1);
      StepFacts(side, events, xs, j - 1);
    }
  }

  /** No invalid state is reached if the layer below reports its connection once and before any input. */
  lemma NeverThrows(side: Side, events: seq<Event>, xs: seq<Snapshot>, j: nat)
    requires WellOrdered(events) && j < |events| && Trace(side, events[..j], xs) && Start(xs[0])
    ensures !Throws(side, xs[j].status, events[j])
  {
    if events[j].LowerConnected? {
      StillClosed(side, events[..j], xs, j);
    }
  }

  lemma ReceivedMore(events: seq<Event>, i: nat, j: nat)
    requires i <= j < |events|
    ensures Received(events[i..j + 1]) == Received(events[i..j]) + InputOf(events[j])
  {
    assert events[i..j + 1][..j - i] == events[i..j];
  }

  /** What the BIO takes of a chunk in one go. */
  function Taken(chunk: seq<byte>, cap: nat): seq<byte> {
    chunk[..Min(|chunk|, cap)]
  }

  predicate EndOf(part: seq<byte>, whole: seq<byte>) {
    |part| <= |whole| && part == whole[|whole| - |part|..]
  }

  /** What an event adds to the input that counts, when the handshake is done before or by it. */
  lemma FedEstablished(x: Snapshot, y: Snapshot, chunk: seq<byte>)
    requires Rest(x) && Fed(x, y, chunk) && y.log.established
    ensures if x.log.established then y.log.arrived == x.log.arrived + chunk
            else EndOf(y.log.arrived, Taken(chunk, x.e.cap))
  {
  }

  lemma NotYet(x: Snapshot)
    requires Start(x)
    ensures Rest(x) && !x.log.established && AllHeard(x) == []
  {
  }

  /** The handshake ended with event `i - 1`, and the input that counts is the unread end of what the BIO took
      of that event's chunk and then all input up to moment `j`, in chunks of any length. */
  ghost predicate Counted(events: seq<Event>, xs: seq<Snapshot>, i: nat, j: nat) {
    && 0 < i <= j < |xs| && |xs| == |events| + 1
    && !xs[i - 1].log.established && xs[i].log.established
    && EndOf(xs[i].log.arrived, Taken(InputOf(events[i - 1]), xs[0].e.cap))
    && xs[j].log.arrived == xs[i].log.arrived + Received(events[i..j])
  }

  lemma CountedFirst(events: seq<Event>, xs: seq<Snapshot>, j: nat)
    requires 0 < j < |xs| && |xs| == |events| + 1
    requires !xs[j - 1].log.established && xs[j].log.established
    requires EndOf(xs[j].log.arrived, Taken(InputOf(events[j - 1]), xs[0].e.cap))
    ensures Counted(events, xs, j, j)
  {
    assert xs[j].log.arrived + Received(events[j..j]) == xs[j].log.arrived;
  }

  lemma CountedNext(events: seq<Event>, xs: seq<Snapshot>, i: nat, j: nat)
    requires 0 < j < |xs| && Counted(events, xs, i, j - 1)
    requires xs[j].log.arrived == xs[j - 1].log.arrived + InputOf(events[j - 1])
    ensures Counted(events, xs, i, j)
  {
    hide Received, InputOf;
    ReceivedMore(events, i, j - 1);
    Regroup(xs[i].log.arrived, Received(events[i..j - 1]), InputOf(events[j - 1]));
  }

  lemma {:induction false} ArrivedOnRun(side: Side, events: seq<Event>, xs: seq<Snapshot>, j: nat) returns (i: nat)
    requires Trace(side, events, xs) && Start(xs[0]) && j < |xs| && xs[j].log.established
    ensures Counted(events, xs, i, j)
    decreases j
  {
    hide Handled, Start, Rest, Later, Fed, Unharmed, Tame, Counted, EndOf, Taken;
    NotYet(xs[0]);
    AtRest(side, events, xs, j - 1);
    StepFacts(side, events, xs, j - 1);
    LaterFacts(xs[0], xs[j - 1]);
    FedEstablished(xs[j - 1], xs[j], InputOf(events[j - 1]));
    if xs[j - 1].log.established {
      i := ArrivedOnRun(side, events, xs, j - 1);
      CountedNext(events, xs, i, j);
    } else {
      i := j;
      CountedFirst(events, xs, j);
    }
  }

  /** At every moment of every run after the handshake, if nothing has come in between, the layer above has
      been handed the meaning of that input. */
  lemma ReceivedOnRun(side: Side, events: seq<Event>, xs: seq<Snapshot>, j: nat) returns (i: nat)
    requires Trace(side, events, xs) && Start(xs[0]) && j < |xs| && Followed(xs[j].log)
    ensures Counted(events, xs, i, j)
    ensures var input := xs[i].log.arrived + Received(events[i..j]);
            && Text(xs[j].log.ups) == Decode(xs[0].e.rd, 0, input).text
            && Handed(xs[j].log.ups) == Pieces(xs[0].e.rd, 0, input)
  {
    i := ArrivedOnRun(side, events, xs, j);
    AtRest(side, events, xs, j);
    LaterFacts(xs[0], xs[j]);
    RestIsDecoded(xs[j]);
  }

  lemma RestIsDecoded(x: Snapshot)
    requires Rest(x) && Followed(x.log)
    ensures Text(x.log.ups) == Decode(x.e.rd, 0, x.log.arrived).text
    ensures Handed(x.log.ups) == Pieces(x.e.rd, 0, x.log.arrived)
  {
    ReceivedIsDecoded(x);
  }

  lemma {:induction false} ReceivedAppend(events: seq<Event>, more: seq<Event>)
    ensures Received(events + more) == Received(events) + Received(more)
    decreases |more|
  {
    if more == [] {
      assert events + more == events;
    } else {
      var n := |more| - 1;
      assert (events + more)[..|events| + n] == events + more[..n];
      ReceivedAppend(events, more[..n]);
      Regroup(Received(events), Received(more[..n]), InputOf(more[n]));
    }
  }

  /** Input of the handshake that the session has taken, and input since. */
  function AllHeard(x: Snapshot): seq<byte> {
    x.e.heard + if x.log.established then x.log.arrived else []
  }

  lemma FedHeard(x: Snapshot, y: Snapshot, chunk: seq<byte>)
    requires Rest(x) && Rest(y) && Later(x, y) && Fed(x, y, chunk) && (x.e.phase == Handshaking ==> |chunk| <= x.e.cap)
    requires y.log.established || y.e.phase == Handshaking
    ensures x.log.established || x.e.phase == Handshaking
    ensures AllHeard(y) == AllHeard(x) + chunk
  {
    hide Quiet, Clean;
    InvFacts(x);
    InvFacts(y);
    hide Inv;
    if x.log.established {
      Regroup(x.e.heard, x.log.arrived, chunk);
    } else {
      assert chunk[..|chunk|] == chunk && x.e.heard + [] == x.e.heard;
    }
  }

  /** No input byte is lost or doubled between the handshake and the records after it: at every moment of every
      run whose handshake chunks fit the BIO, as long as the handshake has not failed, what the session took
      during the handshake and what has counted as records since make up all input of the run. */
  lemma {:induction false} InputAccounted(side: Side, events: seq<Event>, xs: seq<Snapshot>, j: nat)
    requires Trace(side, events, xs) && Start(xs[0]) && j < |xs| && HandshakeWithin(events, xs, j)
    requires xs[j].log.established || xs[j].e.phase == Handshaking
    ensures AllHeard(xs[j]) == Received(events[..j])
    decreases j
  {
    hide Handled, Rest, Later, Fed, Unharmed, Tame, AllHeard;
    if j == 0 {
      assert AllHeard(xs[0]) == [] by { NotYet(xs[0]); }
    } else {
      AtRest(side, events, xs, j - 1);
      StepFacts(side, events, xs, j - 1);
      LaterFacts(xs[0], xs[j - 1]);
      FedHeard(xs[j - 1], xs[j], InputOf(events[j - 1]));
      InputAccounted(side, events, xs, j - 1);
      assert events[..j][..j - 1] == events[..j - 1];
    }
  }

  lemma HarmlessAlike(e: Engine, e1: Engine, event: Event)
    requires e1.maxFrag == e.maxFrag && e1.cap == e.cap && e1.wr == e.wr
    ensures Harmless(e1, event) == Harmless(e, event)
  {
  }

  /** Nothing comes in between if nobody disconnects and nothing is written that does not fit: from the
      start of a run whose layer above is tame, both in its up-calls and outside. */
  lemma {:induction false} TameRun(side: Side, events: seq<Event>, xs: seq<Snapshot>, j: nat)
    requires Trace(side, events, xs) && Start(xs[0]) && j < |xs|
    requires Tame(xs[0].e, xs[0].script) && forall e <- events :: Harmless(xs[0].e, e)
    ensures xs[j].status != Closing && (xs[j].log.established ==> Followed(xs[j].log))
  {
    TameSteps(side, events, xs, j);
  }

  lemma {:induction false} TameSteps(side: Side, events: seq<Event>, xs: seq<Snapshot>, j: nat)
    requires Trace(side, events, xs) && Rest(xs[0]) && j < |xs|
    requires forall e <- events :: Harmless(xs[0].e, e)
    ensures Unharmed(xs[0], xs[j])
    decreases j
  {
    hide Handled, Inv, Clean, Quiet, Later, Fed, Unharmed, Tame;
    if j == 0 {
      UnharmedReflexive(xs[0]);
    } else {
      TameSteps(side, events, xs, j - 1);
      AtRest(side, events, xs, j - 1);
      StepFacts(side, events, xs, j - 1);
      LaterFacts(xs[0], xs[j - 1]);
      assert events[j - 1] in events;
      HarmlessAlike(xs[0].e, xs[j - 1].e, events[j - 1]);
      UnharmedTransitive(xs[0], xs[j - 1], xs[j]);
    }
  }

  /** Any run from the start, with any behaviour of the layer above at any up-call, is a trace. An
      exception ends it; there is none if the events are well ordered. */
  method Run(t: TlsStream, events: seq<Event>) returns (threw: bool, ghost xs: seq<Snapshot>)
    requires Start(t.Now())
    modifies t
    ensures 0 < |xs| <= |events| + 1 && Trace(t.side, events[..|xs| - 1], xs)
    ensures xs[0] == old(t.Now()) && xs[|xs| - 1] == t.Now()
    ensures if threw then |xs| <= |events| && Throws(t.side, t.status, events[|xs| - 1]) else |xs| == |events| + 1
    ensures WellOrdered(events) ==> !threw
    ensures ChunksWithin(events, t.eng.cap) ==> t.log.lost == 0
    ensures SessionAfter(t.log.ups) != Disorder && Entries(t.log.ups) == t.log.entered
    ensures t.Idle() && Later(old(t.Now()), t.Now())
    ensures Followed(t.log) ==> Text(t.log.ups) == Decode(t.eng.rd, 0, t.log.arrived).text
  {
    hide Start, Inv, Clean, Quiet, Trace, Handled, Later, Followed, Text, Decode, SessionAfter, Entries;
    ghost var x0 := t.Now();
    xs, threw := [x0], false;
    TraceBegins(t.side, x0);
    assert events[..0] == [];
    for i := 0 to |events|
      invariant |xs| == i + 1 && xs[0] == x0 && xs[i] == t.Now()
      invariant Trace(t.side, events[..i], xs) && t.Idle()
    {
      ghost var x := t.Now();
      threw := Handle(t, events[i]);
      if threw {
        if WellOrdered(events) { NeverThrows(t.side, events, xs, i); }
        RunFacts(t.side, events, xs);
        return;
      }
      TraceGrows(t.side, events[..i], xs, events[i], t.Now());
      xs := xs + [t.Now()];
      assert events[..i + 1] == events[..i] + [events[i]];
    }
    RunFacts(t.side, events, xs);
  }

  lemma TraceBegins(side: Side, x: Snapshot)
    requires Start(x)
    ensures Trace(side, [], [x]) && Rest(x)
  {
  }

  lemma TraceGrows(side: Side, events: seq<Event>, xs: seq<Snapshot>, event: Event, y: Snapshot)
    requires Trace(side, events, xs) && Handled(side, xs[|events|], event, y)
    ensures Trace(side, events + [event], xs + [y]) && Rest(y)
  {
    hide Handled, Rest;
    assert Rest(y) by { HandledRests(side, xs[|events|], event, y); }
  }

  lemma HandledRests(side: Side, x: Snapshot, event: Event, y: Snapshot)
    requires Handled(side, x, event, y)
    ensures Rest(y)
  {
  }

  lemma RunFacts(side: Side, events: seq<Event>, xs: seq<Snapshot>)
    requires 0 < |xs| <= |events| + 1 && Trace(side, events[..|xs| - 1], xs) && Start(xs[0])
    ensures var x := xs[|xs| - 1];
            && (ChunksWithin(events, x.e.cap) ==> x.log.lost == 0)
            && SessionAfter(x.log.ups) != Disorder && Entries(x.log.ups) == x.log.entered
            && Later(xs[0], x) && (Followed(x.log) ==> Text(x.log.ups) == Decode(x.e.rd, 0, x.log.arrived).text)
  {
    var n := |xs| - 1;
    AtRest(side, events[..n], xs, n);
    LaterFacts(xs[0], xs[n]);
    OrderlyOnRun(side, events[..n], xs, n);
    if Followed(xs[n].log) {
      RestIsDecoded(xs[n]);
    }
    if ChunksWithin(events, xs[n].e.cap) {
      assert forall e <- events[..n] :: e in events;
      NothingLost(side, events[..n], xs, n);
    }
  }

  /** What the socket's announcements are to the TLS stream on top of it. */
  function FromSocket(ups: seq<S.UpCall>): seq<Event> {
    seq(|ups|, i requires 0 <= i < |ups| =>
      match ups[i]
      case Connected => LowerConnected
      case Received(d) => Input(d)
      case Disconnected => LowerDisconnected)
  }

  lemma {:induction false} NoMoreConnections(ups: seq<S.UpCall>, i: nat, j: nat)
    requires i <= j < |ups| && ups[j].Connected?
    ensures S.Connections(ups) >= 1 + if i < j && ups[i].Connected? then 1 else 0
    decreases |ups|
  {
    var init := ups[..|ups| - 1];
    if j < |init| {
      NoMoreConnections(init, i, j);
    } else if i < j && ups[i].Connected? {
      NoMoreConnections(init, i, i);
    }
  }

  /** Everything a Linux socket ever announces, dialled or accepted, is well ordered and comes in chunks
      that fit the BIO. */
  lemma SocketIsWellOrdered(ups: seq<S.UpCall>, connected: bool, accepted: bool, dialFailed: bool)
    requires S.Announced(ups, connected, accepted, dialFailed)
    ensures WellOrdered(FromSocket(ups)) && ChunksWithin(FromSocket(ups), BIO_SIZE)
  {
    forall j | 0 < j < |ups|
      ensures !ups[j].Connected?
    {
      if ups[j].Connected? {
        NoMoreConnections(ups, 0, j);
      }
    }
  }

  /** The bytes of the announcements are the bytes of the input. */
  lemma {:induction false} SocketInput(ups: seq<S.UpCall>)
    ensures Received(FromSocket(ups)) == S.Data(ups)
    decreases |ups|
  {
    if ups != [] {
      var n := |ups| - 1;
      SocketInput(ups[..n]);
      assert FromSocket(ups)[..n] == FromSocket(ups[..n]);
      assert InputOf(FromSocket(ups)[n]) == if ups[n].Received? then ups[n].data else [];
      hide FromSocket;
    }
  }

  /** The application's calls are no input. */
  lemma {:induction false} InterleavedInput(events: seq<Event>)
    ensures Received(Below(events)) == Received(events)
  {
    if events != [] {
      var n := |events| - 1;
      InterleavedInput(events[..n]);
      if FromBelow(events[n]) {
        assert Below(events)[..|Below(events)| - 1] == Below(events[..n]);
      } else {
        assert Below(events) == Below(events[..n]);
      }
    }
  }

  predicate FromBelow(event: Event) {
    !event.AppWrites? && !event.AppDisconnects?
  }

  /** The events of a run that come from the layer below. */
  function Below(events: seq<Event>): seq<Event> {
    if events == [] then []
    else Below(events[..|events| - 1]) + if FromBelow(events[|events| - 1]) then [events[|events| - 1]] else []
  }

  lemma {:induction false} BelowHas(events: seq<Event>, e: Event)
    requires e in events && FromBelow(e)
    ensures e in Below(events)
  {
    if e != events[|events| - 1] {
      BelowHas(events[..|events| - 1], e);
    }
  }

  /** What the application does in between leaves a run well ordered. */
  lemma {:induction false} InterleavedOrdered(events: seq<Event>)
    requires WellOrdered(Below(events))
    ensures WellOrdered(events)
  {
    if events != [] {
      var n := |events| - 1;
      var init, last := events[..n], events[n];
      assert Below(events)[..|Below(init)|] == Below(init);
      InterleavedOrdered(init);
      if last.LowerConnected? {
        forall i | 0 <= i < n
          ensures !events[i].LowerConnected? && !events[i].Input?
        {
          if FromBelow(events[i]) {
            BelowHas(init, init[i]);
            var k :| 0 <= k < |Below(init)| && Below(init)[k] == events[i];
            assert Below(events)[k] == events[i] && Below(events)[|Below(init)|] == last;
          }
        }
      }
      assert forall i :: 0 <= i < n ==> init[i] == events[i];
    }
  }

  lemma InterleavedWithin(events: seq<Event>, cap: nat)
    requires ChunksWithin(Below(events), cap)
    ensures ChunksWithin(events, cap)
  {
    forall e | e in events && e.Input?
      ensures |e.chunk| <= cap
    {
      BelowHas(events, e);
    }
  }

  /** A stream on top of a Linux socket, with the application's calls anywhere in between: no run throws or
      loses handshake input, and unless the handshake fails its session has been given exactly the bytes the
      socket announced. */
  method RunOverSocket(t: TlsStream, events: seq<Event>, ghost ups: seq<S.UpCall>,
                       ghost connected: bool, ghost accepted: bool, ghost dialFailed: bool)
    returns (ghost xs: seq<Snapshot>)
    requires Start(t.Now()) && t.eng.cap == BIO_SIZE
    requires S.Announced(ups, connected, accepted, dialFailed) && Below(events) == FromSocket(ups)
    modifies t
    ensures Trace(t.side, events, xs) && xs[0] == old(t.Now()) && xs[|events|] == t.Now()
    ensures t.log.lost == 0 && SessionAfter(t.log.ups) != Disorder
    ensures t.log.established || t.eng.phase == Handshaking ==> AllHeard(t.Now()) == S.Data(ups)
  {
    hide Start, Trace, AllHeard, Received, S.Data, Handled, Below, S.Announced, SessionAfter, ChunksWithin, WellOrdered;
    SocketIsWellOrdered(ups, connected, accepted, dialFailed);
    InterleavedOrdered(events);
    InterleavedWithin(events, BIO_SIZE);
    var threw: bool;
    threw, xs := Run(t, events);
    ghost var n := |events|;
    assert events[..n] == events;
    CapKept(t.side, events, xs);
    if t.log.established || t.eng.phase == Handshaking {
      AllWithin(events, xs, n);
      InputAccounted(t.side, events, xs, n);
      InterleavedInput(events);
      SocketInput(ups);
    }
  }

  lemma CapKept(side: Side, events: seq<Event>, xs: seq<Snapshot>)
    requires Trace(side, events, xs)
    ensures |xs| == |events| + 1 && xs[|events|].e.cap == xs[0].e.cap
  {
    NothingTakenBack(side, events, xs, 0, |events|);
    LaterFacts(xs[0], xs[|events|]);
  }
}
