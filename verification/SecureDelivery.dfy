/** Two TLS streams end to end, over any transport and over a Windows socket. */
module SecureDelivery {
  import opened Bytes
  import opened TlsRecord
  import opened TlsEngine
  import opened TlsSession
  import opened TlsSteps
  import opened T = TlsStream
  import opened TlsRuns
  import opened AsyncSocket
  import S = SocketStream

  // ----- end to end -----

  predicate AllFit(e: Engine, msgs: seq<seq<byte>>) {
    forall m <- msgs :: Fits(e, |m|)
  }

  /** A connected sender that may seal records. */
  ghost predicate Sender(x: Snapshot) {
    Inv(x) && Clean(x.e) && Quiet(x.e) && x.status == Connected && Writable(x.e)
  }

  lemma WholeSend(e: Engine, buf: seq<byte>)
    requires EngineOk(e) && Writable(e) && e.outQ == [] && Fits(e, |buf|)
    ensures var r := SendAll(e, buf);
            && r.e == e.(sealed := e.sealed + |r.frags|)
            && r.out == EncodeFrom(e.wr, e.sealed, r.frags)
            && Meaning(e.sealed, r.frags) == Decoded(buf, Open, e.sealed + |r.frags|, [])
  {
    SendFitting(e, buf);
    FragmentsMeaning(e.maxFrag, e.sealed, buf);
  }

  /** Nothing has been received and nothing handed up since `x0`. */
  predicate Unheard(x0: Snapshot, x: Snapshot) {
    && x.log.ups == x0.log.ups && x.script == x0.script && x.log.arrived == x0.log.arrived
    && (Followed(x0.log) ==> Followed(x.log))
  }

  /** Since `x0`, `x` has put out the records `more`, which mean `text`. */
  ghost predicate Said(x0: Snapshot, x: Snapshot, more: seq<Content>, text: seq<byte>) {
    && Sender(x) && x.e == x0.e.(sealed := x.e.sealed)
    && x0.toNext <= x.toNext && Unheard(x0, x)
    && x.log.sealed == x0.log.sealed + more && x.e.sealed == |x.log.sealed|
    && x.log.emitted == x0.log.emitted + EncodeFrom(x0.e.wr, |x0.log.sealed|, more)
    && Meaning(|x0.log.sealed|, more) == Decoded(text, Open, |x0.log.sealed| + |more|, [])
  }

  lemma SaidNothing(x: Snapshot)
    requires Sender(x)
    ensures Said(x, x, [], [])
  {
    assert x.log.sealed + [] == x.log.sealed;
    assert x.log.emitted + [] == x.log.emitted;
  }

  lemma MeaningGrows(k: nat, xs: seq<Content>, text: seq<byte>, ys: seq<Content>, buf: seq<byte>)
    requires Meaning(k, xs) == Decoded(text, Open, k + |xs|, [])
    requires Meaning(k + |xs|, ys) == Decoded(buf, Open, k + |xs| + |ys|, [])
    ensures Meaning(k, xs + ys) == Decoded(text + buf, Open, k + |xs + ys|, [])
  {
    MeaningAppend(k, xs, ys);
  }

  lemma SaidMore(x0: Snapshot, x: Snapshot, y: Snapshot, more: seq<Content>, text: seq<byte>, buf: seq<byte>)
    requires Said(x0, x, more, text) && Fits(x.e, |buf|) && EngineOk(x.e) && x.e.outQ == []
    requires Sender(x) && Inv(y) && Clean(y.e) && Quiet(y.e) && y.status == Connected
    requires x.toNext <= y.toNext && Unheard(x, y)
    requires var r := SendAll(x.e, buf);
             y.e == r.e && y.log.sealed == x.log.sealed + r.frags && y.log.emitted == x.log.emitted + r.out
    ensures Said(x0, y, more + SendAll(x.e, buf).frags, text + buf)
  {
    hide Inv, SendAll, Quiet, Clean, Fits, Meaning, EncodeFrom;
    WholeSend(x.e, buf);
    var frags := SendAll(x.e, buf).frags;
    var k0 := |x0.log.sealed|;
    EncodeAppend(x0.e.wr, k0, more, frags);
    Regroup(x0.log.sealed, more, frags);
    Regroup(x0.log.emitted, EncodeFrom(x0.e.wr, k0, more), EncodeFrom(x0.e.wr, k0 + |more|, frags));
    MeaningGrows(k0, more, text, frags, buf);
  }

  lemma SenderFacts(x: Snapshot)
    requires Sender(x)
    ensures EngineOk(x.e) && x.e.outQ == [] && x.e.(outQ := []) == x.e && x.e.phase == Ready && !Retrying(x.e)
  {
  }

  lemma InsideGrows(x: Snapshot, y: Snapshot)
    requires Inside(x, y)
    ensures x.toNext <= y.toNext
  {
  }

  lemma FitsAlike(e: Engine, e1: Engine, msgs: seq<seq<byte>>, i: nat)
    requires AllFit(e, msgs) && e1 == e.(sealed := e1.sealed) && i < |msgs|
    ensures Fits(e1, |msgs[i]|)
  {
  }

  lemma SaidFacts(x0: Snapshot, x: Snapshot, more: seq<Content>, text: seq<byte>)
    requires Said(x0, x, more, text)
    ensures Sender(x) && x0.toNext <= x.toNext && x.e == x0.e.(sealed := x.e.sealed) && Unheard(x0, x)
    ensures x.log.emitted == x0.log.emitted + EncodeFrom(x0.e.wr, |x0.log.sealed|, more)
  {
  }

  /** Every message whose records fit is sealed whole, in order. */
  method Send(a: TlsStream, msgs: seq<seq<byte>>) returns (ghost more: seq<Content>)
    requires Sender(a.Now()) && AllFit(a.eng, msgs)
    modifies a
    ensures Said(old(a.Now()), a.Now(), more, Flatten(msgs)) && more == RecordsOf(old(a.eng), msgs)
  {
    hide RecordsOf, Inv, Clean, Quiet, SendAll, Said, Inside, Calm, AllFit, EngineOk, Writable, Retrying, Resealed, Fits;
    ghost var x0 := a.Now();
    more := [];
    SaidNothing(x0);
    RecordsSame(x0.e, x0.e, []);
    assert msgs[..0] == [];
    for i := 0 to |msgs|
      invariant Said(x0, a.Now(), more, Flatten(msgs[..i])) && more == RecordsOf(x0.e, msgs[..i])
    {
      ghost var x := a.Now();
      SaidFacts(x0, x, more, Flatten(msgs[..i]));
      SenderFacts(x);
      FitsAlike(x0.e, x.e, msgs, i);
      var _, _ := a.Write(msgs[i]);
      CalmFacts(x, a.Now());
      InsideGrows(x, a.Now());
      InsideFacts(x, a.Now());
      StillWriting(x, a.Now(), msgs[i]);
      SaidMore(x0, x, a.Now(), more, Flatten(msgs[..i]), msgs[i]);
      RecordsMore(x0.e, x.e, msgs[..i], msgs[i]);
      more := more + SendAll(x.e, msgs[i]).frags;
      FlattenSnoc(msgs[..i], msgs[i]);
      assert msgs[..i + 1] == msgs[..i] + [msgs[i]];
    }
    assert msgs[..|msgs|] == msgs;
  }

  lemma RecordsMore(e0: Engine, e: Engine, msgs: seq<seq<byte>>, m: seq<byte>)
    requires EngineOk(e) && Writable(e) && e.outQ == [] && Fits(e, |m|) && e.maxFrag == e0.maxFrag
    ensures RecordsOf(e0, msgs + [m]) == RecordsOf(e0, msgs) + SendAll(e, m).frags
  {
    SendFitting(e, m);
    RecordsAppend(e0, msgs, [m]);
    assert FragmentsAll(e.maxFrag, [m]) == Fragments(e.maxFrag, m) + FragmentsAll(e.maxFrag, []);
  }

  lemma StillWriting(x: Snapshot, y: Snapshot, buf: seq<byte>)
    requires Sender(x) && Fits(x.e, |buf|) && Calm(x, y) && EngineOk(x.e)
    requires y.e == SendAll(x.e.(outQ := []), buf).e
    ensures y.status == Connected
  {
    SenderFacts(x);
    WholeSend(x.e, buf);
  }

  /** Input in pieces, each an event of its own. */
  method Receive(b: TlsStream, chunks: seq<seq<byte>>)
    requires b.Idle() && b.log.established
    modifies b
    ensures b.Idle() && Later(old(b.Now()), b.Now()) && Unharmed(old(b.Now()), b.Now())
    ensures b.log.established && b.log.arrived == old(b.log.arrived) + Flatten(chunks)
    ensures old(b.status) == Connected && chunks != [] ==> Answered(old(b.Now()), b.Now())
    ensures old(Receiver(b.Now())) ==> Replied(old(b.Now()), b.Now())
  {
    hide Inv, Clean, Quiet, Later, Fed, Unharmed, Answered, ShutSays, Replied, Greeted, Tried, Receiver;
    ghost var y0 := b.Now();
    LaterReflexive(y0);
    UnharmedReflexive(y0);
    RepliedReflexive(y0);
    assert chunks[..0] == [] && y0.log.arrived + [] == y0.log.arrived;
    for i := 0 to |chunks|
      invariant b.Idle() && Later(y0, b.Now()) && Unharmed(y0, b.Now()) && b.log.established
      invariant b.log.arrived == y0.log.arrived + Flatten(chunks[..i])
      invariant if i == 0 then b.Now() == y0 else y0.status == Connected ==> Answered(y0, b.Now())
      invariant Receiver(y0) ==> Replied(y0, b.Now())
    {
      ghost var y := b.Now();
      var _ := b.OnReceived(chunks[i]);
      FedGrows(y, b.Now(), chunks[i]);
      LaterFacts(y, b.Now());
      UnharmedTransitive(y0, y, b.Now());
      if y0.status == Connected && i > 0 { AnsweredTransitive(y0, y, b.Now()); }
      if Receiver(y0) { RepliedOn(y0, y, b.Now()); }
      LaterTransitive(y0, y, b.Now());
      FlattenSnoc(chunks[..i], chunks[i]);
      Regroup(y0.log.arrived, Flatten(chunks[..i]), chunks[i]);
      assert chunks[..i + 1] == chunks[..i] + [chunks[i]];
    }
    assert chunks[..|chunks|] == chunks;
  }

  lemma RepliedReflexive(y: Snapshot)
    ensures Receiver(y) ==> Replied(y, y)
  {
    NoAnswers(y.script);
    RecordsSame(y.e, y.e, []);
    assert y.log.sealed + [] == y.log.sealed;
  }

  lemma RepliedOn(x: Snapshot, y: Snapshot, z: Snapshot)
    requires Inv(x) && Inv(y) && Receiver(x) && Later(x, y) && Later(y, z) && Unharmed(x, y) && Replied(x, y)
    requires y.status == Connected ==> Replied(y, z)
    requires y.status == PeerClosing ==> z == y.(log := y.log.(arrived := z.log.arrived))
    ensures Replied(x, z)
  {
    hide Inv, Later, Replied, Tame;
    RepliedTransitive(x, y, z);
  }

  lemma FedGrows(x: Snapshot, y: Snapshot, chunk: seq<byte>)
    requires Fed(x, y, chunk) && x.log.established
    ensures y.log.arrived == x.log.arrived + chunk
  {
  }

  /** A way to cut a byte string; every way is one of these. */
  function Cut(s: seq<byte>, sizes: seq<nat>): (chunks: seq<seq<byte>>)
    ensures Flatten(chunks) == s
    decreases |sizes|
  {
    if sizes == [] || |s| < sizes[0] then
      assert Flatten([s]) == s + Flatten<byte>([]);
      if s == [] then [] else [s]
    else
      var rest := Cut(s[sizes[0]..], sizes[1..]);
      assert ([s[..sizes[0]]] + rest)[1..] == rest;
      assert s[..sizes[0]] + s[sizes[0]..] == s;
      [s[..sizes[0]]] + rest
  }

  lemma {:induction false} EveryCut(chunks: seq<seq<byte>>)
    ensures exists sizes: seq<nat> :: Cut(Flatten(chunks), sizes) == chunks
  {
    if chunks == [] {
      assert Cut([], []) == [];
    } else {
      EveryCut(chunks[1..]);
      var tail: seq<nat> :| Cut(Flatten(chunks[1..]), tail) == chunks[1..];
      var sizes := [|chunks[0]|] + tail;
      assert sizes[1..] == tail;
      var s := Flatten(chunks);
      assert s[|chunks[0]|..] == Flatten(chunks[1..]) && s[..|chunks[0]|] == chunks[0];
      assert [chunks[0]] + chunks[1..] == chunks;
      assert Cut(s, sizes) == chunks;
    }
  }

  /** `y` reads what `x` writes, and has been given all of it. */
  ghost predicate InSync(x: Snapshot, y: Snapshot) {
    && y.e.rd == x.e.wr && Followed(y.log)
    && y.log.arrived == EncodeFrom(x.e.wr, 0, x.log.sealed)
    && Meaning(0, x.log.sealed).end == Open
  }

  /** The sender has sealed `more`, which means `text`. */
  predicate Uttered(x0: Snapshot, x: Snapshot, more: seq<Content>, text: seq<byte>) {
    && x.log.sealed == x0.log.sealed + more
    && Meaning(|x0.log.sealed|, more) == Decoded(text, Open, |x0.log.sealed| + |more|, [])
  }

  lemma SyncedText(x0: Snapshot, x: Snapshot, y0: Snapshot, y: Snapshot, more: seq<Content>, text: seq<byte>)
    requires Inv(x0) && Inv(x) && Inv(y0) && Quiet(y0.e) && InSync(x0, y0) && Uttered(x0, x, more, text)
    requires Inv(y) && Quiet(y.e) && y.e.rd == y0.e.rd && Followed(y.log) && x.e.wr == x0.e.wr
    requires y.log.arrived == y0.log.arrived + EncodeFrom(x0.e.wr, |x0.log.sealed|, more)
    ensures InSync(x, y) && Text(y.log.ups) == Text(y0.log.ups) + text
    ensures Handed(y.log.ups) == Handed(y0.log.ups) + Parts(more)
  {
    hide Inv, Quiet, EncodeFrom, Meaning, Parts;
    PartsAppend(0, x0.log.sealed, more);
    EncodeAppend(x0.e.wr, 0, x0.log.sealed, more);
    MeaningAppend(0, x0.log.sealed, more);
    PeerUnderstands(x0, y0);
    PeerUnderstands(x, y);
  }

  lemma SaidUtters(x0: Snapshot, x: Snapshot, more: seq<Content>, text: seq<byte>)
    requires Said(x0, x, more, text)
    ensures Uttered(x0, x, more, text) && x.e.wr == x0.e.wr
  {
  }

  /** A connected receiver whose application neither disconnects nor writes what does not fit. */
  ghost predicate Receiver(y: Snapshot) {
    y.status == Connected && !Retrying(y.e) && Tame(y.e, y.script)
  }

  lemma ReceiverFollows(y0: Snapshot, y: Snapshot)
    requires Receiver(y0) && Unharmed(y0, y) && Later(y0, y) && Followed(y0.log)
    ensures Followed(y.log) && !Retrying(y.e) && Tame(y.e, y.script)
    ensures y.status == Connected || y.status == PeerClosing
  {
  }

  /** It stays connected as long as the sender has not closed. */
  lemma StillReceiving(x: Snapshot, y: Snapshot)
    requires Inv(x) && Inv(y) && InSync(x, y)
    ensures y.status != PeerClosing && Alive(y.e)
  {
    DecodeEncode(x.e.wr, 0, x.log.sealed);
  }

  /** The bytes put out since `x0` have arrived since `y0`. */
  lemma Delivered(x0: Snapshot, x: Snapshot, y0: Snapshot, y: Snapshot, more: seq<Content>, text: seq<byte>)
    requires Inv(x0) && Inv(x) && Inv(y0) && Quiet(y0.e) && InSync(x0, y0) && Said(x0, x, more, text)
    requires Inv(y) && Quiet(y.e) && Later(y0, y) && Unharmed(y0, y) && y.log.established
    requires y.log.arrived == y0.log.arrived + EncodeFrom(x0.e.wr, |x0.log.sealed|, more)
    ensures !y.log.ditched && !y.log.spoilt ==> Understood(x, y0, y, text, more)
    ensures Receiver(y0) ==> Understood(x, y0, y, text, more) && Receiver(y)
  {
    hide Inv, Quiet, Later, Unharmed, Said, EncodeFrom, Meaning, Receiver;
    InSyncFacts(x0, y0);
    LaterFacts(y0, y);
    if Receiver(y0) {
      ReceiverFollows(y0, y);
    }
    if Followed(y.log) {
      SaidUtters(x0, x, more, text);
      SyncedText(x0, x, y0, y, more, text);
      StillReceiving(x, y);
    }
    if Receiver(y0) {
      ReceiverIs(y);
    }
  }

  lemma ReceiverIs(y: Snapshot)
    requires y.status == Connected && !Retrying(y.e) && Tame(y.e, y.script)
    ensures Receiver(y)
  {
  }

  /** The peer has been handed `text` since `y0`, in one up-call for each record, and is in step with the sender
      again. */
  ghost predicate Understood(x: Snapshot, y0: Snapshot, y: Snapshot, text: seq<byte>, more: seq<Content>) {
    && InSync(x, y) && Text(y.log.ups) == Text(y0.log.ups) + text
    && Handed(y.log.ups) == Handed(y0.log.ups) + Parts(more)
  }

  /** Round trip: whatever the messages, as long as their records fit, and however the bytes handed to
      the layer below are cut on the way, the peer is handed exactly the messages, and can go on
      receiving, if its application neither disconnects nor writes what does not fit from inside its
      up-calls. If it does, this holds as long as no input was thrown away and no write broke its session. */
  method RoundTrip(a: TlsStream, b: TlsStream, msgs: seq<seq<byte>>, sizes: seq<nat>)
    requires a != b && Sender(a.Now()) && AllFit(a.eng, msgs)
    requires b.Idle() && InSync(a.Now(), b.Now())
    modifies a, b
    ensures Sender(a.Now()) && b.Idle()
    ensures old(Receiver(b.Now())) ==>
      Receiver(b.Now()) && InSync(a.Now(), b.Now()) && Text(b.log.ups) == old(Text(b.log.ups)) + Flatten(msgs)
    ensures !b.log.ditched && !b.log.spoilt ==>
      InSync(a.Now(), b.Now()) && Text(b.log.ups) == old(Text(b.log.ups)) + Flatten(msgs)
    ensures old(Receiver(b.Now())) || (!b.log.ditched && !b.log.spoilt) ==>
      Handed(b.log.ups) == old(Handed(b.log.ups)) + Parts(RecordsOf(old(a.eng), msgs))
  {
    hide Inv, Clean, Quiet, Later, Unharmed, Writable, Said, InSync, AllFit, Meaning, EncodeFrom, Receiver,
         Parts, RecordsOf;
    ghost var x0, y0 := a.Now(), b.Now();
    InSyncFacts(x0, y0);
    OutputFacts(x0);
    var before := Flatten(a.toNext);
    ghost var more := Send(a, msgs);
    SaidFacts(x0, a.Now(), more, Flatten(msgs));
    OutputFacts(a.Now());
    var sent := Flatten(a.toNext)[|before|..];
    Receive(b, Cut(sent, sizes));
    Delivered(x0, a.Now(), y0, b.Now(), more, Flatten(msgs));
  }

  /** All output of a sender has been handed to the layer below, in pieces of at most the capacity of
      the BIO. */
  lemma OutputFacts(x: Snapshot)
    requires Sender(x)
    ensures x.log.emitted == Flatten(x.toNext) && ChunksOk(x.toNext, x.e.cap)
  {
    assert Flatten(x.toNext) + [] == Flatten(x.toNext);
  }

  lemma InSyncFacts(x: Snapshot, y: Snapshot)
    requires InSync(x, y)
    ensures y.log.established && Followed(y.log) && y.e.rd == x.e.wr
  {
  }

  // ----- over a Windows socket -----

  /** A Windows stream socket without errors that has neither lost, repeated nor reordered anything. */
  ghost predicate Faithful(s: S.SocketStream)
    reads s, s.sock, s.sock.opBuffer
  {
    s.Valid() && s.NotStalled() && s.sock.backend.Overlapped? && !s.sock.faulty && s.inOrder
  }

  method SomeCompletions(s: S.SocketStream)
    requires Faithful(s)
    modifies s, s.sock, s.sock.opBuffer
    ensures Faithful(s) && s.written == old(s.written)
  {
    var k: int := *;
    for j := 0 to if k < 0 then 0 else k
      invariant Faithful(s) && s.written == old(s.written)
    {
      if s.sock.inUse {
        var _ := s.WriteCompleted();
      }
    }
  }

  method PushOne(s: S.SocketStream, chunk: seq<byte>)
    requires Faithful(s) && |chunk| <= OP_BUFFER
    modifies s, s.sock, s.sock.opBuffer
    ensures Faithful(s) && s.written == old(s.written) + chunk
  {
    hide S.Announced;
    var _, _, _ := s.Write(chunk);
    SomeCompletions(s);
  }

  /** Buffers no larger than the operation's, with any number of completions in between. */
  method Push(s: S.SocketStream, chunks: seq<seq<byte>>)
    requires Faithful(s) && forall c <- chunks :: |c| <= OP_BUFFER
    modifies s, s.sock, s.sock.opBuffer
    ensures Faithful(s) && s.written == old(s.written) + Flatten(chunks)
  {
    hide Faithful;
    assert chunks[..0] == [] && s.written + [] == s.written;
    for i := 0 to |chunks|
      invariant Faithful(s) && s.written == old(s.written) + Flatten(chunks[..i])
    {
      PushOne(s, chunks[i]);
      FlattenSnoc(chunks[..i], chunks[i]);
      Regroup(old(s.written), Flatten(chunks[..i]), chunks[i]);
      assert chunks[..i + 1] == chunks[..i] + [chunks[i]];
    }
    assert chunks[..|chunks|] == chunks;
  }

  /** Nothing stalls: each completion starts a further send or leaves nothing to send, and when no
      send is under way the wire has everything. */
  method Complete(s: S.SocketStream)
    requires Faithful(s)
    modifies s, s.sock, s.sock.opBuffer
    ensures Faithful(s) && s.written == old(s.written)
    ensures !s.sock.inUse && s.pending == [] && s.sock.wire == s.written
  {
    while s.sock.inUse
      invariant Faithful(s) && s.written == old(s.written)
      decreases |s.pending|, s.sock.inUse
    {
      var _ := s.WriteCompleted();
    }
    s.LineFacts();
    assert s.sock.wire + [] + [] == s.sock.wire;
  }

  /** From application to application: messages written to one TLS stream, sent through a Windows
      socket with its single overlapped operation, and read in any pieces by the peer, arrive as
      written. */
  method DeliverOverWindows(a: TlsStream, s: S.SocketStream, b: TlsStream, msgs: seq<seq<byte>>, sizes: seq<nat>)
    requires a != b && Sender(a.Now()) && AllFit(a.eng, msgs) && a.eng.cap == BIO_SIZE
    requires b.Idle() && InSync(a.Now(), b.Now())
    requires Faithful(s) && s.written == Flatten(a.toNext)
    modifies a, b, s, s.sock, s.sock.opBuffer
    ensures Sender(a.Now()) && b.Idle() && Faithful(s)
    ensures s.sock.wire == Flatten(a.toNext) && s.pending == []
    ensures old(Receiver(b.Now())) ==>
      Receiver(b.Now()) && InSync(a.Now(), b.Now()) && Text(b.log.ups) == old(Text(b.log.ups)) + Flatten(msgs)
    ensures !b.log.ditched && !b.log.spoilt ==>
      InSync(a.Now(), b.Now()) && Text(b.log.ups) == old(Text(b.log.ups)) + Flatten(msgs)
    ensures old(Receiver(b.Now())) || (!b.log.ditched && !b.log.spoilt) ==>
      Handed(b.log.ups) == old(Handed(b.log.ups)) + Parts(RecordsOf(old(a.eng), msgs))
  {
    hide Inv, Clean, Quiet, Later, Unharmed, Writable, Said, InSync, AllFit, Meaning, EncodeFrom, ChunksOk, Faithful,
         Flatten, Text, Receiver, Parts, RecordsOf;
    ghost var x0, y0 := a.Now(), b.Now();
    InSyncFacts(x0, y0);
    OutputFacts(x0);
    var old0, before := |a.toNext|, |Flatten(a.toNext)|;
    ghost var more := Send(a, msgs);
    SaidFacts(x0, a.Now(), more, Flatten(msgs));
    OutputFacts(a.Now());
    ChunksSmall(x0.toNext, a.toNext, a.eng.cap);
    Push(s, a.toNext[old0..]);
    Complete(s);
    assert x0.log.emitted == Flatten(x0.toNext) && |x0.log.emitted| <= |s.sock.wire|;
    Receive(b, Cut(s.sock.wire[before..], sizes));
    Delivered(x0, a.Now(), y0, b.Now(), more, Flatten(msgs));
  }

  lemma ChunksSmall(before: seq<seq<byte>>, after: seq<seq<byte>>, cap: nat)
    requires before <= after && ChunksOk(after, cap) && cap <= OP_BUFFER
    ensures forall c <- after[|before|..] :: |c| <= OP_BUFFER
    ensures Flatten(after) == Flatten(before) + Flatten(after[|before|..])
  {
    assert after == before + after[|before|..];
    FlattenAppend(before, after[|before|..]);
  }
}
