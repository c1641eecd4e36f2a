/** Orderly closure of two TLS streams: one side disconnects, the other answers, and the first is told. */
module SecureClosure {
  import opened Bytes
  import opened TlsRecord
  import opened TlsEngine
  import opened TlsSession
  import opened TlsSteps
  import opened T = TlsStream
  import opened TlsRuns
  import opened SecureDelivery

  // ----- what the two sides know of each other -----

  lemma {:induction false} OpenMeaning(k: nat, xs: seq<Content>)
    requires Meaning(k, xs).end == Open
    ensures Meaning(k, xs) == Decoded(Meaning(k, xs).text, Open, k + |xs|, [])
    decreases |xs|
  {
    if xs != [] {
      OpenMeaning(k + 1, xs[1..]);
    }
  }

  /** A reader in step with its writer has read everything: what its session holds is no more than records
      without text, and the next record to come is the writer's next. */
  lemma InStep(x: Snapshot, y: Snapshot)
    requires Inv(x) && Inv(y) && Quiet(y.e) && InSync(x, y)
    ensures Alive(y.e) && NothingToRead(y.e)
    ensures Soaked(y.e) == y.e.(raw := [], inQ := [], recvd := |x.log.sealed|)
  {
    hide Inv, EncodeFrom, Meaning, Decode, ScanRead;
    SealedDecodes(x);
    OpenMeaning(0, x.log.sealed);
    FollowedLink(y);
    if Alive(y.e) {
      ScanDecode(y.e.rd, y.e.recvd, y.e.raw + y.e.inQ);
      assert y.e.raw + y.e.inQ == y.e.raw;
    }
  }

  lemma FollowedLink(y: Snapshot)
    requires Inv(y) && Followed(y.log)
    ensures Linked(y.e, y.log.arrived, Text(y.log.ups))
  {
  }

  lemma SealedDecodes(x: Snapshot)
    requires Inv(x)
    ensures Decode(x.e.wr, 0, EncodeFrom(x.e.wr, 0, x.log.sealed)) == Meaning(0, x.log.sealed)
  {
    DecodeEncode(x.e.wr, 0, x.log.sealed);
  }

  lemma ClosedMeaning(k: nat, xs: seq<Content>)
    requires Meaning(k, xs).end == Open
    ensures Meaning(k, xs + [CloseNotify]).text == Meaning(k, xs).text
    ensures Meaning(k, xs + [CloseNotify]).end == Shut
  {
    OpenMeaning(k, xs);
    MeaningAppend(k, xs, [CloseNotify]);
    assert Meaning(k, xs).text + [] == Meaning(k, xs).text;
  }

  /** The peer's close_notify has arrived and been seen. */
  lemma CloseIsSeen(y: Snapshot)
    requires Rest(y) && Followed(y.log) && Decode(y.e.rd, 0, y.log.arrived).end == Shut
    ensures y.e.got && y.e.phase == Ready
  {
    assert y.e.inQ == [] ==> y.e.raw + y.e.inQ == y.e.raw;
    ScanDecode(y.e.rd, y.e.recvd, y.e.raw + y.e.inQ);
  }

  // ----- the close_notify record on the way -----

  /** Cut off anywhere it is no record yet; whole, it closes. */
  lemma CloseRecord(c: Cipher, k: nat, n: nat)
    requires Lawful(c) && n <= |Record(c, k, CloseNotify)|
    ensures var rec := Record(c, k, CloseNotify);
            ScanRead(c, k, rec[..n]) == if n < |rec| then Starved(k, rec[..n]) else Ended(true, k + 1, [])
  {
    var rec := Record(c, k, CloseNotify);
    RecordShape(c, k, CloseNotify, []);
    assert rec + [] == rec && rec[..|rec|] == rec;
    if n < |rec| {
      TornRecord(c, k, CloseNotify, n);
      ScanDecode(c, k, rec[..n]);
      if HEADER <= n {
        assert rec[..n][0] == rec[0] && rec[..n][3] == rec[3] && rec[..n][4] == rec[4];
      }
    }
  }

  /** `x` has put out one more record since `x0`. */
  lemma OutputSince(x0: Snapshot, x: Snapshot, r: Content)
    requires Rest(x0) && Rest(x) && Later(x0, x) && x0.log.established
    requires x0.e.phase == Ready && x0.e.torn == [] && x.e.phase == Ready && x.e.torn == []
    requires x.log.sealed == x0.log.sealed + [r]
    ensures Flatten(x.toNext) == Flatten(x0.toNext) + Record(x0.e.wr, |x0.log.sealed|, r)
  {
    hide Rest, EncodeFrom, Record, Later, Flatten;
    LaterFacts(x0, x);
    EncodeSnoc(x0.e.wr, 0, x0.log.sealed, r);
    Emitted(x0);
    Emitted(x);
    Regroup(x.log.hello, EncodeFrom(x0.e.wr, 0, x0.log.sealed), Record(x0.e.wr, |x0.log.sealed|, r));
  }

  lemma Emitted(x: Snapshot)
    requires Rest(x) && x.e.phase == Ready && x.e.torn == []
    ensures Flatten(x.toNext) == x.log.hello + EncodeFrom(x.e.wr, 0, x.log.sealed)
  {
    assert Flatten(x.toNext) + [] == Flatten(x.toNext);
    assert x.log.hello + EncodeFrom(x.e.wr, 0, x.log.sealed) + [] == x.log.hello + EncodeFrom(x.e.wr, 0, x.log.sealed);
  }

  // ----- the first side -----

  /** A connected stream that can seal its close_notify, and has neither sent nor received one. */
  ghost predicate MayClose(x: Snapshot) {
    Rest(x) && x.status == Connected && CloseFits(x.e) && !x.e.sent && !x.e.got
  }

  /** It has said close_notify and waits for the peer's, of which `p` has arrived. */
  ghost predicate Awaiting(x: Snapshot, k: nat, p: seq<byte>) {
    && Rest(x) && x.status == Closing && x.e.phase == Ready && x.e.torn == [] && x.e.sent && !x.e.got
    && x.e.raw == p && x.e.inQ == [] && x.e.recvd == k
  }

  lemma BeginsAwaiting(w: Snapshot, x: Snapshot, y: Snapshot)
    requires MayClose(x) && Inv(w) && InSync(w, x)
    requires ShutSays(x.(status := Closing), y) && Rest(y) && Later(x, y)
    ensures Awaiting(y, |w.log.sealed|, []) && y.log.ups == x.log.ups && y.log.sealed == x.log.sealed + [CloseNotify]
    ensures Flatten(y.toNext) == Flatten(x.toNext) + Record(x.e.wr, |x.log.sealed|, CloseNotify)
  {
    InStep(w, x);
    hide Inv, Quiet, Later, InSync, Record, NothingToRead, Soaked;
    assert MayClose(x) ==> x.log.established by { InvFacts(x); }
    OutputSince(x, y, CloseNotify);
  }

  lemma AwaitsMore(x: Snapshot, k: nat, p: seq<byte>, c: seq<byte>, y: Snapshot)
    requires Awaiting(x, k, p) && |c| <= x.e.cap && ShutSays(WithInput(x, c), y) && Rest(y)
    requires Lawful(x.e.rd) && p + c <= Record(x.e.rd, k, CloseNotify)
    ensures if p + c == Record(x.e.rd, k, CloseNotify) then y.status == Closed && x.log.ups + [UpDisconnected] <= y.log.ups
            else Awaiting(y, k, p + c) && y.log.ups == x.log.ups && y.e.rd == x.e.rd && y.e.cap == x.e.cap
  {
    hide Rest, Record, ScanRead, Lawful;
    var rec := Record(x.e.rd, k, CloseNotify);
    assert p + c == rec[..|p + c|];
    CloseRecord(x.e.rd, k, |p + c|);
    var e := WithInput(x, c).e;
    assert x.e.inQ + c == c && c[..|c|] == c;
    assert e == x.e.(inQ := c);
  }

  /** The rest of the closure at the first side: the peer's close_notify comes in any pieces, and with the
      last of them the stream is closed and the layer above told. */
  method Finish(a: TlsStream, ghost k: nat, chunks: seq<seq<byte>>)
    requires Awaiting(a.Now(), k, []) && Lawful(a.eng.rd)
    requires Flatten(chunks) == Record(a.eng.rd, k, CloseNotify)
    requires forall c <- chunks :: 0 < |c| <= a.eng.cap
    modifies a
    ensures a.Idle() && Later(old(a.Now()), a.Now())
    ensures a.status == Closed && old(a.log.ups) + [UpDisconnected] <= a.log.ups
  {
    hide Awaiting, Inv, Clean, Quiet, Later, ShutSays, Record, Lawful;
    ghost var x0 := a.Now();
    LaterReflexive(x0);
    AwaitsClosing(x0, k, []);
    RecordNotEmpty(a.eng.rd, k);
    assert chunks[..0] == [];
    for i := 0 to |chunks|
      invariant a.Idle() && Later(x0, a.Now())
      invariant if i < |chunks| then Awaiting(a.Now(), k, Flatten(chunks[..i])) && a.log.ups == x0.log.ups
                else a.status == Closed && x0.log.ups + [UpDisconnected] <= a.log.ups
    {
      ghost var x := a.Now();
      LaterFacts(x0, x);
      AwaitsClosing(x, k, Flatten(chunks[..i]));
      var _ := a.OnReceived(chunks[i]);
      Progress(chunks, i);
      AwaitsMore(x, k, Flatten(chunks[..i]), chunks[i], a.Now());
      LaterTransitive(x0, x, a.Now());
    }
  }

  lemma AwaitsClosing(x: Snapshot, k: nat, p: seq<byte>)
    requires Awaiting(x, k, p)
    ensures Rest(x) && x.status == Closing
  {
  }

  lemma RecordNotEmpty(c: Cipher, k: nat)
    requires Lawful(c)
    ensures Record(c, k, CloseNotify) != []
  {
    RecordShape(c, k, CloseNotify, []);
  }

  /** Before the last piece something is missing. */
  lemma Progress(chunks: seq<seq<byte>>, i: nat)
    requires i < |chunks| && forall c <- chunks :: 0 < |c|
    ensures Flatten(chunks[..i]) + chunks[i] == Flatten(chunks[..i + 1]) <= Flatten(chunks)
    ensures Flatten(chunks[..i + 1]) == Flatten(chunks) <==> i + 1 == |chunks|
  {
    hide Flatten;
    var done, more := chunks[..i + 1], chunks[i + 1..];
    FlattenSnoc(chunks[..i], chunks[i]);
    assert done == chunks[..i] + [chunks[i]];
    FlattenAppend(done, more);
    assert done + more == chunks;
    forall c | c in more
      ensures 0 < |c|
    {
      assert c in chunks;
    }
    FlattenNotEmpty(more);
    assert |Flatten(chunks)| == |Flatten(done)| + |Flatten(more)|;
  }

  lemma FlattenNotEmpty(chunks: seq<seq<byte>>)
    requires forall c <- chunks :: 0 < |c|
    ensures Flatten(chunks) == [] <==> chunks == []
  {
    if chunks != [] {
      assert chunks[0] in chunks;
    }
  }

  lemma {:induction false} CutPieces(s: seq<byte>, sizes: seq<nat>)
    requires forall n <- sizes :: 0 < n
    ensures forall c <- Cut(s, sizes) :: 0 < |c| <= |s|
    decreases |sizes|
  {
    if sizes != [] && sizes[0] <= |s| {
      assert sizes[0] in sizes && forall n <- sizes[1..] :: n in sizes;
      var rest := Cut(s[sizes[0]..], sizes[1..]);
      CutPieces(s[sizes[0]..], sizes[1..]);
      forall c | c in Cut(s, sizes)
        ensures 0 < |c| <= |s|
      {
        assert c == s[..sizes[0]] || c in rest;
      }
    }
  }

  // ----- the other side -----

  /** Given the whole close_notify and nothing else, the other side answers with its own, without a word to
      the layer above. */
  lemma PeerAnswers(x0: Snapshot, x: Snapshot, y0: Snapshot, y: Snapshot)
    requires Inv(x0) && Inv(x) && Rest(y0) && Rest(y) && InSync(x0, y0) && Receiver(y0)
    requires x.e.wr == x0.e.wr && x.log.sealed == x0.log.sealed + [CloseNotify]
    requires CloseFits(y0.e) && !y0.e.sent
    requires Later(y0, y) && Unharmed(y0, y) && Answered(y0, y) && y.log.established
    requires y.log.arrived == y0.log.arrived + Record(x0.e.wr, |x0.log.sealed|, CloseNotify)
    ensures y.status == PeerClosing && y.log.ups == y0.log.ups
    ensures y.log.sealed == y0.log.sealed + [CloseNotify] && y.e.phase == Ready && y.e.torn == []
  {
    hide Inv, Quiet, Clean, Later, Unharmed, Receiver, Record, Decode, Meaning, EncodeFrom, Text, Linked, Lawful;
    LaterFacts(y0, y);
    InSyncFacts(x0, y0);
    ReceiverFollows(y0, y);
    EncodeSnoc(x0.e.wr, 0, x0.log.sealed, CloseNotify);
    PeerUnderstands(x0, y0);
    PeerUnderstands(x, y);
    ClosedMeaning(0, x0.log.sealed);
    SealedDecodes(x);
    CloseIsSeen(y);
    ReceiverOpen(y0);
  }

  lemma ReceiverOpen(y: Snapshot)
    requires Rest(y) && Receiver(y) && CloseFits(y.e)
    ensures y.e.outQ == [] && y.status == Connected
  {
  }

  // ----- both -----

  /** Orderly closure. Two connected streams have each read all the other has written. When one side
      disconnects, its close_notify reaches the other in any pieces; that side answers with its own and
      is closed by its peer for good, and its application is told nothing; the answer comes back in any
      pieces, and the first side is closed and its application told, once. */
  method CloseRoundTrip(a: TlsStream, b: TlsStream, sizes: seq<nat>, back: seq<nat>)
    requires a != b && MayClose(a.Now()) && Rest(b.Now()) && Receiver(b.Now()) && CloseFits(b.eng) && !b.eng.sent
    requires InSync(a.Now(), b.Now()) && InSync(b.Now(), a.Now())
    requires b.eng.cap <= a.eng.cap && forall n <- back :: 0 < n
    modifies a, b
    ensures a.Idle() && b.Idle()
    ensures a.status == Closed && old(a.log.ups) + [UpDisconnected] <= a.log.ups
    ensures b.status == PeerClosing && b.log.ups == old(b.log.ups)
    ensures b.log.sealed == old(b.log.sealed) + [CloseNotify] && old(a.log.sealed) + [CloseNotify] <= a.log.sealed
  {
    hide Inv, Clean, Quiet, Later, Unharmed, Answered, ShutSays, InSync, Receiver, Record, Flatten, MayClose, CloseFits,
         Awaiting, Inside, Calm;
    ghost var x0, y0 := a.Now(), b.Now();
    var before, before' := Flatten(a.toNext), Flatten(b.toNext);
    ClosingFacts(x0);
    a.Disconnect();
    ghost var x1 := a.Now();
    InsideFacts(x0, x1);
    LaterFacts(x0, x1);
    BeginsAwaiting(y0, x0, x1);
    ClosePieces(y0, x0);
    RecordNotEmpty(x0.e.wr, |x0.log.sealed|);
    ReceiverOpen(y0);
    var notice := Cut(Flatten(a.toNext)[|before|..], sizes);
    assert notice != [] by { assert Flatten<byte>([]) == [] by { FlattenNotEmpty([]); } }
    Receive(b, notice);
    ghost var y1 := b.Now();
    LaterFacts(y0, y1);
    PeerAnswers(x0, x1, y0, y1);
    OutputSince(y0, y1, CloseNotify);
    var answer := Cut(Flatten(b.toNext)[|before'|..], back);
    CutPieces(Flatten(b.toNext)[|before'|..], back);
    Finish(a, |y0.log.sealed|, answer);
    LaterFacts(x1, a.Now());
  }

  lemma ClosingFacts(x: Snapshot)
    requires MayClose(x)
    ensures Inv(x) && Clean(x.e) && Quiet(x.e) && x.status == Connected
  {
  }

  lemma ClosePieces(y: Snapshot, x: Snapshot)
    requires Rest(x) && Rest(y) && InSync(y, x) && CloseFits(y.e)
    ensures x.e.rd == y.e.wr && Lawful(x.e.rd) && Lawful(x.e.wr) && y.log.established && x.log.established
    ensures |Record(y.e.wr, |y.log.sealed|, CloseNotify)| <= y.e.cap
    ensures y.e.phase == Ready && y.e.torn == []
  {
    InvFacts(y);
  }
}
