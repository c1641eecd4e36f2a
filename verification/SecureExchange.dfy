/** Request and response over two TLS streams: what the application of one side writes from inside its
    up-calls is what the other side is handed. */
module SecureExchange {
  import opened Bytes
  import opened TlsRecord
  import opened TlsEngine
  import opened TlsSession
  import opened TlsSteps
  import opened T = TlsStream
  import opened TlsRuns
  import opened SecureDelivery
  import opened SecureClosure

  /** A connected stream that may seal records, under an application that neither disconnects nor writes what
      does not fit. */
  ghost predicate Talker(x: Snapshot) {
    Sender(x) && Receiver(x)
  }

  lemma TalkerFacts(x: Snapshot)
    requires Talker(x)
    ensures Rest(x) && Sender(x) && Receiver(x) && Writes(x) && x.e.phase == Ready && x.e.torn == []
    ensures x.log.established && 0 < x.e.maxFrag <= MAX_PLAINTEXT && x.status == Connected
  {
    InvFacts(x);
    TameFitting(x.e, x.script);
  }

  lemma OutputSinceAll(x0: Snapshot, x: Snapshot, more: seq<Content>)
    requires Rest(x0) && Rest(x) && Later(x0, x) && x0.log.established
    requires x0.e.phase == Ready && x0.e.torn == [] && x.e.phase == Ready && x.e.torn == []
    requires x.log.sealed == x0.log.sealed + more
    ensures Flatten(x.toNext) == Flatten(x0.toNext) + EncodeFrom(x0.e.wr, |x0.log.sealed|, more)
  {
    hide Rest, EncodeFrom, Later, Flatten;
    LaterFacts(x0, x);
    EncodeAppend(x0.e.wr, 0, x0.log.sealed, more);
    Emitted(x0);
    Emitted(x);
    Regroup(x.log.hello, EncodeFrom(x0.e.wr, 0, x0.log.sealed), EncodeFrom(x0.e.wr, |x0.log.sealed|, more));
  }

  /** Since `y0` the application has been asked, and all it wrote then is on its way. */
  ghost predicate Responded(y0: Snapshot, y: Snapshot, bufs: seq<seq<byte>>, more: seq<Content>) {
    && |y.log.ups| >= |y0.log.ups|
    && bufs == Answers(y0.script, |y.log.ups| - |y0.log.ups|) && y.script == Spent(y0.script, |y.log.ups| - |y0.log.ups|)
    && Uttered(y0, y, more, Flatten(bufs))
    && Flatten(y.toNext) == Flatten(y0.toNext) + EncodeFrom(y0.e.wr, |y0.log.sealed|, more)
  }

  lemma Responds(x: Snapshot, y0: Snapshot, y: Snapshot) returns (bufs: seq<seq<byte>>, more: seq<Content>)
    requires Inv(x) && Talker(y0) && Rest(y) && Receiver(y) && InSync(x, y) && Later(y0, y) && Replied(y0, y)
    ensures Talker(y) && Responded(y0, y, bufs, more)
  {
    hide Inv, Later, InSync, Spent, Stays, Answers, Fragments, Tame, EncodeFrom, Meaning, Flatten, FragmentsAll;
    TalkerFacts(y0);
    AliveThere(x, y);
    bufs := Answers(y0.script, |y.log.ups| - |y0.log.ups|);
    more := RecordsOf(y0.e, bufs);
    TameSeals(y0.e, y0.script, |y.log.ups| - |y0.log.ups|);
    if Mute(y0) {
      MuteReplies(y0, |y.log.ups| - |y0.log.ups|);
      assert y0.log.sealed + [] == y0.log.sealed;
    }
    FragmentsAllMeaning(y0.e.maxFrag, |y0.log.sealed|, bufs);
    OutputSinceAll(y0, y, more);
  }

  lemma AliveThere(x: Snapshot, y: Snapshot)
    requires Inv(x) && Rest(y) && InSync(x, y)
    ensures Alive(y.e)
  {
    StillReceiving(x, y);
  }

  lemma StillInSync(y: Snapshot, x0: Snapshot, x: Snapshot)
    requires InSync(y, x0) && Unheard(x0, x) && x.e == x0.e.(sealed := x.e.sealed)
    ensures InSync(y, x)
  {
  }

  lemma StillTalks(x0: Snapshot, x: Snapshot)
    requires Talker(x0) && Sender(x) && Unheard(x0, x) && x.e == x0.e.(sealed := x.e.sealed)
    ensures Talker(x)
  {
    TameAlike(x0.e, x.e, x0.script);
  }

  /** The response has come back. */
  lemma Heard(y0: Snapshot, y: Snapshot, x1: Snapshot, x: Snapshot, bufs: seq<seq<byte>>, more: seq<Content>)
    requires Talker(y0) && Talker(y) && Talker(x1) && Rest(x) && InSync(y0, x1) && Later(y0, y)
    requires Responded(y0, y, bufs, more)
    requires Later(x1, x) && Unharmed(x1, x) && Replied(x1, x)
    requires x.log.arrived == x1.log.arrived + EncodeFrom(y0.e.wr, |y0.log.sealed|, more)
    ensures InSync(y, x) && Text(x.log.ups) == Text(x1.log.ups) + Flatten(bufs)
    ensures Talker(x) && (x1.script == [] ==> x.log.sealed == x1.log.sealed)
  {
    hide Inv, Later, InSync, Unharmed, EncodeFrom, Meaning, Flatten, Text, Answers, Spent, Stays, Tame;
    TalkerFacts(y0);
    TalkerFacts(y);
    TalkerFacts(x1);
    LaterFacts(x1, x);
    LaterFacts(y0, y);
    InSyncFacts(y0, x1);
    ReceiverFollows(x1, x);
    SyncedText(y0, y, x1, x, more, Flatten(bufs));
    StillReceiving(y, x);
    ReceiverIs(x);
    assert x1.log.sealed + [] == x1.log.sealed;
  }

  lemma SaidNext(x0: Snapshot, x: Snapshot, y: Snapshot)
    requires InSync(x0, y) && x.log.sealed == x0.log.sealed && x.e.wr == x0.e.wr
    ensures InSync(x, y)
  {
  }

  lemma {:induction false} PartsOfMessages(maxFrag: nat, k: nat, msgs: seq<seq<byte>>)
    requires 0 < maxFrag <= MAX_PLAINTEXT
    ensures |Parts(FragmentsAll(maxFrag, msgs))| == |FragmentsAll(maxFrag, msgs)|
    decreases |msgs|
  {
    if msgs != [] {
      FragmentsParts(maxFrag, msgs[0]);
      FragmentsMeaning(maxFrag, k, msgs[0]);
      PartsAppend(k, Fragments(maxFrag, msgs[0]), FragmentsAll(maxFrag, msgs[1..]));
      PartsOfMessages(maxFrag, k, msgs[1..]);
    }
  }

  /** The application is called once for each record. */
  lemma AskedOnce(x: Snapshot, y0: Snapshot, y: Snapshot, msgs: seq<seq<byte>>)
    requires Rest(y0) && Rest(y) && y0.status == Connected && y.status == Connected && Later(y0, y) && Replied(y0, y)
    requires 0 < x.e.maxFrag <= MAX_PLAINTEXT
    requires Handed(y.log.ups) == Handed(y0.log.ups) + Parts(RecordsOf(x.e, msgs))
    ensures |y.log.ups| == |y0.log.ups| + |RecordsOf(x.e, msgs)|
  {
    OnlyReceived(y0.log.ups, y.log.ups);
    PartsOfMessages(x.e.maxFrag, 0, msgs);
  }

  /** Request and response. Two connected streams have each read all the other has written, and their
      applications are tame. Whatever one sends, and however the bytes are cut on the way, the other is handed
      exactly that, in one up-call for each record; what its application writes from inside those up-calls, the
      next list of calls for each of them, is handed to the first exactly and in order, however it is cut on the
      way back. Both can go on, and are in step again if the first has said nothing in reply to the reply. */
  method Exchange(a: TlsStream, b: TlsStream, msgs: seq<seq<byte>>, sizes: seq<nat>, back: seq<nat>)
    requires a != b && Talker(a.Now()) && Talker(b.Now()) && AllFit(a.eng, msgs)
    requires InSync(a.Now(), b.Now()) && InSync(b.Now(), a.Now())
    modifies a, b
    ensures Talker(a.Now()) && Talker(b.Now()) && InSync(b.Now(), a.Now())
    ensures Text(b.log.ups) == old(Text(b.log.ups)) + Flatten(msgs)
    ensures var asked := |RecordsOf(old(a.eng), msgs)|;
            && |b.log.ups| == |old(b.log.ups)| + asked && b.script == Spent(old(b.script), asked)
            && Text(a.log.ups) == old(Text(a.log.ups)) + Flatten(Answers(old(b.script), asked))
    ensures old(a.script) == [] ==> InSync(a.Now(), b.Now())
  {
    hide Inv, Clean, Quiet, Later, Unharmed, Writable, Said, InSync, AllFit, Meaning, EncodeFrom, Receiver, Sender,
         Talker, Replied, Responded, Flatten, Text, Answers, Spent, Parts, RecordsOf, Handed;
    ghost var x0, y0 := a.Now(), b.Now();
    TalkerFacts(x0);
    TalkerFacts(y0);
    InSyncFacts(x0, y0);
    OutputFacts(x0);
    var before, before' := |Flatten(a.toNext)|, |Flatten(b.toNext)|;
    ghost var more := Send(a, msgs);
    ghost var x1 := a.Now();
    SaidFacts(x0, x1, more, Flatten(msgs));
    OutputFacts(x1);
    StillInSync(y0, x0, x1);
    StillTalks(x0, x1);
    TalkerFacts(x1);
    Receive(b, Cut(Flatten(a.toNext)[before..], sizes));
    ghost var y1 := b.Now();
    Delivered(x0, x1, y0, y1, more, Flatten(msgs));
    LaterFacts(y0, y1);
    ghost var bufs, reply := Responds(x1, y0, y1);
    TalkerFacts(y1);
    AskedOnce(x0, y0, y1, msgs);
    RespondedFacts(y0, y1, bufs, reply);
    Receive(a, Cut(Flatten(b.toNext)[before'..], back));
    Heard(y0, y1, x1, a.Now(), bufs, reply);
    LaterFacts(x1, a.Now());
    if x0.script == [] { SaidNext(x1, a.Now(), y1); }
  }

  lemma RespondedFacts(y0: Snapshot, y: Snapshot, bufs: seq<seq<byte>>, more: seq<Content>)
    requires Responded(y0, y, bufs, more)
    ensures |y.log.ups| >= |y0.log.ups| && bufs == Answers(y0.script, |y.log.ups| - |y0.log.ups|)
    ensures y.script == Spent(y0.script, |y.log.ups| - |y0.log.ups|)
    ensures Flatten(y.toNext) == Flatten(y0.toNext) + EncodeFrom(y0.e.wr, |y0.log.sealed|, more)
  {
  }
}
