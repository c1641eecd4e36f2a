/** The invariant of a TLS stream, and for each thing the stream does a lemma that it keeps the
    invariant. A stream is seen here as a snapshot of its fields and its history. */
module TlsSteps {
  import opened Bytes
  import opened TlsRecord
  import opened TlsEngine
  import opened TlsSession

  // ----- the invariant -----

  /** No chunk handed down is empty or larger than the BIO or the scratch buffer. */
  predicate ChunksOk(chunks: seq<seq<byte>>, cap: nat) {
    forall w <- chunks :: 0 < |w| <= Min(cap, SCRATCH)
  }

  predicate InSession(s: Status) {
    s == Connected || s == PeerClosing || s == Closing
  }

  /** The history of a stream. */
  datatype Log = Log(
    ups: seq<UpCall>,         // up-calls made
    attempts: nat,            // calls of SSL_connect or SSL_accept
    entered: nat,             // times the status became Connected
    emitted: seq<byte>,       // bytes the session put in the output BIO:
    hello: seq<byte>,         //   the handshake,
    tickets: seq<Content>,    //   then the records sealed with it,
    sealed: seq<Content>,     //   and whole records, those included,
    tail: seq<byte>,          //   then a torn record or an alert
    cut: Content,             // what the last torn record was to hold
    established: bool,        // the handshake completed
    arrived: seq<byte>,       // input since then
    ditched: bool,            // input came while waiting for the peer's close_notify
    spoilt: bool,             // a write with a record torn broke the session
    lost: nat)                // handshake input the BIO did not take

  datatype Snapshot = Snapshot(
    status: Status, e: Engine, script: seq<seq<AppCall>>, toNext: seq<seq<byte>>, log: Log)

  /** A layer above that, from inside its up-calls, never disconnects and writes only what fits. */
  predicate Tame(e: Engine, script: seq<seq<AppCall>>) {
    forall calls <- script :: forall c <- calls :: c.CallWrite? && Fits(e, |c.buf|)
  }

  /** What was handed down and what waits in the output BIO are all that the session emitted. */
  predicate OutputFrom(e: Engine, chunks: seq<seq<byte>>, emitted: seq<byte>) {
    && |e.outQ| <= e.cap
    && emitted == Flatten(chunks) + e.outQ
    && ChunksOk(chunks, e.cap)
  }

  predicate Sealing(e: Engine, h: Log) {
    && h.emitted == h.hello + EncodeFrom(e.wr, 0, h.sealed) + h.tail
    && |h.sealed| == e.sealed
    && (forall x <- h.sealed :: Sealable(x))
    && (e.phase == Ready && e.torn == [] ==> h.tail == [])
    && (Retrying(e) ==> h.cut.App? && Sealable(h.cut) && h.tail + e.torn == Record(e.wr, e.sealed, h.cut))
  }

  predicate Standing(s: Status, e: Engine, h: Log) {
    && (InSession(s) ==> h.established)
    && (h.established ==> e.phase != Handshaking)
    && (e.phase == Ready ==> h.established)
    && (!h.established ==>
          && h.sealed == [] && h.tail == [] && h.ups == [] && h.arrived == []
          && !h.ditched && !h.spoilt && e.torn == [] && !e.sent)
    && (e.phase == Handshaking ==> !e.got)
    && (!InSession(s) && e.phase == Ready ==> e.got && e.sent)
    && (s == Connected && e.sent ==> e.got)
    && (s == PeerClosing ==> e.got && (e.phase == Ready ==> e.sent))
    && (h.ditched ==> s == Closing || e.got)
    && (h.spoilt ==> e.phase == Broken)
  }

  /** Nothing has come between the session's input and the layer above. */
  predicate Followed(h: Log) {
    h.established && !h.ditched && !h.spoilt
  }

  /** The layer above has been handed the meaning of the input, up to what is still held. */
  ghost predicate Reading(e: Engine, h: Log) {
    Followed(h) ==> Linked(e, h.arrived, Text(h.ups)) && InPieces(e, h.arrived, Handed(h.ups))
  }

  predicate Protocol(s: Status, h: Log) {
    && SessionAfter(h.ups) == (if InSession(s) then Up else Down)
    && Entries(h.ups) == h.entered
  }

  /** All but the protocol of up-calls, which lags behind a change of status. */
  ghost predicate Body(x: Snapshot) {
    && EngineOk(x.e)
    && OutputFrom(x.e, x.toNext, x.log.emitted)
    && Sealing(x.e, x.log)
    && Standing(x.status, x.e, x.log)
    && Reading(x.e, x.log)
  }

  ghost predicate Inv(x: Snapshot) {
    Body(x) && Protocol(x.status, x.log)
  }

  /** The session has no text to hand up, nor the end of the input to tell. */
  predicate NothingToRead(e: Engine) {
    Alive(e) ==> ScanRead(e.rd, e.recvd, e.raw + e.inQ).Starved?
  }

  /** What SSL_read leaves of such a session: all input is taken in. */
  function Soaked(e: Engine): Engine {
    if !Alive(e) then e
    else
      match ScanRead(e.rd, e.recvd, e.raw + e.inQ)
      case Starved(k, rest) => e.(raw := rest, inQ := [], recvd := k)
      case _ => e
  }

  /** Between events the session has taken in its input, and holds no complete record. */
  predicate Quiet(e: Engine) {
    && (e.phase == Handshaking ==> e.inQ == [])
    && (Alive(e) ==> e.inQ == [] && ScanRead(e.rd, e.recvd, e.raw).Starved?)
  }

  /** What no call ever takes back. */
  ghost predicate Later(x: Snapshot, y: Snapshot) {
    && y.e.rd == x.e.rd && y.e.wr == x.e.wr && y.e.maxFrag == x.e.maxFrag && y.e.cap == x.e.cap
    && |y.script| <= |x.script| && (Tame(x.e, x.script) ==> Tame(y.e, y.script))
    && x.log.ups <= y.log.ups && x.toNext <= y.toNext && x.log.sealed <= y.log.sealed
    && (x.e.got ==> y.e.got) && (x.e.sent ==> y.e.sent)
    && (x.log.established ==>
          && y.log.established && y.log.hello == x.log.hello && y.log.tickets == x.log.tickets
          && y.e.heard == x.e.heard && (Alive(y.e) ==> Alive(x.e)))
    && (x.status == PeerClosing ==> y.status == PeerClosing)
    && (x.e.phase == Broken ==> y.e.phase == Broken && y.e.got == x.e.got)
    && (x.log.ditched ==> y.log.ditched) && (x.log.spoilt ==> y.log.spoilt)
  }

  /** What holds of everything the layer above can do from inside an up-call. */
  ghost predicate Inside(x: Snapshot, y: Snapshot) {
    && Later(x, y)
    && |y.e.inQ| <= |x.e.inQ|
    && |y.e.raw| + |y.e.inQ| <= |x.e.raw| + |x.e.inQ|
    && y.log.established == x.log.established && y.log.arrived == x.log.arrived
    && y.log.ditched == x.log.ditched && y.log.lost == x.log.lost
    && y.log.hello == x.log.hello && y.log.tickets == x.log.tickets
    && y.e.heard == x.e.heard && y.e.refused == x.e.refused
    && y.log.attempts == x.log.attempts && y.log.entered == x.log.entered
    && (x.e.phase == Handshaking <==> y.e.phase == Handshaking)
    && (y.status == Connected ==> x.status == Connected)
    && (InSession(x.status) || y.status == x.status)
  }

  /** A working session stays as it is unless the layer above disconnects, or breaks it by writing when
      a record is torn. */
  predicate Calm(x: Snapshot, y: Snapshot) {
    x.e.phase == Ready ==> Working(x, y) || y.e.sent || Spoilt(x.e, y.e)
  }

  predicate Working(x: Snapshot, y: Snapshot) {
    y.e.phase == Ready && y.status == x.status && y.e.got == x.e.got
  }

  predicate Spoilt(e: Engine, e1: Engine) {
    e1.phase == Broken && e1.got == e.got
  }

  /** A tame layer above changes neither the status nor what is received. */
  predicate Docile(x: Snapshot, y: Snapshot) {
    Tame(x.e, x.script) && !Retrying(x.e) ==>
      y.status == x.status && !Retrying(y.e) && y.log.spoilt == x.log.spoilt
  }

  /** Nor does anything else that happens to the stream then, as long as nothing is written that does not
      fit and nobody disconnects: input is never thrown away, and a connection ends only by the peer. */
  predicate Unharmed(x: Snapshot, y: Snapshot) {
    Tame(x.e, x.script) && !Retrying(x.e) && x.status != Closing ==>
      && y.status != Closing && !Retrying(y.e)
      && y.log.spoilt == x.log.spoilt && y.log.ditched == x.log.ditched
      && (x.status == Connected ==> y.status == Connected || y.status == PeerClosing)
  }

  lemma UnharmedTransitive(x: Snapshot, y: Snapshot, z: Snapshot)
    requires Later(x, y) && Later(y, z) && Unharmed(x, y) && Unharmed(y, z)
    ensures Unharmed(x, z)
  {
    hide Tame;
  }

  lemma UnharmedReflexive(x: Snapshot)
    ensures Unharmed(x, x)
  {
    hide Tame;
  }

  /** Nothing is sealed unless there was something to hand up. */
  predicate Hushed(x: Snapshot, y: Snapshot) {
    || |Text(y.log.ups)| > |Text(x.log.ups)|
    || (&& y.status == x.status && y.log.ups == x.log.ups && y.log.sealed == x.log.sealed
        && y.e.sealed == x.e.sealed && y.e.torn == x.e.torn && y.e.sent == x.e.sent)
  }

  lemma {:induction false} TextGrows(ups: seq<UpCall>, more: seq<UpCall>)
    requires ups <= more
    ensures |Text(ups)| <= |Text(more)|
    decreases |more|
  {
    if |ups| < |more| {
      TextGrows(ups, more[..|more| - 1]);
    } else {
      assert ups == more;
    }
  }

  lemma HushedTransitive(x: Snapshot, y: Snapshot, z: Snapshot)
    requires Hushed(x, y) && Hushed(y, z) && Later(x, y) && Later(y, z)
    ensures Hushed(x, z)
  {
    TextGrows(x.log.ups, y.log.ups);
    TextGrows(y.log.ups, z.log.ups);
  }

  /** Something was handed up, whatever the layer above did then. */
  lemma HushedAfter(x: Snapshot, y: Snapshot, z: Snapshot)
    requires |Text(y.log.ups)| > |Text(x.log.ups)| && Later(y, z)
    ensures Hushed(x, z)
  {
    TextGrows(y.log.ups, z.log.ups);
  }

  /** What input to a connected stream does unless there was something to hand up: nothing is sealed but, if
      it is due and fits, the answer to the peer's close_notify. */
  ghost predicate Answered(x: Snapshot, y: Snapshot) {
    || |Text(y.log.ups)| > |Text(x.log.ups)|
    || (&& y.log.ups == x.log.ups
        && (if y.status == Connected then
              && y.log.sealed == x.log.sealed && y.e.sealed == x.e.sealed && y.e.torn == x.e.torn
              && y.e.sent == x.e.sent && (y.e.got ==> y.e.sent)
            else
              && y.status == PeerClosing
              && (CloseFits(x.e.(outQ := [])) && y.e.phase == Ready ==>
                    y.log.sealed == x.log.sealed + [CloseNotify] && y.e.torn == [])))
  }

  lemma AnsweredTransitive(x: Snapshot, y: Snapshot, z: Snapshot)
    requires Inv(y) && y.log.established && Later(x, y) && Later(y, z) && Answered(x, y)
    requires y.status == Connected ==> Answered(y, z)
    requires y.status == PeerClosing ==> z == y.(log := y.log.(arrived := z.log.arrived))
    ensures Answered(x, z)
  {
    hide Inv, Text, Record;
    TextGrows(x.log.ups, y.log.ups);
    TextGrows(y.log.ups, z.log.ups);
    InvFacts(y);
  }

  // ----- what the layer above does is done -----

  /** Between `x` and `y` each up-call has given the layer above its next list of calls, once; `k` up-calls are
      owed their list at `x` and not at `y`. A stream still connected was asked in none of them to disconnect. */
  predicate Popped(x: Snapshot, y: Snapshot, k: int) {
    && 0 <= |y.log.ups| - |x.log.ups| + k
    && var m := |y.log.ups| - |x.log.ups| + k;
       && y.script == Spent(x.script, m)
       && (y.status == Connected ==> Stays(x.script, m))
  }

  /** A session that seals nothing any more. */
  predicate Sealless(e: Engine) {
    e.phase != Ready || e.sent
  }

  /** Nothing the layer above may do in its up-calls can be sealed. */
  predicate Mute(x: Snapshot) {
    x.status != Connected || x.script == [] || Sealless(x.e)
  }

  /** What the layer above writes from inside its up-calls fits; it may disconnect there. */
  predicate Fitting(e: Engine, script: seq<seq<AppCall>>) {
    forall calls <- script :: forall c <- calls :: c.CallWrite? ==> Fits(e, |c.buf|)
  }

  /** Such a layer above, on a session that may seal records. */
  predicate Writes(x: Snapshot) {
    x.status == Connected && Fitting(x.e, x.script) && Writable(x.e)
  }

  /** What a session seals of several buffers that fit. */
  function RecordsOf(e: Engine, bufs: seq<seq<byte>>): seq<Content> {
    if e.maxFrag > 0 then FragmentsAll(e.maxFrag, bufs) else []
  }

  /** The last record, if it fits the empty output BIO. */
  function Farewell(e: Engine): seq<Content> {
    if HEADER + PlainLength(CloseNotify) + e.wr.expansion <= e.cap then [CloseNotify] else []
  }

  /** What calls of the layer above seal: the records of the buffers written, up to the first disconnect and
      the last record. */
  function CallsSeal(e: Engine, calls: seq<AppCall>): seq<Content> {
    if calls == [] then []
    else
      match calls[0]
      case CallWrite(buf) => RecordsOf(e, [buf]) + CallsSeal(e, calls[1..])
      case CallDisconnect => Farewell(e)
  }

  /** And what so many up-calls do. */
  function UpsSeal(e: Engine, script: seq<seq<AppCall>>, m: nat): seq<Content>
    decreases m
  {
    if m == 0 || script == [] then []
    else CallsSeal(e, script[0]) + if CallDisconnect in script[0] then [] else UpsSeal(e, script[1..], m - 1)
  }

  /** Besides, what is sealed is exactly what the layer above had sealed in those up-calls, in order. */
  predicate Obeyed(x: Snapshot, y: Snapshot, k: int) {
    && Popped(x, y, k) && (y.status == PeerClosing ==> x.status == PeerClosing)
    && (Mute(x) ==> y.log.sealed == x.log.sealed && y.e.torn == x.e.torn)
    && (Writes(x) ==>
          && y.log.sealed == x.log.sealed + UpsSeal(x.e, x.script, |y.log.ups| - |x.log.ups| + k)
          && (y.status != Connected ==> !Stays(x.script, |y.log.ups| - |x.log.ups| + k))
          && (y.e.phase == Ready && y.status == Connected ==> Writes(y)))
  }

  /** What input to a connected stream seals, text or not, if what the layer above writes fits and can be
      sealed, or it has nothing to say: its writes and perhaps its disconnect, or after them the answer to the
      peer's close_notify, if one is due and fits. */
  predicate Replied(x: Snapshot, y: Snapshot) {
    && Popped(x, y, 0) && StillHeard(x, y)
    && (Mute(x) || Writes(x) ==> SealedOwn(x, y))
  }

  /** It can go on as before while the stream stays connected. */
  predicate StillHeard(x: Snapshot, y: Snapshot) {
    && (!Alive(x.e) ==> y.log.ups == x.log.ups) && y.log.entered == x.log.entered
    && (y.status == Connected && Mute(x) ==> y.e.torn == x.e.torn)
    && (y.status == Connected && y.e.phase == Ready && Writes(x) ==> Writes(y))
  }

  predicate SealedOwn(x: Snapshot, y: Snapshot) {
    && (y.status != PeerClosing ==> y.log.sealed == x.log.sealed + Own(x, y))
    && (y.status == PeerClosing ==> y.log.sealed == x.log.sealed + Own(x, y) + LastWord(x, y))
  }

  function Own(x: Snapshot, y: Snapshot): seq<Content> {
    if Mute(x) || |y.log.ups| < |x.log.ups| then []
    else UpsSeal(x.e, x.script, |y.log.ups| - |x.log.ups|)
  }

  function LastWord(x: Snapshot, y: Snapshot): seq<Content> {
    if y.e.phase == Ready && CloseFits(x.e.(outQ := [])) then [CloseNotify] else []
  }

  lemma PoppedTransitive(x: Snapshot, y: Snapshot, z: Snapshot, k: int, j: int)
    requires Popped(x, y, k) && Popped(y, z, j) && (z.status == Connected ==> y.status == Connected)
    ensures Popped(x, z, k + j)
  {
    hide Spent, Stays;
    ScriptSplit(x.script, |y.log.ups| - |x.log.ups| + k, |z.log.ups| - |y.log.ups| + j);
  }

  lemma RecordsAppend(e: Engine, bufs: seq<seq<byte>>, more: seq<seq<byte>>)
    ensures RecordsOf(e, bufs + more) == RecordsOf(e, bufs) + RecordsOf(e, more)
  {
    if e.maxFrag > 0 {
      FragmentsAppend(e.maxFrag, bufs, more);
    }
  }

  lemma RecordsSame(e: Engine, e1: Engine, bufs: seq<seq<byte>>)
    requires e1.maxFrag == e.maxFrag
    ensures RecordsOf(e1, bufs) == RecordsOf(e, bufs) && RecordsOf(e, []) == []
  {
  }

  /** Nothing is taken back, and a connection not begun. */
  ghost predicate Onward(x: Snapshot, y: Snapshot) {
    && Later(x, y)
    && (y.status == Connected ==> x.status == Connected)
    && (x.e.phase == Handshaking ==> y.e.phase == Handshaking)
  }

  lemma InsideOnward(x: Snapshot, y: Snapshot)
    requires Inside(x, y)
    ensures Onward(x, y)
  {
  }

  lemma MuteStays(x: Snapshot, y: Snapshot)
    requires Onward(x, y)
    ensures (Mute(x) ==> Mute(y)) && (Sealless(x.e) ==> Sealless(y.e))
  {
    hide Tame;
  }

  lemma OnwardFacts(x: Snapshot, y: Snapshot)
    requires Onward(x, y)
    ensures y.e.maxFrag == x.e.maxFrag && y.e.cap == x.e.cap && y.e.wr == x.e.wr
    ensures y.status == Connected ==> x.status == Connected
    ensures y.e.phase == Ready ==> x.e.phase == Ready
  {
    hide Tame;
  }

  lemma CallsSame(e: Engine, e1: Engine, calls: seq<AppCall>)
    requires e1.maxFrag == e.maxFrag && e1.cap == e.cap && e1.wr == e.wr
    ensures CallsSeal(e1, calls) == CallsSeal(e, calls)
  {
  }

  lemma {:induction false} UpsSame(e: Engine, e1: Engine, script: seq<seq<AppCall>>, m: nat)
    requires e1.maxFrag == e.maxFrag && e1.cap == e.cap && e1.wr == e.wr
    ensures UpsSeal(e1, script, m) == UpsSeal(e, script, m)
    decreases m
  {
    if m > 0 && script != [] {
      CallsSame(e, e1, script[0]);
      UpsSame(e, e1, script[1..], m - 1);
    }
  }

  /** More up-calls seal more, as long as the layer above has not disconnected. */
  lemma {:induction false} UpsSplit(e: Engine, script: seq<seq<AppCall>>, m: nat, n: nat)
    ensures UpsSeal(e, script, m + n) ==
      UpsSeal(e, script, m) + if Stays(script, m) then UpsSeal(e, Spent(script, m), n) else []
    decreases m
  {
    hide CallsSeal;
    if m == 0 {
      assert [] + UpsSeal(e, script, n) == UpsSeal(e, script, n);
    } else if script != [] {
      UpsSplit(e, script[1..], m - 1, n);
      Regroup(CallsSeal(e, script[0]), UpsSeal(e, script[1..], m - 1),
              if Stays(script[1..], m - 1) then UpsSeal(e, Spent(script, m), n) else []);
    } else {
      SpentNothing(m);
    }
  }

  /** If it never disconnects, these are the records of all it wrote. */
  lemma {:induction false} TameSeals(e: Engine, script: seq<seq<AppCall>>, m: nat)
    requires Tame(e, script)
    ensures UpsSeal(e, script, m) == RecordsOf(e, Answers(script, m))
    decreases m
  {
    RecordsSame(e, e, []);
    if m > 0 && script != [] {
      assert script[0] in script && forall calls <- script[1..] :: calls in script;
      assert forall c <- script[0] :: c.CallWrite?;
      TameSeals(e, script[1..], m - 1);
      WritesSeal(e, script[0]);
      RecordsAppend(e, Bufs(script[0]), Answers(script[1..], m - 1));
    }
  }

  lemma {:induction false} WritesSeal(e: Engine, calls: seq<AppCall>)
    requires forall c <- calls :: c.CallWrite?
    ensures CallsSeal(e, calls) == RecordsOf(e, Bufs(calls))
    decreases |calls|
  {
    RecordsSame(e, e, []);
    if calls != [] {
      assert calls[0] in calls && forall c <- calls[1..] :: c in calls;
      WritesSeal(e, calls[1..]);
      RecordsAppend(e, [calls[0].buf], Bufs(calls[1..]));
    }
  }

  lemma TameFitting(e: Engine, script: seq<seq<AppCall>>)
    requires Tame(e, script)
    ensures Fitting(e, script)
  {
  }

  lemma ObeyedTransitive(x: Snapshot, y: Snapshot, z: Snapshot, k: int, j: int)
    requires Obeyed(x, y, k) && Obeyed(y, z, j) && Onward(x, y) && Onward(y, z)
    requires y.e.phase == Ready || x.status != Connected
          || (z.log.ups == y.log.ups && j == 0 && z.status == y.status)
    ensures Obeyed(x, z, k + j)
  {
    hide Spent, Stays, UpsSeal, Onward, Mute, Fitting, Writable, Popped;
    OnwardFacts(x, y);
    OnwardFacts(y, z);
    MuteStays(x, y);
    PoppedTransitive(x, y, z, k, j);
    if Writes(x) {
      var m, n := |y.log.ups| - |x.log.ups| + k, |z.log.ups| - |y.log.ups| + j;
      PoppedFacts(x, y, k);
      PoppedFacts(y, z, j);
      ScriptSplit(x.script, m, n);
      UpsSplit(x.e, x.script, m, n);
      UpsSame(x.e, y.e, y.script, n);
      Regroup(x.log.sealed, UpsSeal(x.e, x.script, m), UpsSeal(x.e, y.script, n));
      assert x.log.sealed + UpsSeal(x.e, x.script, m) + [] == x.log.sealed + UpsSeal(x.e, x.script, m);
      if y.e.phase != Ready || y.status != Connected {
        Silent(y);
        NoAnswers(y.script);
        NothingSealed(y.e, y.script);
      }
    }
  }

  lemma PoppedFacts(x: Snapshot, y: Snapshot, k: int)
    requires Popped(x, y, k)
    ensures 0 <= |y.log.ups| - |x.log.ups| + k
    ensures y.script == Spent(x.script, |y.log.ups| - |x.log.ups| + k)
    ensures y.status == Connected ==> Stays(x.script, |y.log.ups| - |x.log.ups| + k)
  {
  }

  lemma NoAnswers(script: seq<seq<AppCall>>)
    ensures Answers(script, 0) == [] && Spent(script, 0) == script && Stays(script, 0)
  {
  }

  lemma NothingSealed(e: Engine, script: seq<seq<AppCall>>)
    ensures UpsSeal(e, script, 0) == []
  {
  }

  lemma Silent(y: Snapshot)
    requires y.e.phase != Ready || y.status != Connected
    ensures Mute(y) && !Writes(y)
  {
  }

  /** Steps that are no business of the layer above. */
  lemma ObeyedStep(x: Snapshot, y: Snapshot, k: int)
    requires y.script == x.script && |y.log.ups| + k == |x.log.ups| && y.log.sealed == x.log.sealed
    requires y.status == x.status && y.e.sent == x.e.sent && y.e.torn == x.e.torn
    requires y.e.maxFrag == x.e.maxFrag && y.e.cap == x.e.cap && y.e.wr == x.e.wr
    ensures Obeyed(x, y, k)
  {
    NoAnswers(x.script);
    assert x.log.sealed + [] == x.log.sealed;
  }

  /** No layer above is left to answer. */
  lemma ObeyedNothing(x: Snapshot)
    requires x.script == []
    ensures Obeyed(x, x, 1)
  {
    assert x.log.sealed + [] == x.log.sealed;
  }

  /** The layer above, asked to at `w`, has made the first `i` of its calls. */
  ghost predicate Calling(w: Snapshot, y: Snapshot, calls: seq<AppCall>, i: nat)
    requires i <= |calls|
  {
    && w.script != [] && w.script[0] == calls && |w.log.ups| <= |y.log.ups|
    && y.e.maxFrag == w.e.maxFrag && y.e.cap == w.e.cap && y.e.wr == w.e.wr
    && y.script == Spent(w.script[1..], |y.log.ups| - |w.log.ups|)
    && (y.status == Connected ==>
          CallDisconnect !in calls[..i] && Stays(w.script[1..], |y.log.ups| - |w.log.ups|))
    && (w.status != Connected ==> y.status != Connected) && (y.status == PeerClosing ==> w.status == PeerClosing)
    && (Sealless(w.e) ==> Sealless(y.e))
    && (Mute(w) ==> y.log.sealed == w.log.sealed && y.e.torn == w.e.torn)
    && (Writes(w) ==>
          && y.log.sealed == w.log.sealed + CallsSeal(w.e, calls[..i])
          && if CallDisconnect in calls[..i] then y.status != Connected
             else y.log.ups == w.log.ups && y.status == Connected && Writable(y.e))
  }

  lemma CallingBegins(x: Snapshot, calls: seq<AppCall>)
    ensures Calling(x.(script := [calls] + x.script), x, calls, 0)
  {
    assert calls[..0] == [] && x.log.sealed + [] == x.log.sealed;
  }

  lemma {:induction false} CallsSnoc(e: Engine, calls: seq<AppCall>, c: AppCall)
    ensures CallsSeal(e, calls + [c]) ==
      CallsSeal(e, calls) + if CallDisconnect in calls then [] else CallsSeal(e, [c])
    decreases |calls|
  {
    var last := CallsSeal(e, [c]);
    if calls == [] {
      assert calls + [c] == [c] && [] + last == last;
    } else {
      assert (calls + [c])[0] == calls[0] && (calls + [c])[1..] == calls[1..] + [c];
      hide RecordsOf, Farewell;
      if calls[0].CallWrite? {
        CallsSnoc(e, calls[1..], c);
        Regroup(RecordsOf(e, [calls[0].buf]), CallsSeal(e, calls[1..]), if CallDisconnect in calls then [] else last);
      } else {
        assert calls[0] == CallDisconnect && Farewell(e) + [] == Farewell(e);
      }
    }
  }

  /** What one call seals. */
  lemma OneCall(e: Engine, c: AppCall)
    requires e.maxFrag > 0
    ensures CallsSeal(e, [c]) == if c.CallWrite? then Fragments(e.maxFrag, c.buf) else Farewell(e)
  {
    if c.CallWrite? {
      assert FragmentsAll(e.maxFrag, [c.buf]) == Fragments(e.maxFrag, c.buf) + FragmentsAll(e.maxFrag, []);
      assert [c][1..] == [];
    }
  }

  lemma CallsMore(e: Engine, calls: seq<AppCall>, i: nat)
    requires i < |calls| && e.maxFrag > 0
    ensures CallDisconnect in calls[..i + 1] <==> CallDisconnect in calls[..i] || calls[i] == CallDisconnect
    ensures CallsSeal(e, calls[..i + 1]) ==
      CallsSeal(e, calls[..i]) + if CallDisconnect in calls[..i] then []
                                 else if calls[i].CallWrite? then Fragments(e.maxFrag, calls[i].buf) else Farewell(e)
  {
    hide CallsSeal, Fragments, Farewell;
    assert calls[..i + 1] == calls[..i] + [calls[i]];
    CallsSnoc(e, calls[..i], calls[i]);
    OneCall(e, calls[i]);
  }

  /** What a `write` is to the layer above and to its peer. */
  predicate Wrote(y: Snapshot, z: Snapshot, buf: seq<byte>) {
    && z.log.ups == y.log.ups && z.script == y.script && z.status == y.status && Conserves(y, z)
    && (y.status != Connected || Sealless(y.e) ==>
          Sealless(y.e) == Sealless(z.e) && z.log.sealed == y.log.sealed && z.e.torn == y.e.torn)
    && (y.status == Connected && Writable(y.e) && Fits(y.e, |buf|) && y.e.maxFrag > 0 ==>
          Writable(z.e) && z.log.sealed == y.log.sealed + Fragments(y.e.maxFrag, buf))
  }

  lemma FittingFits(e: Engine, script: seq<seq<AppCall>>, i: nat)
    requires Fitting(e, script) && script != [] && i < |script[0]| && script[0][i].CallWrite?
    ensures Fits(e, |script[0][i].buf|)
  {
    assert script[0] in script && script[0][i] in script[0];
  }

  lemma CallWrites(w: Snapshot, y: Snapshot, z: Snapshot, calls: seq<AppCall>, i: nat)
    requires i < |calls| && Calling(w, y, calls, i) && calls[i].CallWrite? && w.e.maxFrag > 0
    requires Wrote(y, z, calls[i].buf)
    requires z.e.maxFrag == y.e.maxFrag && z.e.cap == y.e.cap && z.e.wr == y.e.wr
    ensures Calling(w, z, calls, i + 1)
  {
    hide Fragments, Spent, Stays, CallsSeal, Farewell, Conserves, Fitting, Fits;
    CallsMore(w.e, calls, i);
    if Writes(w) {
      FittingFits(w.e, w.script, i);
      SameFit(w.e, y.e, |calls[i].buf|);
      Regroup(w.log.sealed, CallsSeal(w.e, calls[..i]), Fragments(w.e.maxFrag, calls[i].buf));
      assert w.log.sealed + CallsSeal(w.e, calls[..i]) + [] == w.log.sealed + CallsSeal(w.e, calls[..i]);
    }
  }

  /** What a call does to the reading side. */
  lemma CallConserves(y: Snapshot, z: Snapshot, call: AppCall)
    requires y.status == Connected && y.e.sent ==> y.e.got
    requires call.CallWrite? ==> Wrote(y, z, call.buf)
    requires call.CallDisconnect? ==> if y.status != Connected then z == y else ShutSays(y.(status := Closing), z)
    ensures Conserves(y, z)
  {
    hide Handed, Unread;
    if call.CallDisconnect? && y.status == Connected {
      ClosureConserves(y.(status := Closing), z);
    }
  }

  /** The layer above, asked to at `w` and given its list at `x`, has made the first `i` of its calls. */
  ghost predicate Called(w: Snapshot, x: Snapshot, y: Snapshot, calls: seq<AppCall>, i: nat)
    requires i <= |calls|
  {
    Inside(x, y) && Calm(x, y) && Docile(w, y) && Calling(w, y, calls, i) && Conserves(x, y)
  }

  lemma CalledBegins(x: Snapshot, calls: seq<AppCall>)
    ensures Called(x.(script := [calls] + x.script), x, x, calls, 0)
  {
    hide Inside, Calm, Docile, Calling, Conserves;
    InsideReflexive(x);
    DocileBegins(x, calls);
    CallingBegins(x, calls);
    ConservesSame(x, x);
  }

  lemma CallMade(w: Snapshot, x: Snapshot, y: Snapshot, z: Snapshot, calls: seq<AppCall>, i: nat)
    requires i < |calls| && Called(w, x, y, calls, i) && Inv(y) && Clean(y.e) && Inside(y, z) && Calm(y, z)
    requires w == x.(script := w.script) && w.script != [] && w.script[0] == calls
    requires calls[i].CallWrite? ==>
      var n := |calls[i].buf|;
      Wrote(y, z, calls[i].buf) && (!Retrying(y.e) && Fits(y.e, n) ==> !Retrying(z.e) && z.log.spoilt == y.log.spoilt)
    requires calls[i].CallDisconnect? ==> if y.status != Connected then z == y
                                          else z.status != Connected && ShutSays(y.(status := Closing), z)
    ensures Called(w, x, z, calls, i + 1) && |z.script| <= |y.script|
  {
    hide Inv, Body, Protocol, EngineOk, Inside, Calm, Clean, Docile, Calling, Conserves, ShutSays, Onward, Fits, Later,
         Tame;
    InvFacts(y);
    InsideTransitive(x, y, z);
    InsideFacts(x, y);
    InsideFacts(y, z);
    InsideOnward(x, y);
    InsideOnward(y, z);
    OnwardFacts(x, y);
    OnwardFacts(y, z);
    CallConserves(y, z, calls[i]);
    ConservesTransitive(x, y, z);
    DocileCall(w, y, z, calls, i);
    if calls[i].CallWrite? {
      CallWrites(w, y, z, calls, i);
    } else {
      CallDisconnects(w, y, z, calls, i);
    }
  }

  lemma CalledEnds(w: Snapshot, x: Snapshot, y: Snapshot, calls: seq<AppCall>)
    requires Called(w, x, y, calls, |calls|)
    ensures Inside(x, y) && Calm(x, y) && Docile(w, y) && Obeyed(w, y, 1) && Conserves(x, y)
  {
    hide Inside, Calm, Docile, Calling, Conserves, Obeyed;
    CallingEnds(w, y, calls);
  }

  lemma Unasked(x: Snapshot, y: Snapshot, script: seq<seq<AppCall>>)
    requires Conserves(x, y)
    ensures Conserves(x.(script := script), y)
  {
    hide Handed, Unread;
  }

  /** close_notify fits the empty output BIO by its size. */
  lemma CloseSize(e: Engine)
    requires EngineOk(e) && e.phase == Ready && e.torn == [] && e.outQ == []
    ensures Farewell(e) == if CloseFits(e) then [CloseNotify] else []
  {
    hide Record, Lawful;
    RecordShape(e.wr, e.sealed, CloseNotify, []);
  }

  lemma CallDisconnects(w: Snapshot, y: Snapshot, z: Snapshot, calls: seq<AppCall>, i: nat)
    requires i < |calls| && Calling(w, y, calls, i) && calls[i].CallDisconnect? && w.e.maxFrag > 0
    requires if y.status != Connected then z == y else z.status != Connected && ShutSays(y.(status := Closing), z)
    requires Onward(y, z) && EngineOk(y.e) && Clean(y.e)
    ensures Calling(w, z, calls, i + 1)
  {
    hide Spent, Stays, CallsSeal, Later, NothingToRead, Soaked, ScanRead, Record, Farewell, Fitting, EngineOk, Conserves,
         Flatten, ShutdownStep;
    CallsMore(w.e, calls, i);
    OnwardFacts(y, z);
    MuteStays(y, z);
    assert y.log.sealed + [] == y.log.sealed;
    if y.status == Connected {
      ScriptSplit(w.script[1..], |y.log.ups| - |w.log.ups|, |z.log.ups| - |y.log.ups|);
      if Writes(w) {
        CloseSize(y.e);
        FarewellSame(w.e, y.e);
        Regroup(w.log.sealed, CallsSeal(w.e, calls[..i]), Farewell(w.e));
      }
    } else {
      assert w.log.sealed + CallsSeal(w.e, calls[..i]) + [] == w.log.sealed + CallsSeal(w.e, calls[..i]);
      assert CallsSeal(w.e, calls[..i]) + [] == CallsSeal(w.e, calls[..i]);
    }
  }

  lemma FarewellSame(e: Engine, e1: Engine)
    requires e1.cap == e.cap && e1.wr == e.wr
    ensures Farewell(e1) == Farewell(e)
  {
  }

  lemma FittingRest(e: Engine, e1: Engine, script: seq<seq<AppCall>>)
    requires Fitting(e, script) && script != [] && e1.maxFrag == e.maxFrag && e1.cap == e.cap && e1.wr == e.wr
    ensures Fitting(e1, script[1..])
  {
    assert forall calls <- script[1..] :: calls in script;
  }

  lemma CallingEnds(w: Snapshot, y: Snapshot, calls: seq<AppCall>)
    requires Calling(w, y, calls, |calls|)
    ensures Obeyed(w, y, 1)
  {
    hide CallsSeal, Fitting;
    assert calls[..|calls|] == calls;
    if Writes(w) {
      assert CallsSeal(w.e, calls) + [] == CallsSeal(w.e, calls);
      NoAnswers(w.script[1..]);
      NothingSealed(w.e, w.script[1..]);
      FittingRest(w.e, y.e, w.script);
    }
  }

  lemma HushedReflexive(x: Snapshot)
    ensures Hushed(x, x)
  {
  }

  /** The texts the session has not read yet. */
  function Unread(e: Engine): seq<seq<byte>> {
    if Alive(e) then Pieces(e.rd, e.recvd, e.raw + e.inQ) else []
  }

  /** Between `x` and `y` texts have only moved from the session to the layer above, each record in an up-call
      of its own, unless a write with a record torn broke the session. */
  predicate Conserves(x: Snapshot, y: Snapshot) {
    || (y.log.spoilt && !x.log.spoilt)
    || Handed(y.log.ups) + Unread(y.e) == Handed(x.log.ups) + Unread(x.e)
  }

  lemma ConservesTransitive(x: Snapshot, y: Snapshot, z: Snapshot)
    requires Conserves(x, y) && Conserves(y, z) && Later(x, y) && Later(y, z)
    ensures Conserves(x, z)
  {
    hide Tame, Handed, Unread;
  }

  lemma ConservesSame(x: Snapshot, y: Snapshot)
    requires Handed(y.log.ups) == Handed(x.log.ups)
    requires y.e == x.e.(outQ := y.e.outQ, sealed := y.e.sealed, torn := y.e.torn, tornLen := y.e.tornLen, sent := y.e.sent)
    ensures Conserves(x, y)
  {
    hide Handed;
  }

  /** All are handed up if the session is left with nothing to read. */
  lemma ConservesAll(x: Snapshot, y: Snapshot)
    requires Conserves(x, y) && Quiet(y.e) && (y.log.spoilt ==> x.log.spoilt)
    ensures Handed(y.log.ups) == Handed(x.log.ups) + Unread(x.e)
  {
    hide Handed;
    if Alive(y.e) {
      assert y.e.raw + y.e.inQ == y.e.raw;
      ScanPieces(y.e.rd, y.e.recvd, y.e.raw);
    }
    assert Handed(y.log.ups) + [] == Handed(y.log.ups);
  }

  /** No answer to the peer's close_notify is owed any more, or ever. */
  predicate Gone(e: Engine) {
    e.sent || (e.phase == Broken && !e.got)
  }

  lemma DocileReflexive(x: Snapshot)
    ensures Docile(x, x)
  {
  }

  lemma OutputDocile(x: Snapshot, y: Snapshot)
    requires y == x.(e := x.e.(outQ := []), toNext := y.toNext, log := x.log.(ups := y.log.ups))
    ensures Docile(x, y)
  {
  }

  lemma DocileBegins(x: Snapshot, calls: seq<AppCall>)
    ensures Docile(x.(script := [calls] + x.script), x)
  {
  }

  /** One call of the layer above: a write, which leaves the status alone, or a disconnect. */
  lemma DocileCall(w: Snapshot, y: Snapshot, z: Snapshot, calls: seq<AppCall>, i: nat)
    requires i < |calls| && w.script != [] && w.script[0] == calls && Docile(w, y)
    requires y.e.maxFrag == w.e.maxFrag && y.e.cap == w.e.cap && y.e.wr == w.e.wr
    requires calls[i].CallWrite? ==> z.status == y.status
    requires calls[i].CallWrite? && !Retrying(y.e) && Fits(y.e, |calls[i].buf|) ==>
      !Retrying(z.e) && z.log.spoilt == y.log.spoilt
    ensures Docile(w, z)
  {
    assert w.script[0] in w.script && calls[i] in calls;
  }

  lemma DocileTransitive(x: Snapshot, y: Snapshot, z: Snapshot)
    requires Later(x, y) && Docile(x, y) && Docile(y, z)
    ensures Docile(x, z)
  {
  }

  lemma InvFacts(x: Snapshot)
    requires Inv(x)
    ensures Body(x) && 0 < x.e.maxFrag && |x.e.outQ| <= x.e.cap && |x.e.inQ| <= x.e.cap && EngineOk(x.e)
    ensures Protocol(x.status, x.log)
    ensures InSession(x.status) ==> x.e.phase != Handshaking && x.log.established
    ensures x.status == Connected && x.e.sent ==> x.e.got
    ensures (x.e.phase == Handshaking ==> !x.log.established) && (x.e.phase == Ready ==> x.log.established)
  {
  }

  lemma InsideTransitive(x: Snapshot, y: Snapshot, z: Snapshot)
    requires Inside(x, y) && Inside(y, z)
    ensures Inside(x, z)
    ensures Calm(x, y) && Calm(y, z) ==> Calm(x, z)
  {
  }

  lemma InsideFacts(x: Snapshot, y: Snapshot)
    requires Inside(x, y)
    ensures Later(x, y) && |y.script| <= |x.script|
    ensures |y.e.raw| + |y.e.inQ| <= |x.e.raw| + |x.e.inQ| && |y.e.inQ| <= |x.e.inQ|
    ensures x.e.phase == Handshaking <==> y.e.phase == Handshaking
    ensures y.log.arrived == x.log.arrived && y.log.established == x.log.established
    ensures y.log.ditched == x.log.ditched && y.log.lost == x.log.lost
    ensures y.status == Connected ==> x.status == Connected
    ensures Alive(y.e) && x.log.established ==> Alive(x.e)
    ensures x.e.sent ==> y.e.sent
    ensures Gone(x.e) ==> Gone(y.e)
    ensures y.log.attempts == x.log.attempts && y.log.entered == x.log.entered
    ensures y.log.hello == x.log.hello && y.log.tickets == x.log.tickets
    ensures y.e.heard == x.e.heard && y.e.refused == x.e.refused
    ensures x.log.ups <= y.log.ups && x.log.sealed <= y.log.sealed
    ensures InSession(x.status) || y.status == x.status
  {
  }

  lemma LaterTransitive(x: Snapshot, y: Snapshot, z: Snapshot)
    requires Later(x, y) && Later(y, z)
    ensures Later(x, z)
  {
  }

  lemma LaterReflexive(x: Snapshot)
    ensures Later(x, x)
  {
  }

  lemma InsideReflexive(x: Snapshot)
    ensures Inside(x, x) && Calm(x, x)
  {
  }

  lemma SentCalm(x: Snapshot, y: Snapshot)
    requires x.e.phase == Ready ==> y.e.sent
    ensures Calm(x, y)
  {
  }

  lemma CalmFacts(x: Snapshot, y: Snapshot)
    requires Calm(x, y) && x.e.phase == Ready
    ensures Working(x, y) || y.e.sent || Spoilt(x.e, y.e)
    ensures !x.e.got ==> y.status == x.status || Gone(y.e)
  {
  }

  // ----- draining the output BIO -----

  lemma DrainStep(emitted: seq<byte>, chunks: seq<seq<byte>>, b: seq<byte>, rest: seq<byte>, cap: nat)
    requires emitted == Flatten(chunks) + (b + rest)
    requires ChunksOk(chunks, cap) && 0 < |b| <= Min(cap, SCRATCH)
    ensures emitted == Flatten(chunks + [b]) + rest
    ensures ChunksOk(chunks + [b], cap)
  {
    FlattenSnoc(chunks, b);
    assert Flatten(chunks) + (b + rest) == Flatten(chunks) + b + rest;
  }

  /** Some of the output BIO has been handed down since `x0`. */
  ghost predicate Draining(x0: Snapshot, x: Snapshot) {
    && OutputFrom(x.e, x.toNext, x0.log.emitted) && x0.toNext <= x.toNext
    && x == x0.(e := x0.e.(outQ := x.e.outQ), toNext := x.toNext)
  }

  lemma DrainBegins(x: Snapshot)
    requires Body(x)
    ensures Draining(x, x)
  {
  }

  lemma DrainRound(x0: Snapshot, x: Snapshot)
    requires Draining(x0, x) && BioRead(x.e, SCRATCH).0 != []
    ensures var (b, e) := BioRead(x.e, SCRATCH);
            Draining(x0, x.(e := e, toNext := x.toNext + [b])) && |e.outQ| < |x.e.outQ|
  {
    var (b, e) := BioRead(x.e, SCRATCH);
    assert b + e.outQ == x.e.outQ;
    DrainStep(x0.log.emitted, x.toNext, b, e.outQ, x.e.cap);
  }

  lemma DrainEnds(x0: Snapshot, x: Snapshot)
    requires Body(x0) && Draining(x0, x) && BioRead(x.e, SCRATCH).0 == []
    ensures x.e == x0.e.(outQ := [])
    ensures Body(x) && Inside(x0, x) && Calm(x0, x) && (Inv(x0) ==> Inv(x))
  {
    assert x.e.outQ == [];
    DrainKeeps(x0, x);
  }

  lemma DrainKeeps(x: Snapshot, y: Snapshot)
    requires Body(x) && x.toNext <= y.toNext && OutputFrom(y.e, y.toNext, x.log.emitted)
    requires y == x.(e := x.e.(outQ := []), toNext := y.toNext)
    ensures Body(y) && Inside(x, y) && Calm(x, y)
    ensures Inv(x) ==> Inv(y)
  {
    if Followed(x.log) {
      assert Linked(y.e, y.log.arrived, Text(y.log.ups)) && InPieces(y.e, y.log.arrived, Handed(y.log.ups));
    }
  }

  // ----- what the session emits -----

  /** `rec` went whole into the output BIO. */
  function SealedWhole(h: Log, x: Content, rec: seq<byte>): Log {
    h.(emitted := h.emitted + rec, sealed := h.sealed + [x])
  }

  /** `part`, of a torn record or an alert, is emitted. */
  function SealedPart(h: Log, part: seq<byte>): Log {
    h.(emitted := h.emitted + part, tail := h.tail + part)
  }

  lemma SealedNothing(h: Log)
    ensures SealedPart(h, []) == h
  {
    assert h.emitted + [] == h.emitted && h.tail + [] == h.tail;
  }

  lemma WholeExtends(e: Engine, h: Log, x: Content)
    requires EngineOk(e) && Sealing(e, h) && Writable(e) && Sealable(x)
    ensures var rec := Record(e.wr, e.sealed, x);
            Sealing(e.(outQ := e.outQ + rec, sealed := e.sealed + 1), SealedWhole(h, x, rec))
  {
    var rec := Record(e.wr, e.sealed, x);
    var enc := EncodeFrom(e.wr, 0, h.sealed);
    EncodeSnoc(e.wr, 0, h.sealed, x);
    Regroup(h.hello, enc, rec);
    assert h.hello + enc + [] == h.hello + enc;
    assert h.hello + (enc + rec) + [] == h.hello + (enc + rec);
  }

  lemma PartExtends(e: Engine, e1: Engine, h: Log, part: seq<byte>)
    requires Sealing(e, h) && e1.wr == e.wr && e1.sealed == e.sealed
    requires (part == [] && e.torn == e1.torn && e1.phase == e.phase) || e1.phase == Broken || e1.torn != []
    requires Retrying(e1) ==>
      h.cut.App? && Sealable(h.cut) && h.tail + (part + e1.torn) == Record(e.wr, e.sealed, h.cut)
    ensures Sealing(e1, SealedPart(h, part))
  {
    Regroup(h.hello + EncodeFrom(e.wr, 0, h.sealed), h.tail, part);
    Regroup(h.tail, part, e1.torn);
  }

  lemma OutputGrows(e: Engine, chunks: seq<seq<byte>>, emitted: seq<byte>, part: seq<byte>)
    requires OutputFrom(e, chunks, emitted) && |e.outQ + part| <= e.cap
    ensures OutputFrom(e.(outQ := e.outQ + part), chunks, emitted + part)
  {
    Regroup(Flatten(chunks), e.outQ, part);
  }

  /** A step that touches the output side only. */
  lemma EmitKeeps(x: Snapshot, y: Snapshot, part: seq<byte>)
    requires Body(x)
    requires y.e == x.e.(outQ := x.e.outQ + part, sealed := y.e.sealed, torn := y.e.torn, tornLen := y.e.tornLen,
                             sent := y.e.sent)
    requires y == x.(status := y.status, e := y.e,
                     log := x.log.(emitted := x.log.emitted + part, sealed := y.log.sealed, tail := y.log.tail,
                                   cut := y.log.cut))
    requires |y.e.outQ| <= y.e.cap && x.log.sealed <= y.log.sealed && Sealing(y.e, y.log)
    requires Standing(y.status, y.e, y.log)
    ensures Body(y)
  {
    OutputGrows(x.e, x.toNext, x.log.emitted, part);
  }

  // ----- writing -----

  function Added(e: Engine, e1: Engine): seq<byte> {
    if |e.outQ| <= |e1.outQ| then e1.outQ[|e.outQ|..] else []
  }

  function SealLog(e: Engine, h: Log, p: seq<byte>): Log
    requires p != [] && e.maxFrag > 0 && |e.outQ| <= e.cap
  {
    var (k, e1) := Seal(e, p);
    var x := App(p[..Min(|p|, e.maxFrag)]);
    if k > 0 then SealedWhole(h, x, Added(e, e1))
    else SealedPart(if Writable(e) then h.(cut := x) else h, Added(e, e1))
  }

  /** `part` is all that a call has put in the output BIO, and the history says so. */
  ghost predicate Emits(e: Engine, h: Log, e1: Engine, h1: Log, part: seq<byte>) {
    && e1 == e.(outQ := e.outQ + part, sealed := e1.sealed, torn := e1.torn, tornLen := e1.tornLen)
    && h1 == h.(emitted := h.emitted + part, sealed := h1.sealed, tail := h1.tail, cut := h1.cut)
    && |e1.outQ| <= e1.cap && h.sealed <= h1.sealed && Sealing(e1, h1)
  }

  lemma SealEmits(e: Engine, h: Log, p: seq<byte>)
    requires EngineOk(e) && Sealing(e, h) && p != [] && !Retrying(e)
    ensures var e1 := Seal(e, p).1; Emits(e, h, e1, SealLog(e, h, p), Added(e, e1))
  {
    hide EngineOk, Sealing, Emits, Record, Seal;
    EngineFacts(e);
    var n := Min(|p|, e.maxFrag);
    var x := App(p[..n]);
    SealCases(e, p);
    if !Writable(e) {
      IdleEmits(e, h);
    } else if |Record(e.wr, e.sealed, x)| <= e.cap - |e.outQ| {
      FragmentSealable(e, p);
      WholeEmits(e, h, x);
    } else {
      FragmentSealable(e, p);
      TornEmits(e, h, x, n);
    }
  }

  lemma SealCases(e: Engine, p: seq<byte>)
    requires p != [] && e.maxFrag > 0 && |e.outQ| <= e.cap
    ensures var n := Min(|p|, e.maxFrag);
            var rec := Record(e.wr, e.sealed, App(p[..n]));
            var room := e.cap - |e.outQ|;
            Seal(e, p) ==
              if !Writable(e) then (-1, e)
              else if |rec| <= room then (n, e.(outQ := e.outQ + rec, sealed := e.sealed + 1))
              else (-1, e.(outQ := e.outQ + rec[..room], torn := rec[room..], tornLen := n))
  {
  }

  lemma FragmentSealable(e: Engine, p: seq<byte>)
    requires EngineOk(e)
    ensures Sealable(App(p[..Min(|p|, e.maxFrag)]))
  {
  }

  lemma IdleEmits(e: Engine, h: Log)
    requires Sealing(e, h) && |e.outQ| <= e.cap
    ensures Added(e, e) == [] && Emits(e, h, e, SealedPart(h, []), [])
  {
    SealedNothing(h);
    assert e.outQ + [] == e.outQ;
  }

  lemma WholeEmits(e: Engine, h: Log, x: Content)
    requires EngineOk(e) && Sealing(e, h) && Writable(e) && Sealable(x)
    requires |Record(e.wr, e.sealed, x)| <= e.cap - |e.outQ|
    ensures var rec := Record(e.wr, e.sealed, x);
            var e1 := e.(outQ := e.outQ + rec, sealed := e.sealed + 1);
            Added(e, e1) == rec && Emits(e, h, e1, SealedWhole(h, x, rec), rec)
  {
    hide Record, EngineOk, Sealing;
    WholeExtends(e, h, x);
  }

  lemma TornEmits(e: Engine, h: Log, x: Content, n: nat)
    requires EngineOk(e) && Sealing(e, h) && Writable(e) && Sealable(x) && x.App?
    requires 0 <= e.cap - |e.outQ| < |Record(e.wr, e.sealed, x)|
    ensures var rec := Record(e.wr, e.sealed, x);
            var part := rec[..e.cap - |e.outQ|];
            var e1 := e.(outQ := e.outQ + part, torn := rec[e.cap - |e.outQ|..], tornLen := n);
            Added(e, e1) == part && Emits(e, h, e1, SealedPart(h.(cut := x), part), part)
  {
    hide Record, EngineOk, EncodeFrom;
    var rec := Record(e.wr, e.sealed, x);
    var room := e.cap - |e.outQ|;
    assert rec[..room] + rec[room..] == rec && [] + rec == rec;
    PartExtends(e, e.(outQ := e.outQ + rec[..room], torn := rec[room..], tornLen := n), h.(cut := x), rec[..room]);
  }

  /** The torn record has gone out whole. */
  function FinishedLog(e: Engine, h: Log): Log {
    h.(emitted := h.emitted + e.torn, sealed := h.sealed + [h.cut], tail := [])
  }

  lemma FinishedEmits(e: Engine, h: Log)
    requires EngineOk(e) && Sealing(e, h) && Retrying(e)
    ensures Sealing(Finished(e), FinishedLog(e, h))
  {
    var enc := EncodeFrom(e.wr, 0, h.sealed);
    EncodeSnoc(e.wr, 0, h.sealed, h.cut);
    Regroup(h.hello + enc, h.tail, e.torn);
    Regroup(h.hello, enc, h.tail + e.torn);
    assert h.hello + (enc + (h.tail + e.torn)) + [] == h.hello + (enc + (h.tail + e.torn));
  }

  function WriteLog(e: Engine, h: Log, p: seq<byte>, e1: Engine): Log
    requires p != [] && e.maxFrag > 0 && |e.outQ| <= e.cap
  {
    if !Retrying(e) then SealLog(e, h, p)
    else if e1.sealed == e.sealed then SealedPart(h, Added(e, e1)).(spoilt := h.spoilt || e1.phase == Broken)
    else
      var q := if e.tornLen <= |p| then p[e.tornLen..] else [];
      if q == [] || |Finished(e).outQ| > e.cap then FinishedLog(e, h)
      else SealLog(Finished(e), FinishedLog(e, h), q)
  }

  /** The three things a repetition can do to the session. */
  lemma RetryEmits(e: Engine, h: Log, p: seq<byte>, n: int, e1: Engine)
    requires EngineOk(e) && Sealing(e, h) && p != [] && Retrying(e) && RetryStep(e, p, n, e1)
    ensures n <= |p|
    ensures var h1 := WriteLog(e, h, p, e1);
            if e1.phase == Broken then e1 == e.(phase := Broken) && h1 == h.(spoilt := true)
            else Emits(e, h, e1, h1, Added(e, e1))
  {
    RetryCases(e, p, n, e1);
    hide RetryStep, Seal, Record, EncodeFrom, EngineOk, Sealable, Sealing;
    if e1.phase == Broken {
      SealedNothing(h);
    } else if e1.sealed == e.sealed {
      RetryPart(e, h, if e1 == e then 0 else e.cap - |e.outQ|);
    } else {
      FinishedEmits(e, h);
      if p[e.tornLen..] != [] {
        RetryGoesOn(e, h, p[e.tornLen..], e1);
      } else {
        assert Added(e, e1) == e.torn;
      }
    }
  }

  lemma RetryCases(e: Engine, p: seq<byte>, n: int, e1: Engine)
    requires EngineOk(e) && p != [] && Retrying(e) && RetryStep(e, p, n, e1)
    ensures n <= |p| && 0 < e.maxFrag && |e.outQ| <= e.cap
    ensures e1.phase == Broken ==> e1 == e.(phase := Broken)
    ensures e1.phase != Broken && e1.sealed == e.sealed ==>
      var k := if e1 == e then 0 else e.cap - |e.outQ|;
      && k < |e.torn| && e1 == e.(outQ := e.outQ + e.torn[..k], torn := e.torn[k..])
    ensures e1.phase != Broken && e1.sealed != e.sealed ==>
      && |e.torn| <= e.cap - |e.outQ| && e.tornLen <= |p|
      && if p[e.tornLen..] == [] then e1 == Finished(e)
         else e1 == Seal(Finished(e), p[e.tornLen..]).1.(tornLen := e1.tornLen) && e1.sealed > e.sealed
  {
    hide Lawful, Record;
    assert e.outQ + e.torn[..0] == e.outQ && e.torn[0..] == e.torn;
  }

  /** A part of what is left of the torn record goes out. */
  lemma RetryPart(e: Engine, h: Log, k: nat)
    requires EngineOk(e) && Sealing(e, h) && Retrying(e) && k < |e.torn| && k <= e.cap - |e.outQ|
    ensures var e1 := e.(outQ := e.outQ + e.torn[..k], torn := e.torn[k..]);
            Added(e, e1) == e.torn[..k] && Emits(e, h, e1, SealedPart(h, e.torn[..k]), e.torn[..k])
  {
    assert e.torn[..k] + e.torn[k..] == e.torn;
    PartExtends(e, e.(outQ := e.outQ + e.torn[..k], torn := e.torn[k..]), h, e.torn[..k]);
  }

  lemma RetryGoesOn(e: Engine, h: Log, q: seq<byte>, e1: Engine)
    requires EngineOk(e) && q != [] && Retrying(e) && |e.torn| <= e.cap - |e.outQ|
    requires Sealing(Finished(e), FinishedLog(e, h))
    requires e1 == Seal(Finished(e), q).1.(tornLen := e1.tornLen)
    ensures e1.sealed > e.sealed && Emits(e, h, e1, SealLog(Finished(e), FinishedLog(e, h), q), Added(e, e1))
  {
    var f, fh := Finished(e), FinishedLog(e, h);
    SealEmits(f, fh, q);
    hide Sealing, Record;
    var part := Added(f, e1);
    Regroup(e.outQ, e.torn, part);
    Regroup(h.emitted, e.torn, part);
    assert Added(e, e1) == e.torn + part;
    TornLenIrrelevant(Seal(f, q).1, e1, SealLog(f, fh, q));
  }

  lemma TornLenIrrelevant(e: Engine, e1: Engine, h: Log)
    requires Sealing(e, h) && e1 == e.(tornLen := e1.tornLen)
    ensures Sealing(e1, h)
  {
  }

  lemma WriteKeeps(x: Snapshot, y: Snapshot, part: seq<byte>)
    requires Inv(x) && x.status == Connected
    requires y.e == x.e.(outQ := x.e.outQ + part, sealed := y.e.sealed, torn := y.e.torn, tornLen := y.e.tornLen)
    requires y == x.(e := y.e, log := x.log.(emitted := x.log.emitted + part, sealed := y.log.sealed,
                                             tail := y.log.tail, cut := y.log.cut))
    requires |y.e.outQ| <= y.e.cap && x.log.sealed <= y.log.sealed && Sealing(y.e, y.log)
    ensures Inv(y) && Inside(x, y) && Calm(x, y)
  {
    EmitKeeps(x, y, part);
  }

  lemma BreakKeeps(x: Snapshot, y: Snapshot)
    requires Inv(x) && x.status == Connected && x.e.phase == Ready
    requires y == x.(e := x.e.(phase := Broken), log := x.log.(spoilt := true))
    ensures Inv(y) && Inside(x, y) && Calm(x, y)
  {
  }

  /** One SSL_write, on a session that holds a torn record or not. */
  lemma SealKeeps(x: Snapshot, y: Snapshot, p: seq<byte>, n: int)
    requires Inv(x) && EngineOk(x.e) && Sealing(x.e, x.log) && p != [] && x.status == Connected
    requires WriteStep(x.e, p, n, y.e) && y == x.(e := y.e, log := WriteLog(x.e, x.log, p, y.e))
    ensures Inv(y) && Inside(x, y) && Calm(x, y) && n <= |p|
  {
    hide Inv, Inside, Calm, Sealing, EngineOk, Record, RetryStep, Added;
    if !Retrying(x.e) {
      SealEmits(x.e, x.log, p);
      WriteKeeps(x, y, Added(x.e, y.e));
    } else {
      hide WriteLog;
      RetryEmits(x.e, x.log, p, n, y.e);
      if y.e.phase == Broken {
        BreakKeeps(x, y);
      } else {
        WriteKeeps(x, y, Added(x.e, y.e));
      }
    }
  }

  ghost predicate Sent(x0: Snapshot, buf: seq<byte>, x: Snapshot)
    requires 0 < x0.e.maxFrag
  {
    var r := SendAll(x0.e.(outQ := []), buf);
    && Inv(x) && Inside(x0, x) && Calm(x0, x) && x.status == Connected
    && x.e == r.e && x.log.spoilt == x0.log.spoilt
    && x.log.emitted == x0.log.emitted + r.out && x.log.sealed == x0.log.sealed + r.frags
  }

  /** `p` is what is left of `buf`. */
  ghost predicate SendingRest(x0: Snapshot, buf: seq<byte>, x: Snapshot, p: seq<byte>)
    requires 0 < x0.e.maxFrag
  {
    && Inv(x) && Clean(x.e) && Inside(x0, x) && Calm(x0, x) && x.status == Connected
    && x.log.spoilt == x0.log.spoilt && x0.log.emitted <= x.log.emitted && x0.log.sealed <= x.log.sealed
    && Remaining(SendAll(x0.e.(outQ := []), buf), x.e, p,
                 x.log.emitted[|x0.log.emitted|..], x.log.sealed[|x0.log.sealed|..])
  }

  lemma SendBegins(x: Snapshot, buf: seq<byte>)
    requires Inv(x) && Clean(x.e) && x.status == Connected
    ensures SendingRest(x, buf, x, buf)
  {
    assert [] + SendAll(x.e.(outQ := []), buf).out == SendAll(x.e.(outQ := []), buf).out;
    assert [] + SendAll(x.e.(outQ := []), buf).frags == SendAll(x.e.(outQ := []), buf).frags;
    assert x.log.emitted[|x.log.emitted|..] == [] && x.log.sealed[|x.log.sealed|..] == [];
  }

  lemma SendingFacts(x0: Snapshot, buf: seq<byte>, x: Snapshot, p: seq<byte>)
    requires 0 < x0.e.maxFrag && SendingRest(x0, buf, x, p)
    ensures Inv(x) && Body(x) && EngineOk(x.e) && x.status == Connected && Sealing(x.e, x.log)
    ensures 0 < x.e.maxFrag && |x.e.outQ| <= x.e.cap
  {
  }

  /** Bookkeeping of one sealed record: `out` and `frags` grow by what was emitted. */
  lemma LogGrows<T>(whole0: seq<T>, whole: seq<T>, whole1: seq<T>, added: seq<T>)
    requires whole0 <= whole && whole1 == whole + added
    ensures whole0 <= whole1
    ensures whole1[|whole0|..] == whole[|whole0|..] + added
    ensures whole1 == whole0 + (whole[|whole0|..] + added)
  {
  }

  lemma SendContinues(x0: Snapshot, buf: seq<byte>, x: Snapshot, p: seq<byte>, y: Snapshot, z: Snapshot)
    requires 0 < x0.e.maxFrag && SendingRest(x0, buf, x, p) && p != [] && EngineOk(x.e) && Sealing(x.e, x.log)
    requires !Retrying(x.e) && y == x.(e := Seal(x.e, p).1, log := SealLog(x.e, x.log, p))
    requires Inv(y) && Inside(x, y) && Calm(x, y)
    requires Inv(z) && Inside(y, z) && Calm(y, z)
    requires z == y.(e := y.e.(outQ := []), toNext := z.toNext)
    ensures var k := Seal(x.e, p).0;
            if k > 0 then SendingRest(x0, buf, z, p[k..]) && !Retrying(z.e) else Sent(x0, buf, z)
  {
    hide Inv, Body, Inside, Calm, SendAll, Sealing, Seal, EngineOk, Record;
    InsideTransitive(x0, x, y);
    InsideTransitive(x0, y, z);
    EngineFacts(x.e);
    SealEmits(x.e, x.log, p);
    var all := SendAll(x0.e.(outQ := []), buf);
    SendStep(all, x.e, p, x.log.emitted[|x0.log.emitted|..], x.log.sealed[|x0.log.sealed|..]);
    var added := Added(x.e, y.e);
    LogGrows(x0.log.emitted, x.log.emitted, z.log.emitted, added);
    var k := Seal(x.e, p).0;
    LogGrows(x0.log.sealed, x.log.sealed, z.log.sealed, if k > 0 then [App(p[..k])] else []);
    if k > 0 {
      RemainingDrained(all, y.e, p[k..], x.log.emitted[|x0.log.emitted|..] + added,
                       x.log.sealed[|x0.log.sealed|..] + [App(p[..k])]);
    }
  }

  lemma EngineFacts(e: Engine)
    requires EngineOk(e)
    ensures 0 < e.maxFrag && |e.outQ| <= e.cap && |e.inQ| <= e.cap
  {
  }

  lemma SendEnds(x0: Snapshot, buf: seq<byte>, x: Snapshot, z: Snapshot)
    requires 0 < x0.e.maxFrag && SendingRest(x0, buf, x, []) && EngineOk(x.e)
    requires Inv(z) && Inside(x, z) && Calm(x, z)
    requires z == x.(e := x.e.(outQ := []), toNext := z.toNext)
    ensures Sent(x0, buf, z)
  {
    hide Inv, Inside, Calm, SendAll, EngineOk;
    InsideTransitive(x0, x, z);
    EngineFacts(x.e);
    SendStep(SendAll(x0.e.(outQ := []), buf), x.e, [],
             x.log.emitted[|x0.log.emitted|..], x.log.sealed[|x0.log.sealed|..]);
  }

  /** Sending what fits tears no record. */
  lemma SentFits(x0: Snapshot, buf: seq<byte>, x: Snapshot)
    requires EngineOk(x0.e) && Clean(x0.e) && !Retrying(x0.e) && Fits(x0.e, |buf|)
    requires x.e == SendAll(x0.e.(outQ := []), buf).e
    ensures !Retrying(x.e)
  {
    var e := x0.e.(outQ := []);
    if Writable(e) {
      SendFitting(e, buf);
    }
  }

  // ----- writing when a record is torn -----

  /** The reading side is untouched, unless the session broke. */
  ghost predicate OutputOnly(e: Engine, e1: Engine) {
    && e1 == e.(outQ := e1.outQ, sealed := e1.sealed, torn := e1.torn, tornLen := e1.tornLen, phase := e1.phase)
    && (e1.phase == e.phase || e1.phase == Broken)
  }

  /** The torn record went out with the first SSL_write; `rest` is what is then left of `buf`. */
  ghost predicate Completed(x0: Snapshot, buf: seq<byte>, z: Snapshot, rest: seq<byte>)
    requires 0 < x0.e.maxFrag
  {
    && Inv(z) && Clean(z.e) && Inside(x0, z) && Calm(x0, z) && z.status == Connected && Writable(z.e)
    && OutputOnly(x0.e, z.e) && x0.e.tornLen <= |buf|
    && var q := buf[x0.e.tornLen..];
       var m := Min(|q|, x0.e.maxFrag);
       && rest == q[m..] && Fits(z.e, |q|)
       && z.log.sealed == x0.log.sealed + ([x0.log.cut] + if q == [] then [] else [App(q[..m])])
  }

  ghost predicate Resent(x0: Snapshot, buf: seq<byte>, z: Snapshot)
    requires 0 < x0.e.maxFrag
  {
    && Inv(z) && Inside(x0, z) && Calm(x0, z) && z.status == Connected && z.e.outQ == []
    && OutputOnly(x0.e, z.e) && x0.log.sealed <= z.log.sealed && (z.e.phase == x0.e.phase || z.log.spoilt)
    && Resealed(x0.e.maxFrag, x0.log.cut, x0.e.tornLen, buf, z.log.sealed[|x0.log.sealed|..])
  }

  /** With a record torn, the library has answered the first SSL_write with `first`, and what that put out has
      been handed down. */
  ghost predicate Answer(x: Snapshot, buf: seq<byte>, first: (int, Engine), z: Snapshot)
    requires 0 < x.e.maxFrag && |x.e.outQ| <= x.e.cap
  {
    && RetryStep(x.e, buf, first.0, first.1) && first.0 <= |buf| && first.1.maxFrag == x.e.maxFrag
    && z.e == first.1.(outQ := []) && z.log.emitted == x.log.emitted + first.1.outQ
  }

  /** What a `write` puts out then is settled by that answer: nothing more if it was no success, and otherwise
      the records of all that is left of the buffer. */
  ghost predicate Resumed(x: Snapshot, buf: seq<byte>, first: (int, Engine), z: Snapshot)
    requires 0 < x.e.maxFrag && |x.e.outQ| <= x.e.cap
  {
    var (n, e) := first;
    if n <= 0 then Answer(x, buf, first, z)
    else
      && RetryStep(x.e, buf, n, e) && n <= |buf| && e.maxFrag == x.e.maxFrag
      && var r := SendAll(e.(outQ := []), buf[n..]);
         z.e == r.e && z.log.emitted == x.log.emitted + (e.outQ + r.out)
  }

  lemma FirstAnswer(x: Snapshot, y: Snapshot, z: Snapshot, buf: seq<byte>, n: int)
    requires EngineOk(x.e) && Sealing(x.e, x.log) && Retrying(x.e) && Clean(x.e) && buf != []
    requires RetryStep(x.e, buf, n, y.e) && y == x.(e := y.e, log := WriteLog(x.e, x.log, buf, y.e))
    requires z == y.(e := y.e.(outQ := []), toNext := z.toNext)
    ensures Answer(x, buf, (n, y.e), z) && (n <= 0 ==> Resumed(x, buf, (n, y.e), z))
  {
    hide RetryStep, WriteLog, EngineOk, Sealing, SendAll;
    RetryEmits(x.e, x.log, buf, n, y.e);
    assert x.log.emitted + [] == x.log.emitted;
    EngineFacts(x.e);
  }

  /** All that is known of a `write` with a record torn. */
  ghost predicate WroteTorn(x: Snapshot, buf: seq<byte>, first: (int, Engine), z: Snapshot)
    requires 0 < x.e.maxFrag && |x.e.outQ| <= x.e.cap
  {
    && Resent(x, buf, z)
    && if buf == [] then z.e == x.e && z.log.sealed == x.log.sealed else Resumed(x, buf, first, z)
  }

  /** The torn record went out, `rest` is left, and an ordinary send begins. */
  ghost predicate GoesOn(x: Snapshot, buf: seq<byte>, first: (int, Engine), z: Snapshot, rest: seq<byte>)
    requires 0 < x.e.maxFrag && |x.e.outQ| <= x.e.cap
  {
    && Completed(x, buf, z, rest) && Answer(x, buf, first, z)
    && 0 < first.0 <= |buf| && rest == buf[first.0..]
  }

  lemma FirstOfTorn(x: Snapshot, y: Snapshot, z: Snapshot, buf: seq<byte>, n: int)
    requires EngineOk(x.e) && Sealing(x.e, x.log) && Retrying(x.e) && Clean(x.e) && buf != [] && x.status == Connected
    requires RetryStep(x.e, buf, n, y.e) && y == x.(e := y.e, log := WriteLog(x.e, x.log, buf, y.e))
    requires Inside(x, y) && Calm(x, y) && Inv(z) && Inside(y, z) && Calm(y, z)
    requires z == y.(e := y.e.(outQ := []), toNext := z.toNext)
    ensures if n > 0 then n <= |buf| && GoesOn(x, buf, (n, y.e), z, buf[n..]) && Clean(z.e) && Writable(z.e)
            else WroteTorn(x, buf, (n, y.e), z)
  {
    hide Inv, Inside, Calm, RetryStep, WriteLog, EngineOk, Sealing, Resent, Resumed, Answer;
    EngineFacts(x.e);
    Retried(x, y, z, buf, n);
    FirstAnswer(x, y, z, buf, n);
  }

  lemma TornSent(x0: Snapshot, buf: seq<byte>, first: (int, Engine), x: Snapshot, rest: seq<byte>, z: Snapshot)
    requires EngineOk(x0.e) && |x0.e.outQ| <= x0.e.cap && 0 < x.e.maxFrag
    requires buf != [] && GoesOn(x0, buf, first, x, rest) && Sent(x, rest, z)
    ensures WroteTorn(x0, buf, first, z)
  {
    hide Completed, Answer, Resent, Resumed, Sent, EngineOk;
    EngineFacts(x0.e);
    RetrySent(x0, buf, x, rest, z);
    ResumedSent(x0, buf, first, x, z);
  }

  lemma ResumedSent(x0: Snapshot, buf: seq<byte>, first: (int, Engine), x: Snapshot, z: Snapshot)
    requires 0 < x0.e.maxFrag && |x0.e.outQ| <= x0.e.cap && 0 < x.e.maxFrag
    requires Answer(x0, buf, first, x) && first.0 > 0 && Sent(x, buf[first.0..], z)
    ensures Resumed(x0, buf, first, z)
  {
    hide RetryStep, Inv, Inside, Calm, SendAll;
    Regroup(x0.log.emitted, first.1.outQ, SendAll(x.e.(outQ := []), buf[first.0..]).out);
  }

  /** The first SSL_write: refused or cut short again, with the torn record out or not; or done. */
  lemma RetryLog(e: Engine, h: Log, p: seq<byte>, n: int, e1: Engine)
    requires EngineOk(e) && Retrying(e) && p != [] && RetryStep(e, p, n, e1)
    ensures OutputOnly(e, e1) && (e1.phase == e.phase || WriteLog(e, h, p, e1).spoilt)
    ensures var h1 := WriteLog(e, h, p, e1);
            if n <= 0 then
              || h1.sealed == h.sealed
              || (e.tornLen <= |p| && h1.sealed == h.sealed + [h.cut])
            else
              && e.tornLen <= |p| && Writable(e1)
              && var q := p[e.tornLen..];
                 var m := Min(|q|, e.maxFrag);
                 && n <= |p| && p[n..] == q[m..] && Fits(e1, |q|)
                 && h1.sealed == h.sealed + ([h.cut] + if q == [] then [] else [App(q[..m])])
  {
    hide Lawful, EncodeFrom, Record, Sealing, Seal, Fits;
    if e1.sealed > e.sealed && p[e.tornLen..] != [] {
      RetryTail(e, h, p[e.tornLen..]);
      SealedSame(Finished(e), FinishedLog(e, h), p[e.tornLen..]);
    } else if e1.sealed > e.sealed {
      FitsNothing(e1);
    }
  }

  lemma FitsNothing(e: Engine)
    ensures Fits(e, 0)
  {
  }

  /** What is sealed after the torn record, if it fits. */
  lemma RetryTail(e: Engine, h: Log, q: seq<byte>)
    requires EngineOk(e) && Retrying(e) && q != [] && |e.torn| <= e.cap - |e.outQ|
    ensures var (k, e1) := Seal(Finished(e), q);
            k > 0 ==>
              && k == Min(|q|, e.maxFrag) && Writable(e1) && Fits(e1, |q|)
              && SealLog(Finished(e), FinishedLog(e, h), q).sealed == h.sealed + ([h.cut] + [App(q[..k])])
  {
    hide Lawful, EncodeFrom, Record;
    var x := App(q[..Min(|q|, e.maxFrag)]);
    RecordShape(e.wr, e.sealed + 1, x, []);
    Regroup(h.sealed, [h.cut], [x]);
  }

  lemma SealedSame(e: Engine, h: Log, q: seq<byte>)
    requires q != [] && e.maxFrag > 0 && |e.outQ| <= e.cap
    ensures Seal(e, q).0 <= 0 ==> SealLog(e, h, q).sealed == h.sealed
    ensures Seal(e, q).0 > 0 ==> Seal(e, q).1.sealed == e.sealed + 1
    ensures Seal(e, q).0 <= 0 ==> Seal(e, q).1.sealed == e.sealed
  {
  }

  /** The first SSL_write, and the drain after it. */
  lemma Retried(x: Snapshot, y: Snapshot, z: Snapshot, buf: seq<byte>, n: int)
    requires EngineOk(x.e) && Retrying(x.e) && buf != [] && x.status == Connected
    requires RetryStep(x.e, buf, n, y.e) && y == x.(e := y.e, log := WriteLog(x.e, x.log, buf, y.e))
    requires Inside(x, y) && Calm(x, y) && Inv(z) && Inside(y, z) && Calm(y, z)
    requires z == y.(e := y.e.(outQ := []), toNext := z.toNext)
    ensures if n > 0 then n <= |buf| && Completed(x, buf, z, buf[n..]) && Writable(z.e) else Resent(x, buf, z)
  {
    hide Inv, Inside, Calm, RetryStep, WriteLog, EngineOk, Fits;
    InsideTransitive(x, y, z);
    RetryLog(x.e, x.log, buf, n, y.e);
    SameFit(y.e, z.e, if x.e.tornLen <= |buf| then |buf| - x.e.tornLen else 0);
    if n <= 0 {
      var more := if y.log.sealed == x.log.sealed then [] else [x.log.cut];
      assert y.log.sealed == x.log.sealed + more;
    }
  }

  lemma SameFit(e: Engine, e1: Engine, len: nat)
    requires e1.maxFrag == e.maxFrag && e1.cap == e.cap && e1.wr == e.wr
    ensures Fits(e1, len) == Fits(e, len)
  {
  }

  /** What comes after is an ordinary send. */
  lemma RetrySent(x0: Snapshot, buf: seq<byte>, x: Snapshot, rest: seq<byte>, z: Snapshot)
    requires EngineOk(x0.e) && 0 < x.e.maxFrag && Completed(x0, buf, x, rest) && Sent(x, rest, z)
    ensures Resent(x0, buf, z)
  {
    hide Inv, Inside, Calm, Lawful, SendAll;
    InsideTransitive(x0, x, z);
    InvFacts(x);
    assert x.e.(outQ := []) == x.e;
    SendFitting(x.e, rest);
    SendKeepsInput(x.e, rest);
    var q := buf[x0.e.tornLen..];
    var first := if q == [] then [] else [App(q[..Min(|q|, x0.e.maxFrag)])];
    Regroup(x0.log.sealed, [x0.log.cut] + first, Fragments(x0.e.maxFrag, rest));
    Regroup([x0.log.cut], first, Fragments(x0.e.maxFrag, rest));
    assert first + Fragments(x0.e.maxFrag, rest) == Fragments(x0.e.maxFrag, q);
  }

  lemma EmptySent(x: Snapshot, z: Snapshot)
    requires 0 < x.e.maxFrag && Sent(x, [], z)
    ensures Resent(x, [], z)
  {
    hide Inv, Inside, Calm;
    assert z.log.sealed[|x.log.sealed|..] == [];
  }

  lemma TornFacts(x: Snapshot, buf: seq<byte>, first: (int, Engine), z: Snapshot)
    requires 0 < x.e.maxFrag && |x.e.outQ| <= x.e.cap && WroteTorn(x, buf, first, z)
    ensures Resent(x, buf, z)
    ensures if buf == [] then z.e == x.e && z.log.sealed == x.log.sealed else Resumed(x, buf, first, z)
  {
  }

  lemma SentNothing(x: Snapshot, z: Snapshot)
    requires 0 < x.e.maxFrag && |x.e.outQ| <= x.e.cap && Sent(x, [], z) && Clean(x.e)
    ensures Retrying(x.e) ==> Resent(x, [], z) && WroteTorn(x, [], (0, x.e), z)
  {
    EmptySent(x, z);
    hide Inv, Inside, Calm;
  }

  lemma WriteCases(e: Engine, h: Log, p: seq<byte>, n: int, e1: Engine)
    requires p != [] && e.maxFrag > 0 && |e.outQ| <= e.cap && WriteStep(e, p, n, e1)
    ensures if Retrying(e) then RetryStep(e, p, n, e1)
            else (n, e1) == Seal(e, p) && WriteLog(e, h, p, e1) == SealLog(e, h, p)
  {
  }

  lemma WriteTellsNobody(e: Engine, h: Log, p: seq<byte>, e1: Engine)
    requires p != [] && e.maxFrag > 0 && |e.outQ| <= e.cap
    ensures WriteLog(e, h, p, e1).ups == h.ups
  {
    hide Seal;
  }

  lemma WriteConserves(x: Snapshot, buf: seq<byte>, z: Snapshot)
    requires Inv(x) && x.e.maxFrag > 0 && z.log.ups == x.log.ups
    requires if Retrying(x.e) then Resent(x, buf, z) else Sent(x, buf, z)
    ensures Conserves(x, z)
  {
    hide Inside, Calm, Resealed, SendAll, Handed, Pieces;
    if Retrying(x.e) {
      if z.e.phase == x.e.phase { ConservesSame(x, z); }
    } else {
      SendKeepsInput(x.e.(outQ := []), buf);
      ConservesSame(x, z);
    }
  }

  lemma WroteNothing(x: Snapshot, buf: seq<byte>)
    requires x.status != Connected
    ensures Wrote(x, x, buf) && Inside(x, x) && Calm(x, x)
  {
    ConservesSame(x, x);
  }

  lemma WriteSays(x: Snapshot, buf: seq<byte>, z: Snapshot)
    requires Inv(x) && Clean(x.e) && x.status == Connected && x.e.maxFrag > 0
    requires if Retrying(x.e) then Resent(x, buf, z) else Sent(x, buf, z)
    requires z.log.ups == x.log.ups && z.script == x.script
    ensures Wrote(x, z, buf)
  {
    hide Inv, Inside, Calm, Record, Lawful, EncodeFrom, Handed, Conserves, Resealed;
    InvFacts(x);
    WriteConserves(x, buf, z);
    var e := x.e.(outQ := []);
    if Sealless(x.e) {
      if buf != [] { SealCases(e, buf); }
      assert x.log.sealed + [] == x.log.sealed;
    } else if Writable(x.e) && Fits(x.e, |buf|) {
      SameFit(x.e, e, |buf|);
      SendFitting(e, buf);
    }
  }

  /** What a `write` of a connected stream has done. */
  lemma WriteFacts(x: Snapshot, buf: seq<byte>, z: Snapshot)
    requires Inv(x) && Clean(x.e) && x.e.maxFrag > 0 && EngineOk(x.e)
    requires if Retrying(x.e) then Resent(x, buf, z) else Sent(x, buf, z)
    ensures Inv(z) && Clean(z.e) && Inside(x, z) && Calm(x, z) && z.status == Connected
    ensures z.e.outQ == [] && z.log.emitted == Flatten(z.toNext) && (Quiet(x.e) ==> Quiet(z.e))
    ensures !Retrying(x.e) && Fits(x.e, |buf|) ==> !Retrying(z.e) && z.log.spoilt == x.log.spoilt
    ensures if !Retrying(x.e) then
              var r := SendAll(x.e.(outQ := []), buf);
              && z.e == r.e && z.log.spoilt == x.log.spoilt
              && z.log.emitted == x.log.emitted + r.out && z.log.sealed == x.log.sealed + r.frags
            else
              && z.e.maxFrag == x.e.maxFrag && x.log.sealed <= z.log.sealed
              && Resealed(x.e.maxFrag, x.log.cut, x.e.tornLen, buf, z.log.sealed[|x.log.sealed|..])
  {
    hide Inside, Calm, Resealed;
    assert Flatten(z.toNext) + [] == Flatten(z.toNext);
    if !Retrying(x.e) {
      SendKeepsInput(x.e.(outQ := []), buf);
      if Fits(x.e, |buf|) {
        SentFits(x, buf, z);
      }
    }
  }

  // ----- reading and handing up -----

  /** SSL_read returned data, and it is handed up. */
  lemma DataKeeps(x: Snapshot, y: Snapshot, n: int, d: seq<byte>, alert: seq<byte>)
    requires Inv(x) && n > 0 && ReadStep(x.e, n, d, y.e, alert)
    requires y == x.(e := y.e, log := x.log.(ups := x.log.ups + [UpReceived(d)]))
    ensures Inv(y) && Inside(x, y) && Calm(x, y) && (Clean(x.e) ==> Clean(y.e))
    ensures y.e.phase == Ready && !y.e.got && Alive(x.e) && Docile(x, y) && !NothingToRead(x.e) && Hushed(x, y)
    ensures |y.e.raw| + |y.e.inQ| < |x.e.raw| + |x.e.inQ|
  {
    SnocUp(x.log.ups, UpReceived(d));
    assert (x.log.ups + [UpReceived(d)])[..|x.log.ups|] == x.log.ups;
    if Followed(x.log) {
      LinkedRead(x.e, y.e, x.log.arrived, Text(x.log.ups));
      PiecesRead(x.e, y.e, x.log.arrived, Handed(x.log.ups));
    }
  }

  /** SSL_read is no business of the layer above, before it is told. */
  lemma ReadObeyed(x: Snapshot, y: Snapshot, n: int, d: seq<byte>, alert: seq<byte>)
    requires ReadStep(x.e, n, d, y.e, alert)
    requires if n > 0 then y == x.(e := y.e, log := x.log.(ups := x.log.ups + [UpReceived(d)]))
             else y == x.(e := y.e, log := SealedPart(x.log, alert))
    ensures Obeyed(x, y, if n > 0 then -1 else 0) && (n > 0 ==> x.e.phase == Ready)
  {
    hide ScanRead, Obeyed;
    ObeyedStep(x, y, if n > 0 then -1 else 0);
  }

  lemma ReadConserves(x: Snapshot, y: Snapshot, n: int, d: seq<byte>, alert: seq<byte>)
    requires ReadStep(x.e, n, d, y.e, alert)
    requires if n > 0 then y == x.(e := y.e, log := x.log.(ups := x.log.ups + [UpReceived(d)]))
             else y == x.(e := y.e, log := SealedPart(x.log, alert))
    ensures Conserves(x, y)
  {
    SnocUp(x.log.ups, UpReceived(d));
    hide Handed, Pieces, Decode;
    if Alive(x.e) {
      var s := x.e.raw + x.e.inQ;
      ScanPieces(x.e.rd, x.e.recvd, s);
      if n > 0 {
        Regroup(Handed(x.log.ups), [d], Unread(y.e));
      } else if Alive(y.e) {
        ScanStarvedAgain(x.e.rd, x.e.recvd, s);
        ScanPieces(y.e.rd, y.e.recvd, y.e.raw);
        assert y.e.raw + y.e.inQ == y.e.raw;
      }
    }
  }

  /** SSL_read took in the whole input and wants more. */
  lemma StarvedKeeps(x: Snapshot, y: Snapshot, k: nat, rest: seq<byte>)
    requires Inv(x) && Alive(x.e)
    requires ScanRead(x.e.rd, x.e.recvd, x.e.raw + x.e.inQ) == Starved(k, rest)
    requires y == x.(e := x.e.(raw := rest, inQ := [], recvd := k))
    ensures Inv(y) && Inside(x, y) && Quiet(y.e)
  {
    ScanStarvedAgain(x.e.rd, x.e.recvd, x.e.raw + x.e.inQ);
    if Followed(x.log) {
      LinkedRead(x.e, y.e, x.log.arrived, Text(x.log.ups));
      PiecesRead(x.e, y.e, x.log.arrived, Handed(x.log.ups));
      assert Text(x.log.ups) + [] == Text(x.log.ups) && Handed(x.log.ups) + [] == Handed(x.log.ups);
    }
  }

  lemma EndReads(e: Engine, e1: Engine, h: Log, h1: Log)
    requires Reading(e, h) && Alive(e) && ScanRead(e.rd, e.recvd, e.raw + e.inQ).Ended?
    requires !Alive(e1) && e1.rd == e.rd && (ScanRead(e.rd, e.recvd, e.raw + e.inQ).closed ==> e1.got && e1.phase == Ready)
    requires h1 == h.(emitted := h1.emitted, tail := h1.tail)
    ensures Reading(e1, h1)
  {
    if Followed(h) {
      LinkedRead(e, e1, h.arrived, Text(h.ups));
      PiecesRead(e, e1, h.arrived, Handed(h.ups));
      assert Text(h.ups) + [] == Text(h.ups) && Handed(h.ups) + [] == Handed(h.ups);
    }
  }

  /** SSL_read met the end of the input: close_notify or a fatal error. */
  lemma EndKeeps(x: Snapshot, y: Snapshot, alert: seq<byte>)
    requires Inv(x) && Alive(x.e) && ScanRead(x.e.rd, x.e.recvd, x.e.raw + x.e.inQ).Ended?
    requires y == x.(e := y.e, log := SealedPart(x.log, alert))
    requires y.e == x.e.(raw := y.e.raw, inQ := y.e.inQ, recvd := y.e.recvd, got := y.e.got,
                         outQ := x.e.outQ + alert, phase := y.e.phase)
    requires |y.e.inQ| <= |x.e.inQ| && |y.e.raw| + |y.e.inQ| <= |x.e.raw| + |x.e.inQ| && |y.e.outQ| <= y.e.cap
    requires y.e.phase == Broken || (y.e.phase == Ready && y.e.got && alert == [])
    requires ScanRead(x.e.rd, x.e.recvd, x.e.raw + x.e.inQ).closed ==> y.e.got && y.e.phase == Ready
    ensures Inv(y) && Inside(x, y) && Quiet(y.e)
  {
    hide ScanRead, Reading, Lawful;
    EndReads(x.e, y.e, x.log, y.log);
    OutputGrows(x.e, x.toNext, x.log.emitted, alert);
    assert [] + y.e.torn == y.e.torn;
    PartExtends(x.e, y.e, x.log, alert);
  }

  /** The last SSL_read of a loop. */
  lemma ReadEnds(x: Snapshot, y: Snapshot, n: int, data: seq<byte>, alert: seq<byte>)
    requires Inv(x) && Clean(x.e) && EngineOk(y.e) && n <= 0 && ReadStep(x.e, n, data, y.e, alert)
    requires x.e.phase == Handshaking ==> x.e.inQ == []
    requires y == x.(e := y.e, log := SealedPart(x.log, alert))
    ensures Inv(y) && Clean(y.e) && Quiet(y.e) && Inside(x, y) && Docile(x, y)
    ensures !Alive(x.e) ==> y == x
    ensures NothingToRead(x.e) ==> y == x.(e := Soaked(x.e))
    ensures Hushed(x, y)
  {
    if Alive(x.e) {
      match ScanRead(x.e.rd, x.e.recvd, x.e.raw + x.e.inQ) {
        case Data(_, _, _) =>
        case Starved(k, rest) =>
          assert SealedPart(x.log, []) == x.log by { SealedNothing(x.log); }
          StarvedKeeps(x, y, k, rest);
        case Ended(_, _, _) => EndKeeps(x, y, alert);
      }
    } else {
      SealedNothing(x.log);
    }
  }

  /** The read loop, begun at `x0`, has come to `x`. */
  ghost predicate Delivering(x0: Snapshot, x: Snapshot) {
    && Inv(x) && Clean(x.e) && Inside(x0, x) && Docile(x0, x) && Hushed(x0, x) && Obeyed(x0, x, 0)
    && Conserves(x0, x) && (x.e.phase == Handshaking ==> x.e.inQ == [])
    && (x.status == x0.status || Gone(x.e))
    && (!Alive(x0.e) || NothingToRead(x0.e) ==> x == x0)
    && (x0.status != Connected ==> x.status == x0.status)
  }

  lemma DeliverBegins(x: Snapshot)
    requires Inv(x) && Clean(x.e) && (x.e.phase == Handshaking ==> x.e.inQ == [])
    ensures Delivering(x, x)
  {
    hide Inv, Clean, Inside, Docile, Hushed, Obeyed, Conserves;
    ConservesSame(x, x);
    ObeyedStep(x, x, 0);
    InsideReflexive(x);
    DocileReflexive(x);
    HushedReflexive(x);
  }

  lemma DeliverFacts(x0: Snapshot, x: Snapshot)
    requires Delivering(x0, x)
    ensures Inv(x) && Clean(x.e) && EngineOk(x.e) && (x.e.phase == Handshaking ==> x.e.inQ == [])
    ensures |x.script| <= |x0.script|
  {
    hide Inv, Clean, Docile, Hushed, EngineOk, Inside, Obeyed, Conserves;
    InvFacts(x);
    InsideFacts(x0, x);
  }

  /** One record is handed up, and the layer above has its way. */
  lemma DeliverMore(x0: Snapshot, x: Snapshot, y: Snapshot, z: Snapshot, n: int, d: seq<byte>, alert: seq<byte>)
    requires Delivering(x0, x) && n > 0 && ReadStep(x.e, n, d, y.e, alert)
    requires y == x.(e := y.e, log := x.log.(ups := x.log.ups + [UpReceived(d)]))
    requires Inv(z) && Clean(z.e) && Inside(y, z) && Calm(y, z) && Docile(y, z) && Obeyed(y, z, 1) && Conserves(y, z)
    requires y.status != Connected ==> z.status == y.status
    ensures Delivering(x0, z) && |z.e.raw| + |z.e.inQ| < |x.e.raw| + |x.e.inQ|
  {
    hide Inv, Clean, Inside, Docile, Hushed, Calm, Gone, Alive, NothingToRead, ReadStep, Later, Obeyed, Onward, Conserves;
    DataKeeps(x, y, n, d, alert);
    ReadObeyed(x, y, n, d, alert);
    ReadConserves(x, y, n, d, alert);
    InsideOnward(x0, x);
    InsideOnward(x, y);
    InsideOnward(y, z);
    ObeyedTransitive(x0, x, y, 0, -1);
    InsideFacts(x0, x);
    InsideFacts(x, y);
    InsideFacts(y, z);
    InsideTransitive(x0, x, y);
    InsideTransitive(x0, y, z);
    InsideFacts(x0, y);
    InsideOnward(x0, y);
    ObeyedTransitive(x0, y, z, -1, 1);
    DocileTransitive(x0, x, y);
    DocileTransitive(x0, y, z);
    CalmFacts(y, z);
    HushedAfter(x, y, z);
    LaterTransitive(x, y, z);
    HushedTransitive(x0, x, z);
    ConservesTransitive(x, y, z);
    ConservesTransitive(x0, x, z);
  }

  lemma DeliverEnds(x0: Snapshot, x: Snapshot, y: Snapshot, n: int, d: seq<byte>, alert: seq<byte>)
    requires Delivering(x0, x) && n <= 0 && ReadStep(x.e, n, d, y.e, alert) && EngineOk(y.e)
    requires y == x.(e := y.e, log := SealedPart(x.log, alert))
    ensures Inv(y) && Clean(y.e) && Quiet(y.e) && Inside(x0, y) && Docile(x0, y) && Hushed(x0, y) && Obeyed(x0, y, 0)
    ensures Conserves(x0, y) && (y.status == x0.status || Gone(y.e))
    ensures !Alive(x0.e) ==> y == x0
    ensures NothingToRead(x0.e) ==> y == x0.(e := Soaked(x0.e))
    ensures x0.status != Connected ==> y.status == x0.status
  {
    hide Inv, Clean, Inside, Docile, Hushed, Gone, Alive, NothingToRead, ReadStep, Later, Quiet, Soaked, EngineOk,
         Obeyed, Onward, Conserves;
    ReadEnds(x, y, n, d, alert);
    ReadObeyed(x, y, n, d, alert);
    ReadConserves(x, y, n, d, alert);
    InsideOnward(x0, x);
    InsideOnward(x, y);
    ObeyedTransitive(x0, x, y, 0, 0);
    InsideFacts(x0, x);
    InsideFacts(x, y);
    InsideTransitive(x0, x, y);
    DocileTransitive(x0, x, y);
    HushedTransitive(x0, x, y);
    ConservesTransitive(x0, x, y);
  }

  /** The layer above takes its next list of calls. */
  lemma ScriptKeeps(x: Snapshot, y: Snapshot)
    requires x.script != [] && y == x.(script := x.script[1..])
    ensures Inside(x, y) && Calm(x, y) && (Inv(x) ==> Inv(y))
  {
    assert forall calls <- y.script :: calls in x.script;
  }

  lemma ConnectedUp(x: Snapshot)
    requires Body(x) && x.status == Connected
    requires SessionAfter(x.log.ups) == Down && Entries(x.log.ups) + 1 == x.log.entered
    ensures var y := x.(log := x.log.(ups := x.log.ups + [UpConnected])); Inv(y) && Inside(x, y)
  {
    SnocUp(x.log.ups, UpConnected);
    assert (x.log.ups + [UpConnected])[..|x.log.ups|] == x.log.ups;
    assert Text(x.log.ups) + [] == Text(x.log.ups) && Handed(x.log.ups) + [] == Handed(x.log.ups);
  }

  lemma DisconnectedUp(x: Snapshot)
    requires Body(x) && x.status == Closed && x.log.established
    requires SessionAfter(x.log.ups) == Up && Entries(x.log.ups) == x.log.entered
    ensures var y := x.(log := x.log.(ups := x.log.ups + [UpDisconnected])); Inv(y) && Inside(x, y)
  {
    SnocUp(x.log.ups, UpDisconnected);
    assert (x.log.ups + [UpDisconnected])[..|x.log.ups|] == x.log.ups;
    assert Text(x.log.ups) + [] == Text(x.log.ups) && Handed(x.log.ups) + [] == Handed(x.log.ups);
  }

  lemma StillDown(x: Snapshot)
    requires Body(x) && !InSession(x.status)
    requires SessionAfter(x.log.ups) == Down && Entries(x.log.ups) == x.log.entered
    ensures Inv(x)
  {
  }

  // ----- closing -----

  lemma ClosingKeeps(x: Snapshot, y: Snapshot)
    requires Inv(x) && x.status == Connected && y == x.(status := Closing)
    ensures Inv(y) && Inside(x, y)
  {
  }

  lemma DitchedKeeps(x: Snapshot, y: Snapshot)
    requires Inv(x) && (x.status == Closing || x.e.got) && x.log.established
    requires y == x.(log := x.log.(ditched := true, arrived := y.log.arrived))
    ensures Inv(y) && Later(x, y)
  {
  }

  lemma FeedDitched(x: Snapshot, y: Snapshot, buf: seq<byte>)
    requires Inv(x) && x.log.ditched && |x.e.inQ| <= x.e.cap
    requires y == x.(e := BioWrite(x.e, buf).1)
    ensures Inv(y) && Later(x, y) && (Clean(x.e) ==> Clean(y.e)) && y.e == x.e.(inQ := y.e.inQ)
  {
    BioKeepsPhase(x.e, buf);
    BioFills(x.e, buf);
    hide BioWrite;
    MoreDitched(x, y);
  }

  lemma BioFills(e: Engine, buf: seq<byte>)
    requires |e.inQ| <= e.cap
    ensures |BioWrite(e, buf).1.inQ| <= e.cap
  {
  }

  /** Input that is thrown away concerns nobody. */
  lemma MoreDitched(x: Snapshot, y: Snapshot)
    requires Inv(x) && x.log.ditched && y == x.(e := x.e.(inQ := y.e.inQ)) && |y.e.inQ| <= x.e.cap
    ensures Inv(y) && Later(x, y) && (Clean(x.e) ==> Clean(y.e))
  {
    hide Lawful, EncodeFrom, Tame;
    TameAlike(x.e, y.e, x.script);
  }

  lemma ClosingFed(x: Snapshot, y: Snapshot, buf: seq<byte>)
    requires x.log.established && x.e.phase != Handshaking
    requires y.log.arrived == x.log.arrived + buf && y.log.lost == x.log.lost
    ensures Fed(x, y, buf)
  {
  }

  function ShutdownLog(e: Engine, h: Log, e1: Engine): Log {
    if e1.sealed > e.sealed then SealedWhole(h, CloseNotify, Added(e, e1)) else SealedPart(h, Added(e, e1))
  }

  /** The reading side is left alone. */
  ghost predicate WriteSideOnly(e: Engine, e1: Engine) {
    e1 == e.(outQ := e1.outQ, sealed := e1.sealed, torn := e1.torn, tornLen := e1.tornLen, sent := e1.sent)
  }

  /** What every call of SSL_shutdown leaves alone. */
  lemma ShutdownShape(e: Engine, r: int, e1: Engine)
    requires ShutdownStep(e, r, e1)
    ensures e1 == e.(phase := e1.phase, inQ := e1.inQ, outQ := e1.outQ, raw := e1.raw, recvd := e1.recvd,
                     sealed := e1.sealed, torn := e1.torn, sent := e1.sent, got := e1.got)
    ensures |e1.inQ| <= |e.inQ| && |e1.raw| + |e1.inQ| <= |e.raw| + |e.inQ|
    ensures if e.phase == Ready then e1.sent && e1.phase != Handshaking else e1 == e
    ensures (e.got ==> e1.got) && (r == 1 ==> e1.phase == Ready && e1.got)
    ensures !e.sent || e.got ==> WriteSideOnly(e, e1)
  {
    hide ScanRead, Record;
  }

  lemma ShutdownEmits(e: Engine, h: Log, r: int, e1: Engine)
    requires EngineOk(e) && Sealing(e, h) && ShutdownStep(e, r, e1)
    ensures var h1 := ShutdownLog(e, h, e1);
            && Sealing(e1, h1) && |e1.outQ| <= e1.cap
            && e1.outQ == e.outQ + Added(e, e1)
            && h1.emitted == h.emitted + Added(e, e1)
            && h.sealed <= h1.sealed
  {
    hide ScanRead, Lawful, EncodeFrom;
    ShutdownShape(e, r, e1);
    if e1.sealed > e.sealed {
      WholeExtends(e, h, CloseNotify);
    } else {
      PartExtends(e, e1, h, Added(e, e1));
    }
  }

  /** close_notify can be sealed and fits the output BIO. */
  predicate CloseFits(e: Engine) {
    && e.phase == Ready && e.torn == [] && |e.outQ| <= e.cap
    && |Record(e.wr, e.sealed, CloseNotify)| <= e.cap - |e.outQ|
  }

  /** What a call of SSL_shutdown that can be carried out seals and answers. */
  lemma ShutdownSays(e: Engine, h: Log, r: int, e1: Engine)
    requires ShutdownStep(e, r, e1)
    ensures CloseFits(e) && !e.sent ==>
      ShutdownLog(e, h, e1).sealed == h.sealed + [CloseNotify] && e1.torn == [] && r == (if e.got then 1 else 0)
    ensures e.phase == Ready && e.torn == [] && e.sent ==>
      && ShutdownLog(e, h, e1).sealed == h.sealed
      && (e.got ==> r == 1)
      && (!e.got ==>
            match ScanRead(e.rd, e.recvd, e.raw + e.inQ)
            case Starved(k, rest) => r == -1 && e1 == e.(raw := rest, inQ := [], recvd := k)
            case Ended(closed, _, _) => r == if closed then 1 else -1
            case Data(_, _, _) => true)
  {
  }

  /** SSL_shutdown has been called and the status follows its result. */
  ghost predicate ShutPending(y: Snapshot) {
    && Body(y) && y.log.established && y.e.phase != Handshaking
    && (y.status == Closed || (y.status == Closing && Inv(y)))
    && SessionAfter(y.log.ups) == Up && Entries(y.log.ups) == y.log.entered
  }

  /** SSL_shutdown, as the first call of this side or in answer to the peer's close_notify, or while
      input is being thrown away. */
  lemma ShutdownKeeps(x: Snapshot, y: Snapshot, r: int)
    requires Body(x) && (x.status == Closing || (x.status == Connected && x.e.got))
    requires x.log.ditched || (x.e.sent ==> x.e.got)
    requires ShutdownStep(x.e, r, y.e)
    requires y == x.(status := y.status, e := y.e, log := ShutdownLog(x.e, x.log, y.e))
    requires y.status == if x.status == Connected then PeerClosing else if r == 1 then Closed else Closing
    ensures Body(y) && Inside(x, y)
    ensures y.log.ups == x.log.ups && y.log.entered == x.log.entered
    ensures x.e.phase == Ready ==> y.e.sent
  {
    hide ShutdownStep, Lawful, Record, EncodeFrom, Decode, ScanRead;
    ShutdownShape(x.e, r, y.e);
    ShutdownEmits(x.e, x.log, r, y.e);
    OutputGrows(x.e, x.toNext, x.log.emitted, Added(x.e, y.e));
    ShutdownReads(x.e, y.e, x.log, y.log);
  }

  lemma ShutdownReads(e: Engine, e1: Engine, h: Log, h1: Log)
    requires Reading(e, h) && (h.ditched || WriteSideOnly(e, e1))
    requires h1 == h.(emitted := h1.emitted, sealed := h1.sealed, tail := h1.tail)
    ensures Reading(e1, h1)
  {
  }

  lemma ShutdownPends(x: Snapshot, y: Snapshot)
    requires Inv(x) && Body(y) && Inside(x, y) && x.status == Closing
    requires y.log.ups == x.log.ups && y.log.entered == x.log.entered
    requires y.status == Closing || y.status == Closed
    ensures ShutPending(y)
  {
  }

  /** A closing stream with one more piece of input in its BIO. */
  function WithInput(x: Snapshot, buf: seq<byte>): Snapshot
    requires |x.e.inQ| <= x.e.cap
  {
    x.(e := BioWrite(x.e, buf).1, log := x.log.(ditched := true, arrived := x.log.arrived + buf))
  }

  /** What `do_shutdown` makes of a closing stream that has taken in its input. The first call seals
      close_notify, and is the last if the peer's has been received. A later one waits on, as long as the
      input is no complete record, and closes the stream when the peer's close_notify is there. The layer
      above is told when the stream closes. */
  ghost predicate ShutSays(x: Snapshot, y: Snapshot) {
    && Popped(x, y, 0) && x.log.emitted <= Flatten(y.toNext)
    && y.log.sealed == x.log.sealed + (if CloseFits(x.e) && !x.e.sent then [CloseNotify] else [])
    && (Sealless(x.e) ==> y.e.torn == x.e.torn)
    && (exists r, e1 :: ShutdownStep(x.e, r, e1) && Conserves(x.(e := e1), y))
    && (y.status == Closing || (y.status == Closed && x.log.ups + [UpDisconnected] <= y.log.ups))
    && (if !x.e.sent then
          CloseFits(x.e) ==>
            && y.status == (if x.e.got then Closed else Closing)
            && (!x.e.got && NothingToRead(x.e) ==>
                  && y.log.ups == x.log.ups && y.e.outQ == []
                  && y.e == Soaked(x.e).(sent := true, sealed := x.e.sealed + 1, outQ := y.e.outQ))
        else
          x.e.phase == Ready && x.e.torn == [] ==>
            if x.e.got then y.status == Closed
            else
              match ScanRead(x.e.rd, x.e.recvd, x.e.raw + x.e.inQ)
              case Starved(_, _) => y == x.(e := Soaked(x.e))
              case Ended(closed, _, _) => y.status == if closed then Closed else Closing
              case Data(_, _, _) => true)
  }

  /** The rest of `do_shutdown` after SSL_shutdown, with the layer above told. */
  ghost predicate Wound(y: Snapshot, z: Snapshot) {
    && Later(y, z) && z.status == y.status && Popped(y, z, 0) && y.log.emitted <= Flatten(z.toNext)
    && Conserves(y, z) && z.log.sealed == y.log.sealed && z.e.torn == y.e.torn
    && (y.status == Closed ==> y.log.ups + [UpDisconnected] <= z.log.ups)
    && (y.status == Closing && NothingToRead(y.e) ==>
          && z == y.(e := Soaked(y.e).(outQ := []), toNext := z.toNext)
          && (y.e.outQ == [] ==> z.toNext == y.toNext))
  }

  lemma ShutConcludes(x: Snapshot, y: Snapshot, z: Snapshot, r: int)
    requires Clean(x.e) && x.status == Closing && ShutdownStep(x.e, r, y.e)
    requires y == x.(status := if r == 1 then Closed else Closing, e := y.e, log := ShutdownLog(x.e, x.log, y.e))
    requires Wound(y, z)
    ensures ShutSays(x, z)
  {
    hide Later, Record, Spent, Stays, Flatten, Handed, Unread;
    assert ShutdownStep(x.e, r, y.e) && Conserves(x.(e := y.e), z) by { ShutdownSeals(x.e, x.log, r, y.e); }
    ShutdownSays(x.e, x.log, r, y.e);
    ShutdownSeals(x.e, x.log, r, y.e);
    if CloseFits(x.e) && !x.e.sent {
      FirstShutdown(x.e, r, y.e);
    } else if x.e.phase == Ready && x.e.torn == [] && !x.e.got && ScanRead(x.e.rd, x.e.recvd, x.e.raw + x.e.inQ).Starved? {
      SoakedTwice(x.e);
      SealedNothing(x.log);
    }
    hide ShutdownStep, ScanRead;
  }

  lemma ShutdownSeals(e: Engine, h: Log, r: int, e1: Engine)
    requires ShutdownStep(e, r, e1)
    ensures var h1 := ShutdownLog(e, h, e1);
            && h1.sealed == h.sealed + (if CloseFits(e) && !e.sent then [CloseNotify] else [])
            && h1.ups == h.ups && h1.spoilt == h.spoilt && h.emitted <= h1.emitted
    ensures Sealless(e) ==> e1.torn == e.torn
  {
    hide ScanRead, Record;
    assert h.sealed + [] == h.sealed;
  }

  /** The output is drained, and the layer above told if the stream has closed. */
  ghost predicate Winding(y: Snapshot, v: Snapshot) {
    && Inside(y, v) && Obeyed(y, v, 0) && v.status == y.status && y.log.emitted <= Flatten(v.toNext)
    && Conserves(y, v)
    && (y.status == Closed ==> y.log.ups + [UpDisconnected] <= v.log.ups)
    && (y.status == Closing ==>
          v == y.(e := y.e.(outQ := []), toNext := v.toNext) && (y.e.outQ == [] ==> v.toNext == y.toNext))
  }

  lemma WindingFacts(y: Snapshot, v: Snapshot)
    requires Winding(y, v)
    ensures |v.script| <= |y.script| && (v.e.phase == Handshaking ==> y.e.phase == Handshaking) && v.status == y.status
  {
  }

  lemma WindingDrained(y: Snapshot, z: Snapshot)
    requires y.status == Closed || y.status == Closing
    requires Inside(y, z) && z == y.(e := y.e.(outQ := []), toNext := z.toNext) && Body(z)
    requires y.e.outQ == [] ==> z.toNext == y.toNext
    ensures Obeyed(y, z, 0) && y.log.emitted == Flatten(z.toNext) && (y.status == Closing ==> Winding(y, z))
  {
    hide Inside, Obeyed, Conserves;
    ObeyedStep(y, z, 0);
    ConservesSame(y, z);
    assert Flatten(z.toNext) + [] == Flatten(z.toNext);
  }

  lemma WindingTold(y: Snapshot, z: Snapshot, u: Snapshot, v: Snapshot)
    requires y.status == Closed && Inside(y, z) && Inside(z, u) && Inside(u, v) && Obeyed(y, z, 0) && Obeyed(u, v, 1)
    requires y.log.emitted == Flatten(z.toNext) && Conserves(u, v)
    requires z == y.(e := y.e.(outQ := []), toNext := z.toNext)
    requires u == z.(log := z.log.(ups := z.log.ups + [UpDisconnected])) && v.status == u.status
    ensures Winding(y, v)
  {
    SnocUp(z.log.ups, UpDisconnected);
    hide Inside, Obeyed, Onward, Flatten, Later, Handed, Conserves;
    assert Handed(z.log.ups) + [] == Handed(z.log.ups);
    ConservesSame(y, u);
    ObeyedStep(z, u, -1);
    InsideOnward(y, z);
    InsideOnward(z, u);
    InsideTransitive(y, z, u);
    InsideOnward(y, u);
    InsideOnward(u, v);
    InsideFacts(y, u);
    ConservesTransitive(y, u, v) by { InsideFacts(u, v); }
    ObeyedTransitive(y, z, u, 0, -1);
    ObeyedTransitive(y, u, v, -1, 1);
    InsideTransitive(y, u, v);
    InsideFacts(u, v);
    OutputKept(u, v);
  }

  lemma WindingEnds(y: Snapshot, v: Snapshot, z: Snapshot)
    requires y.status == Closed || y.status == Closing
    requires Winding(y, v) && Inside(v, z) && Obeyed(v, z, 0) && z.status == v.status && Conserves(v, z)
    requires NothingToRead(v.e) ==> z == v.(e := Soaked(v.e))
    ensures Wound(y, z) && Inside(y, z)
  {
    hide Inside, Obeyed, Onward, NothingToRead, Soaked, Flatten, Later, Conserves;
    OutputKept(v, z);
    InsideOnward(y, v);
    InsideOnward(v, z);
    ObeyedTransitive(y, v, z, 0, 0);
    InsideTransitive(y, v, z);
    InsideFacts(y, z);
    InsideFacts(v, z);
    InsideFacts(y, v);
    ConservesTransitive(y, v, z);
    SoakedDrained(y.e);
    ObeyedMute(y, z);
  }

  /** A first SSL_shutdown leaves the reading side alone, as does one in answer to the peer. */
  lemma ClosureConserves(x: Snapshot, y: Snapshot)
    requires ShutSays(x, y) && (x.e.sent ==> x.e.got)
    ensures Conserves(x, y)
  {
    hide Popped, Flatten, Handed, Pieces, ScanRead, ShutdownStep, NothingToRead, Soaked;
    var r, e1 :| ShutdownStep(x.e, r, e1) && Conserves(x.(e := e1), y);
    ShutdownShape(x.e, r, e1);
  }

  lemma ObeyedMute(x: Snapshot, y: Snapshot)
    requires Obeyed(x, y, 0) && x.status != Connected
    ensures Popped(x, y, 0) && y.log.sealed == x.log.sealed && y.e.torn == x.e.torn
  {
    hide Popped;
  }

  lemma FirstShutdown(e: Engine, r: int, e1: Engine)
    requires CloseFits(e) && !e.sent && ShutdownStep(e, r, e1)
    ensures NothingToRead(e1) == NothingToRead(e)
    ensures Soaked(e1) == Soaked(e).(sent := true, sealed := e.sealed + 1, outQ := e1.outQ)
  {
    hide ScanRead, Record;
  }

  lemma SoakedDrained(e: Engine)
    ensures var d := e.(outQ := []); NothingToRead(d) == NothingToRead(e) && Soaked(d) == Soaked(e).(outQ := [])
  {
    hide ScanRead;
  }

  lemma SoakedTwice(e: Engine)
    requires Alive(e) && ScanRead(e.rd, e.recvd, e.raw + e.inQ).Starved?
    ensures NothingToRead(Soaked(e)) && Soaked(Soaked(e)) == Soaked(e)
  {
    ScanStarvedAgain(e.rd, e.recvd, e.raw + e.inQ);
    assert Soaked(e).raw + [] == Soaked(e).raw;
  }

  /** From the input taken to SSL_shutdown called. */
  lemma ShutdownDone(x0: Snapshot, x: Snapshot, y: Snapshot, r: int)
    requires Inv(x) && Later(x0, x) && x.status == Closing
    requires x.log.ditched || (x.e.sent ==> x.e.got)
    requires ShutdownStep(x.e, r, y.e)
    requires y == x.(status := if r == 1 then Closed else Closing, e := y.e, log := ShutdownLog(x.e, x.log, y.e))
    ensures ShutPending(y) && Later(x0, y) && Inside(x, y) && (x.e.phase == Ready ==> y.e.sent)
    ensures CloseFits(x.e) && !x.e.sent ==> y.log.sealed == x.log.sealed + [CloseNotify]
    ensures CloseFits(x.e) && (x.e.got || !x.e.sent) ==> y.status == if x.e.got then Closed else Closing
    ensures y.log.ups == x.log.ups
  {
    ShutdownSays(x.e, x.log, r, y.e);
    hide Inv, Later, Body, ShutdownStep, ShutdownLog, Inside, ShutPending;
    InvFacts(x);
    ShutdownKeeps(x, y, r);
    ShutdownPends(x, y);
    InsideFacts(x, y);
    LaterTransitive(x0, x, y);
  }

  // ----- input -----

  /** Input enters the BIO. A session that reads no more may be given less than what arrived. */
  lemma FeedKeeps(x: Snapshot, y: Snapshot, taken: seq<byte>, more: seq<byte>)
    requires Inv(x) && |x.e.inQ + taken| <= x.e.cap && (Alive(x.e) ==> more == taken)
    requires y == x.(e := x.e.(inQ := x.e.inQ + taken),
                     log := x.log.(arrived := if x.log.established then x.log.arrived + more else x.log.arrived,
                                   lost := y.log.lost))
    ensures Inv(y)
  {
    if Followed(x.log) {
      LinkedFeed(x.e, y.e, x.log.arrived, Text(x.log.ups), more);
      PiecesFeed(x.e, y.e, x.log.arrived, Text(x.log.ups), Handed(x.log.ups), more);
    }
  }

  /** Input since the handshake, and handshake input the BIO had no room for. */
  function FeedLog(e: Engine, h: Log, buf: seq<byte>): Log {
    if h.established then h.(arrived := h.arrived + buf)
    else if e.phase == Handshaking then h.(lost := h.lost + (|buf| - Min(|buf|, if |e.inQ| <= e.cap then e.cap - |e.inQ| else 0)))
    else h
  }

  lemma FeedNothing(e: Engine, h: Log)
    ensures FeedLog(e, h, []) == h && (|e.inQ| <= e.cap ==> BioWrite(e, []).1 == e)
  {
    assert h.arrived + [] == h.arrived;
  }

  /** What a chunk of input adds to the history. While the handshake runs the BIO takes no more
      than its capacity; what is left of it once the handshake is over is the first record data. */
  ghost predicate Fed(x: Snapshot, y: Snapshot, buf: seq<byte>) {
    && (x.log.established ==> y.log.arrived == x.log.arrived + buf && y.log.lost == x.log.lost)
    && (x.e.phase == Handshaking ==>
          var n := Min(|buf|, x.e.cap);
          && y.log.lost == x.log.lost + (|buf| - n)
          && (y.log.established ==>
                && |y.log.arrived| <= n && y.log.arrived == buf[n - |y.log.arrived|..n]
                && y.e.heard + y.log.arrived == x.e.heard + buf[..n])
          && (y.e.phase == Handshaking ==> y.e.heard == x.e.heard + buf[..n]))
    && (x.e.phase == Broken && !x.log.established ==>
          !y.log.established && y.log.arrived == x.log.arrived && y.log.lost == x.log.lost)
  }

  lemma FedNothing(x: Snapshot)
    requires Inv(x)
    ensures Fed(x, x, [])
  {
    assert x.log.arrived + [] == x.log.arrived && x.e.heard + [] == x.e.heard;
  }

  /** Once the peer has closed, input only adds to the history. */
  lemma IgnoredKeeps(x: Snapshot, y: Snapshot, buf: seq<byte>)
    requires Inv(x) && x.status == PeerClosing && y == x.(log := x.log.(arrived := x.log.arrived + buf))
    ensures Inv(y) && Later(x, y) && Fed(x, y, buf)
  {
    assert x.e.inQ + [] == x.e.inQ;
    FeedKeeps(x, y, [], buf);
  }

  // ----- connecting -----

  function HandshakeLog(e: Engine, h: Log, e1: Engine, hs: seq<byte>, tickets: seq<Content>): Log {
    if e.phase != Handshaking then h
    else h.(emitted := h.emitted + (hs + EncodeFrom(e.wr, 0, tickets)), hello := h.hello + hs,
            tickets := tickets, sealed := tickets,
            established := e1.phase == Ready, arrived := if e1.phase == Ready then e1.inQ else [])
  }

  /** A call of SSL_connect or SSL_accept has answered `r`. */
  function Attempted(h: Log, r: int): Log {
    h.(attempts := h.attempts + 1, entered := if r == 1 then h.entered + 1 else h.entered)
  }

  /** One more attempt at the handshake, which goes on until it is done or has failed. Each attempt after
      the handshake enters connected anew. */
  predicate Tried(x: Snapshot, y: Snapshot) {
    && y.log.attempts == x.log.attempts + 1
    && (x.e.phase == Broken || !y.log.established ==>
          y.status == if x.e.phase == Handshaking && y.e.refused then Closed else Connecting)
    && y.log.entered == x.log.entered + if y.log.established && x.e.phase != Broken then 1 else 0
  }

  /** What an attempt at the handshake has handed down and sealed: all that was emitted before the reading
      began; and after the tickets exactly what the layer above seals on being connected and on what it then
      receives, if what it writes fits. */
  ghost predicate Greeted(x: Snapshot, y: Snapshot) {
    && Popped(x, y, 0)
    && (!y.log.established ==> y.e.outQ == [])
    && (if x.e.phase != Handshaking then
          y.log.sealed == x.log.sealed && x.log.emitted <= Flatten(y.toNext)
        else y.log.established ==>
          && AllTickets(y.log.tickets) && y.log.tickets <= y.log.sealed
          && y.log.hello + EncodeFrom(y.e.wr, 0, y.log.tickets) <= Flatten(y.toNext)
          && (x.script == [] ==> y.log.sealed == y.log.tickets)
          && (Fitting(x.e, x.script) ==>
                y.log.sealed == y.log.tickets + UpsSeal(x.e, x.script, |y.log.ups| - |x.log.ups|)))
  }

  function StatusAfterHandshake(r: int): Status {
    if r == 1 then Connected else if r == 0 then Closed else Connecting
  }

  lemma HandshakeKeeps(x: Snapshot, y: Snapshot, r: int, hs: seq<byte>, tickets: seq<Content>)
    requires Body(x) && !InSession(x.status) && HandshakeStep(x.e, r, y.e, hs, tickets)
    requires var h := HandshakeLog(x.e, x.log, y.e, hs, tickets);
             y == x.(status := StatusAfterHandshake(r), e := y.e, log := Attempted(h, r))
    ensures Body(y) && Later(x, y) && y.log.ups == x.log.ups
    ensures y.log.entered == x.log.entered + if y.status == Connected then 1 else 0
    ensures y.e.phase == Handshaking ==> y.e.inQ == [] && y.status == Connecting
  {
    if x.e.phase == Handshaking {
      var enc := EncodeFrom(x.e.wr, 0, tickets);
      OutputGrows(x.e, x.toNext, x.log.emitted, hs + enc);
      assert x.log.emitted == x.log.hello by {
        assert x.log.hello + EncodeFrom(x.e.wr, 0, []) + [] == x.log.hello;
      }
      Regroup(x.log.hello, hs, enc);
      assert y.log.hello + enc + [] == y.log.hello + enc;
      if r == 1 {
        assert y.e.raw + y.e.inQ == y.e.inQ;
        PrefixedTwice([], [], Decode(y.e.rd, 0, y.e.inQ));
        assert [] + Pieces(y.e.rd, 0, y.e.inQ) == Pieces(y.e.rd, 0, y.e.inQ);
      }
    }
  }

  lemma ConnectFeeds(x: Snapshot, y: Snapshot, buf: seq<byte>)
    requires Inv(x) && !InSession(x.status) && |x.e.inQ| <= x.e.cap
    requires y == x.(e := BioWrite(x.e, buf).1, log := FeedLog(x.e, x.log, buf))
    ensures Inv(y) && Later(x, y)
  {
    var taken := y.e.inQ[|x.e.inQ|..];
    assert x.e.inQ + [] == x.e.inQ;
    FeedKeeps(x, y, taken, buf);
  }

  /** The handshake step is done, and the status follows its result. */
  ghost predicate ConnectPending(y: Snapshot) {
    && Body(y) && SessionAfter(y.log.ups) == Down
    && (y.e.phase == Handshaking ==> y.e.inQ == [] && y.status == Connecting)
    && (y.status == Connected ==> y.e.phase == Ready)
    && (if y.status == Connected then Entries(y.log.ups) + 1 == y.log.entered
        else !InSession(y.status) && Entries(y.log.ups) == y.log.entered)
  }

  lemma ConnectPends(x: Snapshot, y: Snapshot)
    requires Inv(x) && Body(y) && !InSession(x.status) && y.log.ups == x.log.ups
    requires y.e.phase == Handshaking ==> y.e.inQ == [] && y.status == Connecting
    requires !InSession(y.status) || (y.status == Connected && y.e.phase == Ready)
    requires y.log.entered == x.log.entered + if y.status == Connected then 1 else 0
    ensures ConnectPending(y)
  {
  }

  lemma HandshakeTearsNothing(e: Engine, r: int, e1: Engine, hs: seq<byte>, tickets: seq<Content>)
    requires HandshakeStep(e, r, e1, hs, tickets)
    ensures Retrying(e1) ==> Retrying(e)
  {
    hide EncodeFrom, AllTickets;
  }

  lemma ConnectUnharmed(x0: Snapshot, x: Snapshot, y: Snapshot, r: int, hs: seq<byte>, tickets: seq<Content>,
                        buf: seq<byte>)
    requires !InSession(x0.status) && |x0.e.inQ| <= x0.e.cap
    requires x == x0.(e := BioWrite(x0.e, buf).1, log := FeedLog(x0.e, x0.log, buf))
    requires HandshakeStep(x.e, r, y.e, hs, tickets)
    requires var h := HandshakeLog(x.e, x.log, y.e, hs, tickets);
             y == x.(status := StatusAfterHandshake(r), e := y.e, log := Attempted(h, r))
    ensures Unharmed(x0, y) && y.status != Closing
  {
    HandshakeTearsNothing(x.e, r, y.e, hs, tickets);
    hide Tame, EncodeFrom, HandshakeStep;
  }

  /** The rest of `do_connect` is reading and up-calls. */
  lemma DocileUnharmed(x: Snapshot, y: Snapshot)
    requires Docile(x, y) && Inside(x, y)
    ensures Unharmed(x, y)
  {
    hide Tame;
  }

  lemma ConnectStep(x0: Snapshot, x: Snapshot, y: Snapshot, r: int, hs: seq<byte>, tickets: seq<Content>,
                    buf: seq<byte>)
    requires Inv(x0) && !InSession(x0.status) && |x0.e.inQ| <= x0.e.cap
    requires x == x0.(e := BioWrite(x0.e, buf).1, log := FeedLog(x0.e, x0.log, buf))
    requires HandshakeStep(x.e, r, y.e, hs, tickets)
    requires var h := HandshakeLog(x.e, x.log, y.e, hs, tickets);
             y == x.(status := StatusAfterHandshake(r), e := y.e, log := Attempted(h, r))
    ensures ConnectPending(y) && Later(x0, y) && Unharmed(x0, y)
  {
    ConnectUnharmed(x0, x, y, r, hs, tickets, buf);
    hide Inv, Later, Body, HandshakeLog, HandshakeStep, FeedLog, BioWrite, ConnectPending;
    ConnectFeeds(x0, x, buf);
    InvFacts(x);
    HandshakeKeeps(x, y, r, hs, tickets);
    HandshakeAnswers(x.e, r, y.e, hs, tickets);
    ConnectPends(x, y);
    LaterTransitive(x0, x, y);
  }

  lemma BioKeepsPhase(e: Engine, buf: seq<byte>)
    requires |e.inQ| <= e.cap
    ensures BioWrite(e, buf).1 == e.(inQ := BioWrite(e, buf).1.inQ)
  {
  }

  lemma HandshakeAnswers(e: Engine, r: int, e1: Engine, hs: seq<byte>, tickets: seq<Content>)
    requires HandshakeStep(e, r, e1, hs, tickets)
    ensures r == 1 <==> e1.phase == Ready
    ensures e.phase != Handshaking ==> e1 == e
    ensures e.phase == Handshaking ==> (e1.refused <==> r == 0)
    ensures e.phase == Broken ==> r == -1
    ensures e1.phase == Handshaking ==> e1.inQ == []
  {
  }

  lemma HandshakeTakes(e: Engine, r: int, e1: Engine, hs: seq<byte>, tickets: seq<Content>)
    requires HandshakeStep(e, r, e1, hs, tickets) && e.phase == Handshaking
    ensures |e1.inQ| <= |e.inQ|
    ensures var used := |e.inQ| - |e1.inQ|; e1.inQ == e.inQ[used..] && e1.heard == e.heard + e.inQ[..used]
  {
    hide EncodeFrom, AllTickets;
  }

  lemma HandshakeLeaves(x0: Snapshot, x: Snapshot, y: Snapshot, r: int, hs: seq<byte>, tickets: seq<Content>,
                        buf: seq<byte>)
    requires x0.e.phase == Handshaking && x0.e.inQ == [] && x.e == BioWrite(x0.e, buf).1
    requires HandshakeStep(x.e, r, y.e, hs, tickets)
    ensures var n := Min(|buf|, x0.e.cap);
            && |y.e.inQ| <= n && y.e.inQ == buf[n - |y.e.inQ|..n]
            && y.e.heard + y.e.inQ == x0.e.heard + buf[..n]
  {
    hide HandshakeStep;
    BioFirst(x0.e, buf);
    hide BioWrite;
    HandshakeTakes(x.e, r, y.e, hs, tickets);
    SplitTaken(x0.e.heard, buf, x.e.inQ, y.e.heard, y.e.inQ);
  }

  lemma BioFirst(e: Engine, buf: seq<byte>)
    requires e.inQ == []
    ensures var e1 := BioWrite(e, buf).1;
            e1 == e.(inQ := e1.inQ) && e1.inQ <= buf && |e1.inQ| == Min(|buf|, e.cap)
  {
  }

  lemma SplitTaken(heard: seq<byte>, buf: seq<byte>, taken: seq<byte>, heard1: seq<byte>, left: seq<byte>)
    requires taken <= buf && |left| <= |taken|
    requires left == taken[|taken| - |left|..] && heard1 == heard + taken[..|taken| - |left|]
    ensures left == buf[|taken| - |left|..|taken|] && heard1 + left == heard + buf[..|taken|]
  {
    var used := |taken| - |left|;
    Regroup(heard, taken[..used], taken[used..]);
    assert taken[..used] + taken[used..] == taken && buf[..|taken|] == taken;
  }

  lemma ConnectFed(x0: Snapshot, x: Snapshot, y: Snapshot, z: Snapshot, r: int, hs: seq<byte>, tickets: seq<Content>,
                   buf: seq<byte>)
    requires (x0.e.phase == Handshaking ==> !x0.log.established) && Quiet(x0.e) && |x0.e.inQ| <= x0.e.cap
    requires (x0.e.phase == Ready ==> x0.log.established)
    requires x == x0.(e := BioWrite(x0.e, buf).1, log := FeedLog(x0.e, x0.log, buf))
    requires HandshakeStep(x.e, r, y.e, hs, tickets)
    requires var h := HandshakeLog(x.e, x.log, y.e, hs, tickets);
             y.log == Attempted(h, r) && y.status == StatusAfterHandshake(r)
    requires Inside(y, z)
    ensures Fed(x0, z, buf) && z.log.ditched == x0.log.ditched && Tried(x0, z)
  {
    hide Inside, HandshakeStep, EncodeFrom, ScanRead, BioWrite;
    InsideFacts(y, z);
    BioKeepsPhase(x0.e, buf);
    HandshakeAnswers(x.e, r, y.e, hs, tickets);
    if x0.e.phase == Handshaking {
      HandshakeLeaves(x0, x, y, r, hs, tickets, buf);
      assert y.e.phase == Handshaking ==> y.e.heard + [] == y.e.heard;
    }
  }

  lemma {:induction false} FlattenPrefix(chunks: seq<seq<byte>>, more: seq<seq<byte>>)
    requires chunks <= more
    ensures Flatten(chunks) <= Flatten(more)
  {
    FlattenAppend(chunks, more[|chunks|..]);
    assert chunks + more[|chunks|..] == more;
  }

  /** The output is drained, and the layer above told if it is connected. */
  ghost predicate Greeting(y: Snapshot, v: Snapshot) {
    Inside(y, v) && Docile(y, v) && Obeyed(y, v, 0) && y.log.emitted <= Flatten(v.toNext)
    && (y.e.phase != Ready ==> v.e.outQ == [] && v.e.phase == y.e.phase && v.status == y.status)
  }

  lemma GreetingDrained(y: Snapshot, z: Snapshot)
    requires Inside(y, z) && z == y.(e := y.e.(outQ := []), toNext := z.toNext) && Body(z)
    ensures Greeting(y, z)
  {
    hide Inside, Obeyed, Docile;
    ObeyedStep(y, z, 0);
    OutputDocile(y, z);
    assert Flatten(z.toNext) + [] == Flatten(z.toNext);
  }

  lemma GreetingTold(y: Snapshot, z: Snapshot, u: Snapshot, v: Snapshot)
    requires Greeting(y, z) && y.e.phase == Ready && y.status == Connected
    requires z == y.(e := y.e.(outQ := []), toNext := z.toNext)
    requires u == z.(log := z.log.(ups := z.log.ups + [UpConnected])) && Inside(z, u)
    requires Inside(u, v) && Docile(u, v) && Obeyed(u, v, 1)
    ensures Greeting(y, v)
  {
    hide Inside, Obeyed, Docile, Later, Flatten, Onward;
    ObeyedStep(z, u, -1);
    InsideOnward(y, z);
    InsideOnward(z, u);
    InsideTransitive(y, z, u);
    InsideOnward(y, u);
    InsideOnward(u, v);
    ObeyedTransitive(y, z, u, 0, -1);
    ObeyedTransitive(y, u, v, -1, 1);
    InsideFacts(y, u);
    OutputDocile(y, u);
    DocileTransitive(y, u, v);
    InsideTransitive(y, u, v);
    OutputKept(u, v);
  }

  lemma OutputKept(u: Snapshot, v: Snapshot)
    requires Inside(u, v)
    ensures u.toNext <= v.toNext && Flatten(u.toNext) <= Flatten(v.toNext)
  {
    FlattenPrefix(u.toNext, v.toNext);
  }

  lemma PendingBody(y: Snapshot)
    requires ConnectPending(y)
    ensures Body(y)
  {
  }

  lemma GreetingInside(y: Snapshot, v: Snapshot)
    requires Greeting(y, v)
    ensures Inside(y, v) && Docile(y, v)
  {
  }

  lemma GreetingFacts(y: Snapshot, v: Snapshot)
    requires Greeting(y, v)
    ensures |v.script| <= |y.script| && (v.e.phase == Handshaking ==> y.e.phase == Handshaking)
    ensures |v.e.inQ| <= |y.e.inQ|
  {
  }

  lemma GreetingEnds(y: Snapshot, v: Snapshot, w: Snapshot)
    requires Greeting(y, v) && Inside(v, w) && Docile(v, w) && Obeyed(v, w, 0) && (!Alive(v.e) ==> w == v)
    ensures Greeting(y, w)
  {
    hide Inside, Obeyed, Docile, Later, Flatten, Onward;
    InsideOnward(y, v);
    InsideOnward(v, w);
    ObeyedTransitive(y, v, w, 0, 0);
    InsideFacts(y, v);
    DocileTransitive(y, v, w);
    InsideTransitive(y, v, w);
    OutputKept(v, w);
  }

  lemma HandshakeSeals(x: Snapshot, y: Snapshot, r: int, hs: seq<byte>, tickets: seq<Content>)
    requires Inv(x) && !InSession(x.status) && HandshakeStep(x.e, r, y.e, hs, tickets) && Body(y)
    requires var h := HandshakeLog(x.e, x.log, y.e, hs, tickets);
             y == x.(status := StatusAfterHandshake(r), e := y.e, log := Attempted(h, r))
    ensures if x.e.phase != Handshaking then
              y.log.sealed == x.log.sealed && y.log.emitted == x.log.emitted && Mute(y)
            else
              && y.log.sealed == y.log.tickets && AllTickets(y.log.tickets)
              && y.log.emitted == y.log.hello + EncodeFrom(y.e.wr, 0, y.log.tickets)
              && (y.log.established ==> y.status == Connected && Writable(y.e))
  {
    hide EncodeFrom, Reading, AllTickets;
    if x.e.phase == Handshaking {
      var sent := y.log.hello + EncodeFrom(y.e.wr, 0, y.log.tickets);
      assert sent + [] == sent;
    }
  }

  lemma ConnectGreets(x0: Snapshot, x: Snapshot, y: Snapshot, w: Snapshot, r: int, hs: seq<byte>,
                      tickets: seq<Content>, buf: seq<byte>)
    requires Inv(x) && !InSession(x0.status) && |x0.e.inQ| <= x0.e.cap
    requires x == x0.(e := BioWrite(x0.e, buf).1, log := FeedLog(x0.e, x0.log, buf))
    requires HandshakeStep(x.e, r, y.e, hs, tickets)
    requires var h := HandshakeLog(x.e, x.log, y.e, hs, tickets);
             y == x.(status := StatusAfterHandshake(r), e := y.e, log := Attempted(h, r))
    requires Body(y) && Greeting(y, w)
    ensures Greeted(x0, w)
  {
    hide Inv, Inside, HandshakeStep, EncodeFrom, Spent, Stays, UpsSeal, Docile, Flatten, Body, AllTickets, Fitting;
    HandshakeSeals(x, y, r, hs, tickets);
    InsideFacts(y, w);
    BioKeepsPhase(x0.e, buf);
    HandshakeShape(x.e, r, y.e, hs, tickets);
    StandsEstablished(y);
    if y.log.established && x0.e.phase == Handshaking {
      var m := |w.log.ups| - |x0.log.ups|;
      FittingAlike(x0.e, y.e, x0.script);
      UpsSame(x0.e, y.e, x0.script, m);
    }
  }

  lemma HandshakeShape(e: Engine, r: int, e1: Engine, hs: seq<byte>, tickets: seq<Content>)
    requires HandshakeStep(e, r, e1, hs, tickets)
    ensures e1.maxFrag == e.maxFrag && e1.cap == e.cap && e1.wr == e.wr && e1.rd == e.rd
    ensures e.phase != Handshaking ==> e1 == e
  {
  }

  lemma StandsEstablished(y: Snapshot)
    requires Body(y)
    ensures y.e.phase == Ready ==> y.log.established
    ensures y.log.established ==> y.e.phase != Handshaking
  {
  }

  lemma FittingAlike(e: Engine, e1: Engine, script: seq<seq<AppCall>>)
    requires e1.maxFrag == e.maxFrag && e1.cap == e.cap && e1.wr == e.wr
    ensures Fitting(e1, script) == Fitting(e, script)
  {
  }

  lemma TameAlike(e: Engine, e1: Engine, script: seq<seq<AppCall>>)
    requires e1.maxFrag == e.maxFrag && e1.cap == e.cap && e1.wr == e.wr
    ensures Tame(e1, script) == Tame(e, script)
  {
  }

  // ----- the loop of `on_received` -----

  /** `fed` bytes of `buf` have entered the session, whose own count is `tot`. They agree while the
      session reads; when it has ended and the BIO is full, the count runs down. */
  ghost predicate Pumping(x0: Snapshot, x: Snapshot, buf: seq<byte>, tot: int, fed: nat) {
    && Inv(x) && Clean(x.e) && Later(x0, x) && x0.log.established && x.log.established
    && x0.status == Connected && x0.e.phase != Handshaking && Obeyed(x0, x, 0) && x.log.entered == x0.log.entered
    && (!Alive(x0.e) ==> x.log.ups == x0.log.ups)
    && -1 <= tot <= fed <= |buf|
    && x.log == x.log.(arrived := x0.log.arrived + buf[..fed], ditched := x0.log.ditched, lost := x0.log.lost)
    && (Alive(x.e) ==> tot == fed && Quiet(x.e))
    && (tot < fed ==> |x.e.inQ| == x.e.cap)
    && (x.status == Connected || Gone(x.e)) && Docile(x0, x) && Hushed(x0, x)
    && 0 < x.e.cap && |x.e.inQ| <= x.e.cap
  }

  lemma PumpBegins(x: Snapshot, buf: seq<byte>)
    requires Inv(x) && Clean(x.e) && Quiet(x.e) && x.status == Connected
    ensures Pumping(x, x, buf, 0, 0)
  {
    assert x.log.arrived + buf[..0] == x.log.arrived;
    ObeyedStep(x, x, 0);
  }

  lemma PumpFacts(x0: Snapshot, x: Snapshot, buf: seq<byte>, tot: int, fed: nat)
    requires Pumping(x0, x, buf, tot, fed)
    ensures Inv(x) && Clean(x.e) && -1 <= tot <= fed <= |buf| && |x.e.inQ| <= x.e.cap && 0 < x.e.cap
    ensures Body(x) && x.log.established && x.e.phase != Handshaking
    ensures Later(x0, x) && x.log.ditched == x0.log.ditched && x.log.lost == x0.log.lost && x0.log.established
    ensures (x.status == Connected || Gone(x.e)) && Docile(x0, x) && Hushed(x0, x) && Obeyed(x0, x, 0)
    ensures x0.status == Connected && x0.e.phase != Handshaking && (!Alive(x0.e) ==> x.log.ups == x0.log.ups)
    ensures x.log.entered == x0.log.entered
    ensures Alive(x.e) ==> tot == fed
    ensures 0 <= tot < |buf| && BioWrite(x.e, buf[tot..]).0 > 0 ==> tot == fed
  {
  }

  lemma PumpRoom(x0: Snapshot, x: Snapshot, buf: seq<byte>, tot: int, fed: nat)
    requires Pumping(x0, x, buf, tot, fed)
    ensures |x.e.inQ| <= x.e.cap && fed <= |buf| && tot <= fed
    ensures 0 <= tot < |buf| && BioWrite(x.e, buf[tot..]).0 > 0 ==> tot == fed
  {
  }

  lemma BioTakes(e: Engine, buf: seq<byte>, tot: nat)
    requires |e.inQ| <= e.cap && tot < |buf|
    ensures var (n, e1) := BioWrite(e, buf[tot..]);
            && n <= |buf| - tot && (n > 0 || (n == -1 && e1 == e && |e.inQ| == e.cap))
            && e1 == e.(inQ := e.inQ + if n > 0 then buf[tot..tot + n] else []) && |e1.inQ| <= e.cap
  {
    assert e.inQ + [] == e.inQ;
    var n := BioWrite(e, buf[tot..]).0;
    if n > 0 {
      assert buf[tot..][..n] == buf[tot..tot + n];
    }
  }

  lemma PumpArrived(x0: Snapshot, x: Snapshot, buf: seq<byte>, tot: int, fed: nat)
    requires Pumping(x0, x, buf, tot, fed)
    ensures fed <= |buf| && x.log.arrived == x0.log.arrived + buf[..fed]
    ensures tot < fed ==> |x.e.inQ| == x.e.cap
  {
  }

  lemma AliveFed(x0: Snapshot, x: Snapshot, buf: seq<byte>, tot: int, fed: nat)
    requires Pumping(x0, x, buf, tot, fed) && 0 <= tot < |buf|
    ensures Alive(x.e) ==> tot == fed && BioWrite(x.e, buf[tot..]).0 > 0
  {
  }

  lemma InputOnly(x: Snapshot, y: Snapshot)
    requires y == x.(e := x.e.(inQ := y.e.inQ), log := x.log.(arrived := y.log.arrived))
    ensures Later(x, y) && (Clean(x.e) ==> Clean(y.e))
  {
  }

  /** The BIO has been filled once more. */
  ghost predicate PumpFed(x0: Snapshot, x: Snapshot, y: Snapshot, buf: seq<byte>, tot: int, tot': int, fed': nat) {
    && -1 <= tot' <= fed' <= |buf|
    && Later(x0, x) && Later(x, y) && x0.log.established && x.log.established
    && (x.status == Connected || Gone(x.e)) && Docile(x0, x) && Hushed(x0, x)
    && x0.status == Connected && x0.e.phase != Handshaking && Obeyed(x0, x, 0) && x.log.entered == x0.log.entered
    && (!Alive(x0.e) ==> x.log.ups == x0.log.ups)
    && y.status == x.status && y.e == x.e.(inQ := y.e.inQ) && y.script == x.script
    && y.log == x.log.(arrived := x0.log.arrived + buf[..fed'], ditched := x0.log.ditched, lost := x0.log.lost)
    && (tot' < fed' ==> |y.e.inQ| == y.e.cap)
    && (if Alive(x.e) then tot < tot' == fed'
        else |x.e.inQ| < |y.e.inQ| <= y.e.cap || (tot' == tot - 1 && y.e == x.e))
  }

  lemma PumpFeeds(x0: Snapshot, x: Snapshot, y: Snapshot, buf: seq<byte>, tot: int, fed: nat)
    requires Pumping(x0, x, buf, tot, fed) && 0 <= tot < |buf|
    requires var (n, e) := BioWrite(x.e, buf[tot..]);
             y == x.(e := e, log := x.log.(arrived := x0.log.arrived + buf[..if n > 0 then fed + n else fed]))
    ensures Inv(y) && Clean(y.e) && y.e.phase != Handshaking && y.e.cap == x.e.cap
    ensures var n := BioWrite(x.e, buf[tot..]).0;
            PumpFed(x0, x, y, buf, tot, tot + n, if n > 0 then fed + n else fed)
  {
    hide Inv, Later, Clean, Quiet, Alive, Docile, Gone, Body, Pumping, BioWrite, Obeyed;
    PumpFacts(x0, x, buf, tot, fed);
    PumpArrived(x0, x, buf, tot, fed);
    BioTakes(x.e, buf, tot);
    AliveFed(x0, x, buf, tot, fed);
    var (n, e) := BioWrite(x.e, buf[tot..]);
    var taken := if n > 0 then buf[tot..tot + n] else [];
    if n > 0 {
      assert buf[..fed + n] == buf[..fed] + taken;
      Regroup(x0.log.arrived, buf[..fed], taken);
    } else {
      assert x.log.arrived + [] == x.log.arrived;
    }
    assert y.log.arrived == x.log.arrived + taken;
    FeedKeeps(x, y, taken, taken);
    InputOnly(x, y);
  }

  lemma PumpAdvances(x0: Snapshot, x: Snapshot, y: Snapshot, z: Snapshot, w: Snapshot, buf: seq<byte>,
                     tot: int, tot': int, fed': nat)
    requires PumpFed(x0, x, y, buf, tot, tot', fed') && Docile(y, z) && Hushed(y, z) && Obeyed(y, z, 0)
    requires Inside(y, z) && Quiet(z.e) && (z.status == y.status || Gone(z.e)) && (!Alive(y.e) ==> z == y)
    requires EngineOk(z.e) && Inv(w) && Inside(z, w) && w == z.(e := z.e.(outQ := []), toNext := w.toNext)
    ensures Pumping(x0, w, buf, tot', fed') && w.e.cap == x.e.cap
    ensures Alive(w.e) ==> Alive(x.e) && tot < tot'
    ensures !Alive(w.e) ==> Alive(x.e) || |w.e.inQ| > |x.e.inQ| || (|w.e.inQ| == |x.e.inQ| && tot' < tot)
  {
    hide Docile, Hushed, Tame, Obeyed;
    InsideTransitive(y, z, w);
    InsideFacts(y, w);
    LaterTransitive(x0, x, y);
    LaterTransitive(x0, y, w);
    PumpDocile(x0, x, y, z, w);
    PumpHushed(x0, x, y, z, w);
    PumpObeyed(x0, x, y, z, w);
  }

  lemma PumpObeyed(x0: Snapshot, x: Snapshot, y: Snapshot, z: Snapshot, w: Snapshot)
    requires Obeyed(x0, x, 0) && Obeyed(y, z, 0) && Later(x0, x) && Later(x, y) && Inside(y, z) && Inside(z, w)
    requires x0.status == Connected && x0.e.phase != Handshaking && x0.log.established
    requires y.e == x.e.(inQ := y.e.inQ) && y.script == x.script && y.status == x.status
    requires y.log.ups == x.log.ups && y.log.sealed == x.log.sealed
    requires w == z.(e := z.e.(outQ := []), toNext := w.toNext) && (!Alive(y.e) ==> z == y)
    ensures Obeyed(x0, w, 0)
  {
    hide Obeyed, Later, Inside;
    ObeyedStep(x, y, 0);
    ObeyedStep(z, w, 0);
    LaterTransitive(x0, x, y);
    InsideOnward(y, z);
    InsideOnward(z, w);
    OnwardConnected(x0, x);
    OnwardConnected(x0, y);
    OnwardSame(x, y);
    hide Onward;
    ObeyedTransitive(x0, x, y, 0, 0);
    ObeyedTransitive(x0, y, z, 0, 0);
    InsideTransitive(y, z, w);
    InsideFacts(y, z);
    LaterTransitive(x0, y, z);
    OnwardConnected(x0, z);
    ObeyedTransitive(x0, z, w, 0, 0);
  }

  lemma OnwardConnected(x: Snapshot, y: Snapshot)
    requires Later(x, y) && x.status == Connected && x.e.phase != Handshaking
    ensures Onward(x, y)
  {
  }

  lemma OnwardSame(x: Snapshot, y: Snapshot)
    requires Later(x, y) && x.status == y.status && x.e.phase == y.e.phase
    ensures Onward(x, y)
  {
  }

  lemma PumpHushed(x0: Snapshot, x: Snapshot, y: Snapshot, z: Snapshot, w: Snapshot)
    requires Hushed(x0, x) && Hushed(y, z) && Later(x0, x) && Later(y, z)
    requires y.e == x.e.(inQ := y.e.inQ) && y.log.ups == x.log.ups && y.log.sealed == x.log.sealed && y.status == x.status
    requires w == z.(e := z.e.(outQ := []), toNext := w.toNext)
    ensures Hushed(x0, w)
  {
    TextGrows(x0.log.ups, x.log.ups);
    TextGrows(y.log.ups, z.log.ups);
  }

  lemma PumpDocile(x0: Snapshot, x: Snapshot, y: Snapshot, z: Snapshot, w: Snapshot)
    requires Docile(x0, x) && Docile(y, z) && Later(x0, x) && Later(x, y)
    requires y.status == x.status && y.e == x.e.(inQ := y.e.inQ) && y.log.spoilt == x.log.spoilt
    requires y.script == x.script
    requires w == z.(e := z.e.(outQ := []), toNext := w.toNext)
    ensures Docile(x0, w)
  {
    hide Tame;
  }

  /** The whole buffer is accounted for. */
  ghost predicate Pumped(x0: Snapshot, y: Snapshot, buf: seq<byte>) {
    && Inv(y) && Later(x0, y) && Quiet(y.e) && Clean(y.e) && (y.status == Connected || Gone(y.e))
    && Docile(x0, y) && Hushed(x0, y) && Obeyed(x0, y, 0) && x0.status == Connected && x0.e.phase != Handshaking
    && y.log.entered == x0.log.entered
    && (!Alive(x0.e) ==> y.log.ups == x0.log.ups)
    && y.log.ditched == x0.log.ditched && y.log.lost == x0.log.lost
    && y.log.established && x0.log.established
    && y.log.arrived == x0.log.arrived + buf
  }

  lemma PumpEnds(x0: Snapshot, x: Snapshot, y: Snapshot, buf: seq<byte>, tot: int, fed: nat)
    requires Pumping(x0, x, buf, tot, fed) && fed <= |buf| && !(0 <= tot < |buf|)
    requires y == x.(log := x.log.(arrived := x0.log.arrived + buf))
    ensures Pumped(x0, y, buf)
  {
    PumpCounts(x0, x, y, buf, tot, fed);
    hide Inv, Later, Clean, Docile, Hushed, Obeyed, Alive, Quiet;
    PumpQuiet(x0, x, buf, tot, fed);
    ArrivedOnly(x0, x, y);
  }

  lemma PumpCounts(x0: Snapshot, x: Snapshot, y: Snapshot, buf: seq<byte>, tot: int, fed: nat)
    requires Pumping(x0, x, buf, tot, fed) && fed <= |buf| && !(0 <= tot < |buf|)
    requires y == x.(log := x.log.(arrived := x0.log.arrived + buf))
    ensures Inv(y)
  {
    hide Inv, Later, Docile, Hushed, Obeyed, Quiet;
    assert x.e.inQ + [] == x.e.inQ;
    Regroup(x0.log.arrived, buf[..fed], buf[fed..]);
    assert buf[..fed] + buf[fed..] == buf;
    FeedKeeps(x, y, [], buf[fed..]);
  }

  lemma PumpQuiet(x0: Snapshot, x: Snapshot, buf: seq<byte>, tot: int, fed: nat)
    requires Pumping(x0, x, buf, tot, fed)
    ensures Quiet(x.e)
  {
    hide Later, Docile, Hushed, Obeyed;
    InvFacts(x);
  }

  /** The count of input matters to none of these. */
  lemma ArrivedOnly(x0: Snapshot, x: Snapshot, y: Snapshot)
    requires y == x.(log := x.log.(arrived := y.log.arrived))
    requires Later(x0, x) && Docile(x0, x) && Hushed(x0, x) && Obeyed(x0, x, 0)
    ensures Later(x0, y) && Docile(x0, y) && Hushed(x0, y) && Obeyed(x0, y, 0)
  {
    hide Tame, Text, Spent, Stays, Answers;
  }

  /** The peer's close_notify is answered. */
  lemma PeerCloses(y: Snapshot, w: Snapshot, r: int)
    requires Inv(y) && y.e.got && !y.e.sent && y.status == Connected
    requires ShutdownStep(y.e, r, w.e)
    requires w == y.(status := PeerClosing, e := w.e, log := ShutdownLog(y.e, y.log, w.e))
    ensures Inv(w) && Inside(y, w) && Quiet(w.e)
    ensures CloseFits(y.e) ==> w.log.sealed == y.log.sealed + [CloseNotify] && w.e.sent && w.e.torn == []
    ensures w.log.sealed == y.log.sealed + (if CloseFits(y.e) then [CloseNotify] else []) && w.e.phase == y.e.phase
    ensures !Retrying(w.e) && w.log.spoilt == y.log.spoilt
  {
    ShutdownSays(y.e, y.log, r, w.e);
    ShutdownSeals(y.e, y.log, r, w.e);
    ShutdownKeeps(y, w, r);
  }

  lemma PumpDone(x0: Snapshot, y: Snapshot, u: Snapshot, w: Snapshot, buf: seq<byte>)
    requires Pumped(x0, y, buf) && Inside(y, u) && Quiet(u.e) && Inside(u, w) && Inv(w)
    requires w == u.(e := u.e.(outQ := []), toNext := w.toNext)
    requires x0.e.phase != Handshaking
    requires if y.e.got && !y.e.sent then u.status == PeerClosing && !Retrying(u.e) && u.log.spoilt == y.log.spoilt
             else u == y
    requires u.log.ups == y.log.ups && u.script == y.script && u.e.phase == y.e.phase
    requires u.log.sealed == y.log.sealed + (if y.e.got && !y.e.sent && CloseFits(y.e) then [CloseNotify] else [])
    requires u.log.entered == y.log.entered
    requires y.e.got && !y.e.sent && CloseFits(y.e) ==> u.log.sealed == y.log.sealed + [CloseNotify] && u.e.torn == []
    ensures Fed(x0, w, buf) && Later(x0, w) && Quiet(w.e) && Clean(w.e) && Unharmed(x0, w)
    ensures Answered(x0, w) && Replied(x0, w)
    ensures w.log.emitted == Flatten(w.toNext) && w.log.ditched == x0.log.ditched
    ensures w.log.sealed == u.log.sealed && w.status == u.status
  {
    hide Tame, Fed, Inv, EngineOk, Record, Obeyed, Replied, Sealless;
    InsideTransitive(y, u, w);
    InsideFacts(y, w);
    LaterTransitive(x0, y, w);
    PumpedFed(x0, y, w, buf);
    PumpReplied(x0, y, u, w, buf);
    assert w.log.emitted == Flatten(w.toNext) by {
      InvFacts(w);
      assert Flatten(w.toNext) + [] == Flatten(w.toNext);
    }
  }

  lemma RepliedTransitive(x: Snapshot, y: Snapshot, z: Snapshot)
    requires Inv(x) && Inv(y) && x.status == Connected && Later(x, y) && Later(y, z) && Replied(x, y)
    requires y.status == Connected ==> Replied(y, z)
    requires y.status == PeerClosing ==> z == y.(log := y.log.(arrived := z.log.arrived))
    requires y.status == Connected || y.status == PeerClosing
    ensures Replied(x, z)
  {
    if y.status == Connected {
      RepliedTwice(x, y, z);
    } else {
      hide Own, LastWord, Writes, Mute, Later, Popped, Inv;
      PoppedOn(x, y, z);
      SameReplies(x, y, z);
    }
  }

  lemma RepliedTwice(x: Snapshot, y: Snapshot, z: Snapshot)
    requires Inv(x) && Inv(y) && x.status == Connected && Later(x, y) && Later(y, z)
    requires y.status == Connected && Replied(x, y) && Replied(y, z)
    ensures Replied(x, z)
  {
    hide Own, LastWord, Writes, Mute, Later, Popped, Inv, Body, EngineOk, Protocol, SealedOwn, StillHeard;
    InvFacts(x);
    InvFacts(y);
    LaterSizes(x, y);
    PoppedTransitive(x, y, z, 0, 0);
    MuteOrHeard(x, y);
    HeardTwice(x, y, z);
    if Mute(x) || Writes(x) {
      OwnAdds(x, y, z);
      LastSame(x, y, z);
      SealedTwice(x, y, z);
    }
  }

  lemma HeardTwice(x: Snapshot, y: Snapshot, z: Snapshot)
    requires StillHeard(x, y) && StillHeard(y, z) && Later(x, y) && Later(y, z) && x.log.established
    requires y.status == Connected && y.e.phase != Handshaking && (Mute(x) ==> Mute(y))
    ensures StillHeard(x, z)
    ensures Mute(y) && y.e.phase != Ready ==> z.log.ups == y.log.ups
  {
    hide Writes, Mute, Later;
    LaterSizes(x, y);
    LaterSizes(y, z);
  }

  lemma SealedTwice(x: Snapshot, y: Snapshot, z: Snapshot)
    requires y.status == Connected && SealedOwn(x, y) && SealedOwn(y, z)
    requires Own(x, z) == Own(x, y) + Own(y, z) && LastWord(x, z) == LastWord(y, z)
    ensures SealedOwn(x, z)
  {
    hide Own, LastWord;
    Regroup(x.log.sealed, Own(x, y), Own(y, z));
  }

  lemma SameReplies(x: Snapshot, y: Snapshot, z: Snapshot)
    requires z == y.(log := y.log.(arrived := z.log.arrived))
    ensures Own(x, z) == Own(x, y) && LastWord(x, z) == LastWord(x, y)
  {
  }

  lemma MuteOrHeard(x: Snapshot, y: Snapshot)
    requires x.status == Connected && x.e.phase != Handshaking && Later(x, y)
    requires y.status == Connected && StillHeard(x, y)
    ensures Mute(x) ==> Mute(y)
    ensures Writes(x) ==> (Writes(y) && y.e.phase == Ready) || (Mute(y) && y.e.phase != Ready)
  {
    hide Tame, Later, Onward;
    OnwardConnected(x, y);
    MuteStays(x, y);
  }

  lemma OwnAdds(x: Snapshot, y: Snapshot, z: Snapshot)
    requires Popped(x, y, 0) && Popped(y, z, 0) && y.e.maxFrag == x.e.maxFrag
    requires y.status == Connected && y.e.cap == x.e.cap && y.e.wr == x.e.wr && (Mute(x) ==> Mute(y))
    requires Mute(x) || (Writes(y) && y.e.phase == Ready) || (Mute(y) && z.log.ups == y.log.ups)
    ensures Own(x, z) == Own(x, y) + Own(y, z)
  {
    hide Spent, Stays, UpsSeal, Fitting, Writable;
    RepliesAdd(x, y, z);
    if !Mute(x) && Mute(y) && z.log.ups != y.log.ups {
      MuteReplies(y, |z.log.ups| - |y.log.ups|);
    }
  }

  /** Who can be heard and yet is mute has nothing to say. */
  lemma MuteReplies(y: Snapshot, n: nat)
    requires Writes(y) && Mute(y)
    ensures UpsSeal(y.e, y.script, n) == []
  {
  }

  lemma LastSame(x: Snapshot, y: Snapshot, z: Snapshot)
    requires EngineOk(x.e) && Later(x, y) && Later(y, z) && y.status == Connected && x.log.established
    requires x.e.phase != Handshaking && y.e.phase != Handshaking && Replied(x, y) && (Mute(x) || Writes(x))
    ensures LastWord(x, z) == LastWord(y, z)
  {
    hide Own, Popped, Tame, Record;
    if z.e.phase == Ready {
      CloseStillFits(x.e, y.e.(outQ := []));
    }
  }

  lemma LaterSizes(x: Snapshot, y: Snapshot)
    requires Later(x, y)
    ensures y.e.maxFrag == x.e.maxFrag && y.e.cap == x.e.cap && y.e.wr == x.e.wr
    ensures x.e.phase == Broken ==> y.e.phase == Broken
    ensures x.log.established && Alive(y.e) ==> Alive(x.e)
  {
  }

  lemma PoppedOn(x: Snapshot, y: Snapshot, z: Snapshot)
    requires Popped(x, y, 0) && z == y.(log := y.log.(arrived := z.log.arrived))
    ensures Popped(x, z, 0)
  {
  }

  lemma RepliesAdd(x: Snapshot, y: Snapshot, z: Snapshot)
    requires Popped(x, y, 0) && Popped(y, z, 0) && y.status == Connected
    requires y.e.maxFrag == x.e.maxFrag && y.e.cap == x.e.cap && y.e.wr == x.e.wr
    ensures var m, n := |y.log.ups| - |x.log.ups|, |z.log.ups| - |y.log.ups|;
            && UpsSeal(x.e, x.script, m + n) == UpsSeal(x.e, x.script, m) + UpsSeal(y.e, y.script, n)
            && (n == 0 ==> UpsSeal(y.e, y.script, n) == [])
  {
    hide UpsSeal, Spent, Stays, Popped;
    PoppedFacts(x, y, 0);
    PoppedFacts(y, z, 0);
    var m, n := |y.log.ups| - |x.log.ups|, |z.log.ups| - |y.log.ups|;
    UpsSplit(x.e, x.script, m, n);
    UpsSame(x.e, y.e, y.script, n);
    NothingSealed(y.e, y.script);
  }

  /** close_notify fits at the end if it fitted at the beginning. */
  lemma CloseStillFits(e: Engine, e1: Engine)
    requires EngineOk(e) && e1.wr == e.wr && e1.cap == e.cap && e.torn == e1.torn && e.phase == e1.phase
    requires e1.outQ == []
    ensures CloseFits(e1) == CloseFits(e.(outQ := []))
  {
    hide Record, Lawful;
    RecordShape(e.wr, e.sealed, CloseNotify, []);
    RecordShape(e.wr, e1.sealed, CloseNotify, []);
  }

  lemma PumpReplied(x0: Snapshot, y: Snapshot, u: Snapshot, w: Snapshot, buf: seq<byte>)
    requires Pumped(x0, y, buf) && u.log.ups == y.log.ups && u.script == y.script && u.e.phase == y.e.phase
    requires if y.e.got && !y.e.sent then u.status == PeerClosing else u == y
    requires u.log.sealed == y.log.sealed + (if y.e.got && !y.e.sent && CloseFits(y.e) then [CloseNotify] else [])
    requires u.log.entered == y.log.entered
    requires w == u.(e := u.e.(outQ := []), toNext := w.toNext)
    ensures Replied(x0, w)
  {
    hide Inv, Spent, Stays, UpsSeal, Record, Tame, Fitting, Docile, Hushed, Quiet, Later, Sealless;
    PumpSizes(x0, y, buf);
    if y.e.got && !y.e.sent && y.e.phase == Ready && (Mute(x0) || Writes(x0)) {
      CloseStillFits(y.e, x0.e.(outQ := []));
    }
  }

  lemma PumpSizes(x0: Snapshot, y: Snapshot, buf: seq<byte>)
    requires Pumped(x0, y, buf)
    ensures y.e.maxFrag == x0.e.maxFrag && y.e.cap == x0.e.cap && y.e.wr == x0.e.wr && EngineOk(y.e)
    ensures x0.e.phase == Broken ==> y.e.phase == Broken
    ensures y.e.got && !y.e.sent ==> y.status == Connected
  {
    InvFacts(y);
  }

  lemma PumpedFed(x0: Snapshot, y: Snapshot, w: Snapshot, buf: seq<byte>)
    requires Pumped(x0, y, buf) && x0.e.phase != Handshaking
    requires w.log.arrived == y.log.arrived && w.log.lost == y.log.lost
    ensures Fed(x0, w, buf)
  {
  }
}
