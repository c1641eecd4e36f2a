/** `ssl::stream` on values: its constants and statuses, the protocol of its calls to the layer above,
    and what its `write` makes of a buffer. */
module TlsSession {
  import opened Bytes
  import opened TlsRecord
  import opened TlsEngine

  const SCRATCH := 1024 * 20   // the `buffer` of the pump loops
  const BIO_SIZE := 1024 * 5   // each half of the BIO pair of the context constructor

  datatype Side = Client | Server
  datatype Status = Closed | Connecting | Connected | PeerClosing | Closing

  // ----- the layer above -----

  /** Calls made to the layer above. */
  datatype UpCall = UpConnected | UpReceived(data: seq<byte>) | UpDisconnected

  /** Calls the layer above may make, at any time or from inside an up-call. */
  datatype AppCall = CallWrite(buf: seq<byte>) | CallDisconnect

  datatype Session = Down | Up | Disorder

  /** The protocol of up-calls: connected, then data, then disconnected, then perhaps again. */
  function SessionAfter(ups: seq<UpCall>): Session {
    if ups == [] then Down
    else
      match (SessionAfter(ups[..|ups| - 1]), ups[|ups| - 1])
      case (Down, UpConnected) => Up
      case (Up, UpReceived(_)) => Up
      case (Up, UpDisconnected) => Down
      case _ => Disorder
  }

  /** All data handed to the layer above. */
  function Text(ups: seq<UpCall>): seq<byte> {
    if ups == [] then []
    else
      var init := Text(ups[..|ups| - 1]);
      match ups[|ups| - 1]
      case UpReceived(d) => init + d
      case _ => init
  }

  /** The same, one piece for each up-call. */
  function Handed(ups: seq<UpCall>): seq<seq<byte>> {
    if ups == [] then []
    else Handed(ups[..|ups| - 1]) + if ups[|ups| - 1].UpReceived? then [ups[|ups| - 1].data] else []
  }

  lemma {:induction false} HandedText(ups: seq<UpCall>)
    ensures Flatten(Handed(ups)) == Text(ups)
  {
    if ups != [] {
      var init, u := ups[..|ups| - 1], ups[|ups| - 1];
      HandedText(init);
      if u.UpReceived? {
        FlattenSnoc(Handed(init), u.data);
      } else {
        assert Handed(init) + [] == Handed(init);
      }
    }
  }

  /** While a session lasts there are no other up-calls. */
  lemma {:induction false} OnlyReceived(ups: seq<UpCall>, more: seq<UpCall>)
    requires ups <= more && SessionAfter(ups) == Up && SessionAfter(more) == Up && Entries(ups) == Entries(more)
    ensures |Handed(more)| - |Handed(ups)| == |more| - |ups|
    decreases |more|
  {
    if |ups| < |more| {
      var init := more[..|more| - 1];
      EntriesGrow(ups, init);
      OnlyReceived(ups, init);
    } else {
      assert more == ups;
    }
  }

  lemma {:induction false} EntriesGrow(ups: seq<UpCall>, more: seq<UpCall>)
    requires ups <= more
    ensures Entries(ups) <= Entries(more)
    decreases |more|
  {
    if |ups| < |more| {
      EntriesGrow(ups, more[..|more| - 1]);
    } else {
      assert more == ups;
    }
  }

  function Marks(ups: seq<UpCall>): seq<UpCall> {
    if ups == [] then []
    else
      var init := Marks(ups[..|ups| - 1]);
      if ups[|ups| - 1].UpReceived? then init else init + [ups[|ups| - 1]]
  }

  function Entries(ups: seq<UpCall>): nat {
    if ups == [] then 0
    else Entries(ups[..|ups| - 1]) + if ups[|ups| - 1].UpConnected? then 1 else 0
  }

  lemma SnocUp(ups: seq<UpCall>, u: UpCall)
    ensures Text(ups + [u]) == Text(ups) + if u.UpReceived? then u.data else []
    ensures Handed(ups + [u]) == Handed(ups) + if u.UpReceived? then [u.data] else []
    ensures Marks(ups + [u]) == Marks(ups) + if u.UpReceived? then [] else [u]
    ensures SessionAfter(ups + [u]) ==
      match (SessionAfter(ups), u)
      case (Down, UpConnected) => Up
      case (Up, UpReceived(_)) => Up
      case (Up, UpDisconnected) => Down
      case _ => Disorder
  {
    assert (ups + [u])[..|ups|] == ups;
  }

  /** In an orderly history the connection marks alternate, starting with connected, and data
      arrives only between a connected and the next disconnected. */
  lemma {:induction false} OrderlyAlternates(ups: seq<UpCall>)
    requires SessionAfter(ups) != Disorder
    ensures var m := Marks(ups);
            && (forall i :: 0 <= i < |m| ==> m[i] == if i % 2 == 0 then UpConnected else UpDisconnected)
            && (|m| % 2 == 1 <==> SessionAfter(ups) == Up)
    ensures forall i :: 0 <= i < |ups| && ups[i].UpReceived? ==> |Marks(ups[..i])| % 2 == 1
  {
    if ups != [] {
      var init := ups[..|ups| - 1];
      OrderlyAlternates(init);
      forall i | 0 <= i < |ups| && ups[i].UpReceived?
        ensures |Marks(ups[..i])| % 2 == 1
      {
        if i < |init| {
          assert init[..i] == ups[..i];
        }
      }
    }
  }

  // ----- what the layer above does in its up-calls -----

  /** What is left of a script after so many up-calls. */
  function Spent(script: seq<seq<AppCall>>, m: nat): seq<seq<AppCall>>
    decreases m
  {
    if m == 0 || script == [] then script else Spent(script[1..], m - 1)
  }

  /** The buffers written in a list of calls. */
  function Bufs(calls: seq<AppCall>): seq<seq<byte>> {
    if calls == [] then []
    else (if calls[0].CallWrite? then [calls[0].buf] else []) + Bufs(calls[1..])
  }

  /** The buffers written in so many up-calls. */
  function Answers(script: seq<seq<AppCall>>, m: nat): seq<seq<byte>>
    decreases m
  {
    if m == 0 || script == [] then [] else Bufs(script[0]) + Answers(script[1..], m - 1)
  }

  /** The layer above disconnects in none of so many up-calls. */
  predicate Stays(script: seq<seq<AppCall>>, m: nat)
    decreases m
  {
    m == 0 || script == [] || (CallDisconnect !in script[0] && Stays(script[1..], m - 1))
  }

  lemma {:induction false} ScriptSplit(script: seq<seq<AppCall>>, m: nat, n: nat)
    ensures Spent(script, m + n) == Spent(Spent(script, m), n)
    ensures Answers(script, m + n) == Answers(script, m) + Answers(Spent(script, m), n)
    ensures Stays(script, m + n) <==> Stays(script, m) && Stays(Spent(script, m), n)
    decreases m
  {
    if m == 0 {
      assert [] + Answers(script, n) == Answers(script, n);
    } else if script != [] {
      ScriptSplit(script[1..], m - 1, n);
      Regroup(Bufs(script[0]), Answers(script[1..], m - 1), Answers(Spent(script, m), n));
    } else {
      SpentNothing(n);
    }
  }

  lemma SpentNothing(n: nat)
    ensures Spent([], n) == [] && Answers([], n) == [] && Stays([], n)
  {
  }

  lemma {:induction false} BufsSnoc(calls: seq<AppCall>, c: AppCall)
    ensures Bufs(calls + [c]) == Bufs(calls) + if c.CallWrite? then [c.buf] else []
    decreases |calls|
  {
    var all, last := calls + [c], if c.CallWrite? then [c.buf] else [];
    if calls == [] {
      assert all == [c] && Bufs(all[1..]) == [] && last + [] == [] + last;
    } else {
      assert all[0] == calls[0] && all[1..] == calls[1..] + [c];
      BufsSnoc(calls[1..], c);
      Regroup(if calls[0].CallWrite? then [calls[0].buf] else [], Bufs(calls[1..]), last);
    }
  }

  // ----- sending a buffer -----

  datatype Sending = Sending(e: Engine, out: seq<byte>, frags: seq<Content>)

  /** What `write` makes of a buffer when the output BIO is empty: seal, drain, go on. */
  function SendAll(e: Engine, buf: seq<byte>): (r: Sending)
    requires 0 < e.maxFrag && e.outQ == []
    ensures r.e.outQ == []
    decreases |buf|
  {
    if buf == [] then Sending(e, [], [])
    else
      var (n, e1) := Seal(e, buf);
      var drained := e1.(outQ := []);
      if n <= 0 then Sending(drained, e1.outQ, [])
      else
        var rest := SendAll(drained, buf[n..]);
        Sending(rest.e, e1.outQ + rest.out, [App(buf[..n])] + rest.frags)
  }

  /** Nothing waits in the output BIO, save the alert of a session that broke. */
  predicate Clean(e: Engine) {
    e.phase != Broken ==> e.outQ == []
  }

  /** `all` is what has been sent already followed by what is still to be made of `p`. */
  ghost predicate Remaining(all: Sending, e: Engine, p: seq<byte>, out: seq<byte>, frags: seq<Content>)
    requires 0 < e.maxFrag
  {
    var r := SendAll(e.(outQ := []), p);
    all == Sending(r.e, out + r.out, frags + r.frags)
  }

  lemma SendStep(all: Sending, e: Engine, p: seq<byte>, out: seq<byte>, frags: seq<Content>)
    requires 0 < e.maxFrag && |e.outQ| <= e.cap && Clean(e)
    requires Remaining(all, e, p, out, frags)
    ensures p == [] ==> all == Sending(e.(outQ := []), out, frags)
    ensures p != [] ==>
      var (k, e1) := Seal(e, p);
      && |e.outQ| <= |e1.outQ|
      && var added := e1.outQ[|e.outQ|..];
         if k > 0 then Remaining(all, e1, p[k..], out + added, frags + [App(p[..k])])
         else all == Sending(e1.(outQ := []), out + added, frags)
  {
    assert frags + [] == frags && out + [] == out;
    if p != [] {
      var (k, e1) := Seal(e, p);
      var added := e1.outQ[|e.outQ|..];
      if Writable(e) {
        assert e.(outQ := []) == e && added == e1.outQ;
      } else {
        assert added == [];
      }
      var rest := SendAll(e1.(outQ := []), p[if k > 0 then k else 0..]);
      Regroup(out, added, rest.out);
      Regroup(frags, [App(p[..if k > 0 then k else 0])], rest.frags);
    }
  }

  lemma RemainingDrained(all: Sending, e: Engine, p: seq<byte>, out: seq<byte>, frags: seq<Content>)
    requires 0 < e.maxFrag && Remaining(all, e, p, out, frags)
    ensures Remaining(all, e.(outQ := []), p, out, frags)
  {
  }

  lemma {:induction false} SendKeepsInput(e: Engine, buf: seq<byte>)
    requires 0 < e.maxFrag && e.outQ == []
    ensures var e1 := SendAll(e, buf).e; e1 == e.(sealed := e1.sealed, torn := e1.torn, tornLen := e1.tornLen)
    decreases |buf|
  {
    if buf != [] {
      var (n, e1) := Seal(e, buf);
      if n > 0 {
        SendKeepsInput(e1.(outQ := []), buf[n..]);
      }
    }
  }

  /** The fragments of several buffers, one after another. */
  function FragmentsAll(maxFrag: nat, bufs: seq<seq<byte>>): (xs: seq<Content>)
    requires 0 < maxFrag
  {
    if bufs == [] then [] else Fragments(maxFrag, bufs[0]) + FragmentsAll(maxFrag, bufs[1..])
  }

  lemma {:induction false} FragmentsAppend(maxFrag: nat, bufs: seq<seq<byte>>, more: seq<seq<byte>>)
    requires 0 < maxFrag
    ensures FragmentsAll(maxFrag, bufs + more) == FragmentsAll(maxFrag, bufs) + FragmentsAll(maxFrag, more)
    decreases |bufs|
  {
    if bufs == [] {
      assert bufs + more == more;
    } else {
      assert (bufs + more)[1..] == bufs[1..] + more;
      FragmentsAppend(maxFrag, bufs[1..], more);
      Regroup(Fragments(maxFrag, bufs[0]), FragmentsAll(maxFrag, bufs[1..]), FragmentsAll(maxFrag, more));
    }
  }

  /** They mean the buffers, concatenated. */
  lemma {:induction false} FragmentsAllMeaning(maxFrag: nat, k: nat, bufs: seq<seq<byte>>)
    requires 0 < maxFrag <= MAX_PLAINTEXT
    ensures var xs := FragmentsAll(maxFrag, bufs); Meaning(k, xs) == Decoded(Flatten(bufs), Open, k + |xs|, [])
    decreases |bufs|
  {
    if bufs != [] {
      var first := Fragments(maxFrag, bufs[0]);
      FragmentsMeaning(maxFrag, k, bufs[0]);
      FragmentsAllMeaning(maxFrag, k + |first|, bufs[1..]);
      MeaningAppend(k, first, FragmentsAll(maxFrag, bufs[1..]));
    }
  }

  /** Every record of a buffer of this length fits the empty output BIO. */
  predicate Fits(e: Engine, len: nat) {
    len == 0 || HEADER + Min(len, e.maxFrag) + e.wr.expansion <= e.cap
  }

  lemma WriteFitting(e: Engine, buf: seq<byte>)
    requires EngineOk(e) && Writable(e) && e.outQ == [] && Fits(e, |buf|) && buf != []
    ensures var n := Min(|buf|, e.maxFrag);
            Seal(e, buf) == (n, e.(outQ := Record(e.wr, e.sealed, App(buf[..n])), sealed := e.sealed + 1))
  {
    hide Record, Lawful;
    var x := App(buf[..Min(|buf|, e.maxFrag)]);
    RecordShape(e.wr, e.sealed, x, []);
    assert e.outQ + Record(e.wr, e.sealed, x) == Record(e.wr, e.sealed, x);
  }

  lemma {:induction false} SendFitting(e: Engine, buf: seq<byte>)
    requires EngineOk(e) && Writable(e) && e.outQ == [] && Fits(e, |buf|)
    ensures var r := SendAll(e, buf);
            && r.frags == Fragments(e.maxFrag, buf)
            && r.out == EncodeFrom(e.wr, e.sealed, r.frags)
            && r.e == e.(sealed := e.sealed + |r.frags|)
    decreases |buf|
  {
    if buf != [] {
      WriteFitting(e, buf);
      hide Seal, Record, Lawful, Fits;
      var n := Min(|buf|, e.maxFrag);
      var e1 := e.(sealed := e.sealed + 1);
      SendFitting(e1, buf[n..]);
      var rest := SendAll(e1, buf[n..]);
      var x := App(buf[..n]);
      assert ([x] + rest.frags)[1..] == rest.frags;
      assert EncodeFrom(e.wr, e.sealed, [x] + rest.frags) == Record(e.wr, e.sealed, x) + rest.out;
    }
  }

  /** A buffer whose first record does not fit leaves the session with a torn record, and the peer
      with nothing. */
  lemma SendOversized(e: Engine, buf: seq<byte>)
    requires EngineOk(e) && Writable(e) && e.outQ == [] && !Fits(e, |buf|)
    ensures var r := SendAll(e, buf);
            && r.frags == [] && |r.out| == e.cap && r.e.torn != []
            && Decode(e.wr, e.sealed, r.out) == Decoded([], Open, e.sealed, r.out)
  {
    TornSend(e, buf);
    hide SendAll, Record, Lawful, Seal;
    TornRecord(e.wr, e.sealed, App(buf[..Min(|buf|, e.maxFrag)]), e.cap);
  }

  /** `write` reports the full length in every case. In any session whose last record is not torn, the
      peer gets the buffer exactly when records may be sealed and fit, and otherwise no byte of it. */
  lemma SentWholeIffFits(e: Engine, buf: seq<byte>)
    requires EngineOk(e) && !Retrying(e) && e.outQ == []
    ensures var d := Decode(e.wr, e.sealed, SendAll(e, buf).out);
            && (d.text == buf <==> buf == [] || (Writable(e) && Fits(e, |buf|)))
            && (d.text == [] || d.text == buf)
  {
    if Writable(e) && Fits(e, |buf|) {
      SendFitting(e, buf);
      DecodeEncode(e.wr, e.sealed, Fragments(e.maxFrag, buf));
      FragmentsMeaning(e.maxFrag, e.sealed, buf);
    } else if Writable(e) {
      SendOversized(e, buf);
    }
  }

  // ----- sending with a record torn -----

  /** What a `write` adds to the sealed records when the record `cut` is torn, and stands for the first
      `len` bytes of the buffer: nothing; or that record; or that record and all records of what follows
      those bytes. The bytes themselves are never sealed. */
  predicate Resealed(maxFrag: nat, cut: Content, len: nat, buf: seq<byte>, more: seq<Content>)
    requires 0 < maxFrag
  {
    || more == []
    || (len <= |buf| && (more == [cut] || more == [cut] + Fragments(maxFrag, buf[len..])))
  }

  /** So the peer reads the text of the torn record, which is that of an earlier buffer, in place of the
      first bytes of this one. */
  lemma ResealedMeaning(maxFrag: nat, cut: Content, len: nat, buf: seq<byte>, more: seq<Content>, k: nat)
    requires 0 < maxFrag && cut.App? && Resealed(maxFrag, cut, len, buf, more)
    ensures var text := Meaning(k, more).text;
            text == [] || (len <= |buf| && (text == cut.data || text == cut.data + buf[len..]))
  {
    if more != [] {
      var rest := more[1..];
      assert more == [cut] + rest && Meaning(k + 1, []) == Decoded([], Open, k + 1, []);
      FragmentsMeaning(maxFrag, k + 1, buf[len..]);
      assert cut.data + [] == cut.data;
    }
  }

  /** For instance two buffers of one record's length that does not fit, one written after the other from the
      same place: the second write may be taken whole, and the peer then reads the first buffer. */
  lemma SecondWriteSendsFirst(e: Engine, buf: seq<byte>, buf2: seq<byte>)
    requires EngineOk(e) && Writable(e) && e.outQ == [] && !Fits(e, |buf|) && |buf| == |buf2| <= e.maxFrag
    requires HEADER + |buf| + e.wr.expansion <= 2 * e.cap
    ensures var r := SendAll(e, buf);
            && WriteStep(r.e, buf2, |buf2|, Finished(r.e))
            && Finished(r.e).outQ == r.e.torn
            && Decode(e.wr, e.sealed, r.out + r.e.torn).text == buf
  {
    hide Record, Lawful, EncodeFrom, Decode, Meaning, SendAll;
    assert buf[..|buf|] == buf;
    TornSend(e, buf);
    OneRecord(e.wr, e.sealed, buf);
    var rec := Record(e.wr, e.sealed, App(buf));
    assert rec[..e.cap] + rec[e.cap..] == rec;
    hide Seal;
  }

  lemma TornSend(e: Engine, buf: seq<byte>)
    requires EngineOk(e) && Writable(e) && e.outQ == [] && !Fits(e, |buf|)
    ensures var n := Min(|buf|, e.maxFrag);
            var rec := Record(e.wr, e.sealed, App(buf[..n]));
            && |rec| == HEADER + n + e.wr.expansion && |rec| > e.cap
            && SendAll(e, buf) == Sending(e.(torn := rec[e.cap..], tornLen := n), rec[..e.cap], [])
  {
    hide Record, Lawful;
    var x := App(buf[..Min(|buf|, e.maxFrag)]);
    RecordShape(e.wr, e.sealed, x, []);
    assert e.outQ + Record(e.wr, e.sealed, x)[..e.cap] == Record(e.wr, e.sealed, x)[..e.cap];
  }

  lemma OneRecord(c: Cipher, k: nat, buf: seq<byte>)
    requires Lawful(c) && Sealable(App(buf))
    ensures Decode(c, k, Record(c, k, App(buf))).text == buf
  {
    hide Record;
    var x := App(buf);
    assert EncodeFrom(c, k, [x]) == Record(c, k, x) by {
      assert EncodeFrom(c, k + 1, []) == [] && [x][1..] == [] && Record(c, k, x) + [] == Record(c, k, x);
    }
    DecodeEncode(c, k, [x]);
    assert Meaning(k + 1, []) == Decoded([], Open, k + 1, []) && buf + [] == buf;
  }

  /** With the default sizes and a 17-byte expansion, 5098 bytes go through and 5099 do not. */
  lemma LargestSend(e: Engine, buf: seq<byte>)
    requires EngineOk(e) && Writable(e) && e.outQ == []
    requires e.cap == BIO_SIZE && e.maxFrag == MAX_PLAINTEXT && e.wr.expansion == 17
    ensures Decode(e.wr, e.sealed, SendAll(e, buf).out).text == buf <==> |buf| <= 5098
  {
    SentWholeIffFits(e, buf);
  }
}
