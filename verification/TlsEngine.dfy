/** The TLS session object and its BIO pair, seen through the calls the stream makes.
    The library itself is foreign code: each operation is a contract, and the bodies of the
    operations that leave something open only witness that the contract can be met. */
module TlsEngine {
  import opened Bytes
  import opened TlsRecord

  /** `Broken`: a fatal error happened, on either side. */
  datatype Phase = Handshaking | Ready | Broken

  datatype Engine = Engine(
    rd: Cipher, wr: Cipher,   // protection of the two directions, once Ready
    maxFrag: nat,             // largest plaintext put in one record
    cap: nat,                 // capacity of each half of the BIO pair
    phase: Phase,
    inQ: seq<byte>,           // BIO pair, towards the session
    outQ: seq<byte>,          // BIO pair, towards the network
    heard: seq<byte>,         // handshake input the session has taken
    refused: bool,            // the handshake ended in good order without success
    raw: seq<byte>,           // bytes of an incomplete record held by the session
    recvd: nat,               // records opened
    sealed: nat,              // records put whole into outQ
    torn: seq<byte>,          // the part of a record that did not fit in outQ
    tornLen: nat,             // the count SSL_write answers once that part is out
    sent: bool, got: bool)    // shutdown flags: close_notify sent, received

  ghost predicate EngineOk(e: Engine) {
    && Lawful(e.rd) && Lawful(e.wr)
    && 0 < e.maxFrag <= MAX_PLAINTEXT
    && 0 < e.cap
    && |e.inQ| <= e.cap && |e.outQ| <= e.cap
  }

  /** The session still reads its input. */
  predicate Alive(e: Engine) {
    e.phase == Ready && !e.got
  }

  // ----- the BIO pair, network side -----

  function BioWrite(e: Engine, buf: seq<byte>): (r: (int, Engine))
    requires |e.inQ| <= e.cap
    ensures -1 <= r.0 <= |buf|
  {
    var n := Min(|buf|, e.cap - |e.inQ|);
    if buf == [] then (0, e)
    else if |e.inQ| == e.cap then (-1, e)
    else (n, e.(inQ := e.inQ + buf[..n]))
  }

  function BioRead(e: Engine, size: nat): (seq<byte>, Engine) {
    var n := Min(size, |e.outQ|);
    (e.outQ[..n], e.(outQ := e.outQ[n..]))
  }

  // ----- SSL_read -----

  datatype Scan =
    | Data(data: seq<byte>, next: nat, rest: seq<byte>)
    | Starved(next: nat, rest: seq<byte>)
    | Ended(closed: bool, next: nat, rest: seq<byte>)

  /** The first record that matters to the application: empty ones and tickets are skipped. */
  function ScanRead(c: Cipher, k: nat, s: seq<byte>): (r: Scan)
    ensures r.Data? ==> 0 < |r.data| <= MAX_PLAINTEXT && |r.rest| < |s|
    ensures |r.rest| <= |s|
    ensures r.Starved? ==> r.rest == [] || Incomplete(r.rest)
    decreases |s|
  {
    if Incomplete(s) then Starved(k, s)
    else match FirstContent(c, k, s)
      case App(d) => if d == [] then ScanRead(c, k + 1, AfterFirst(s)) else Data(d, k + 1, AfterFirst(s))
      case Ticket(_) => ScanRead(c, k + 1, AfterFirst(s))
      case CloseNotify => Ended(true, k + 1, AfterFirst(s))
      case _ => Ended(false, k + 1, AfterFirst(s))
  }

  /** Reading record by record follows the decoding of the whole. */
  lemma {:induction false} ScanDecode(c: Cipher, k: nat, s: seq<byte>)
    ensures Decode(c, k, s) ==
      match ScanRead(c, k, s)
      case Data(d, n, rest) => Prefixed(d, Decode(c, n, rest))
      case Starved(n, rest) => Decoded([], Open, n, rest)
      case Ended(closed, n, _) => Decoded([], if closed then Shut else Failed, n, [])
    decreases |s|
  {
    if !Incomplete(s) {
      var x := FirstContent(c, k, s);
      if x == App([]) || x.Ticket? {
        ScanDecode(c, k + 1, AfterFirst(s));
        PrefixedTwice([], [], Decode(c, k + 1, AfterFirst(s)));
      }
    }
  }

  lemma {:induction false} ScanPieces(c: Cipher, k: nat, s: seq<byte>)
    ensures Pieces(c, k, s) ==
      match ScanRead(c, k, s)
      case Data(d, n, rest) => [d] + Pieces(c, n, rest)
      case _ => []
    decreases |s|
  {
    if !Incomplete(s) {
      var x := FirstContent(c, k, s);
      if x == App([]) || x.Ticket? {
        ScanPieces(c, k + 1, AfterFirst(s));
        assert [] + Pieces(c, k + 1, AfterFirst(s)) == Pieces(c, k + 1, AfterFirst(s));
      }
    }
  }

  /** A positive result is the text of one record. Otherwise the session has taken in its whole
      input, unless it ended: by close_notify, or by a fatal error, which may emit an alert. */
  ghost predicate ReadStep(e: Engine, n: int, data: seq<byte>, e': Engine, alert: seq<byte>) {
    if !Alive(e) then n <= 0 && e' == e && alert == []
    else
      match ScanRead(e.rd, e.recvd, e.raw + e.inQ)
      case Data(d, k, rest) =>
        && n == |d| && data == d && alert == []
        && e'.raw + e'.inQ == rest && |e'.inQ| <= |e.inQ|
        && e' == e.(raw := e'.raw, inQ := e'.inQ, recvd := k)
      case Starved(k, rest) =>
        n <= 0 && alert == [] && e' == e.(raw := rest, inQ := [], recvd := k)
      case Ended(closed, k, rest) =>
        && n <= 0
        && (closed ==> alert == [])
        && |e.outQ + alert| <= e.cap
        && |e'.inQ| <= |e.inQ| && |e'.raw| + |e'.inQ| <= |e.raw| + |e.inQ|
        && e' == e.(raw := e'.raw, inQ := e'.inQ, recvd := k, got := closed || e'.got,
                    outQ := e.outQ + alert, phase := if closed then Ready else Broken)
  }

  method AnyAlert(e: Engine, none: bool) returns (a: seq<byte>)
    requires |e.outQ| <= e.cap
    ensures |e.outQ + a| <= e.cap && (none ==> a == [])
  {
    a := *;
    if none || |e.outQ + a| > e.cap {
      a := [];
      assert e.outQ + a == e.outQ;
    }
  }

  method SslRead(e: Engine) returns (n: int, data: seq<byte>, e': Engine, ghost alert: seq<byte>)
    requires EngineOk(e)
    requires e.phase == Handshaking ==> e.inQ == []
    ensures ReadStep(e, n, data, e', alert) && EngineOk(e')
  {
    n, data, e', alert := -1, [], e, [];
    if Alive(e) {
      var r := ScanRead(e.rd, e.recvd, e.raw + e.inQ);
      hide Lawful, ScanRead;
      var (raw, inQ) := Held(r.rest, |e.inQ|);
      match r {
        case Data(d, k, _) =>
          n, data, e' := |d|, d, e.(raw := raw, inQ := inQ, recvd := k);
        case Starved(k, rest) =>
          e' := e.(raw := rest, inQ := [], recvd := k);
        case Ended(closed, k, _) =>
          var g: bool := *;
          var a := AnyAlert(e, closed);
          alert := a;
          e' := e.(raw := raw, inQ := inQ, recvd := k, got := closed || g,
                   outQ := e.outQ + a, phase := if closed then Ready else Broken);
      }
    }
  }

  /** How what is left may be divided between the session and the BIO. */
  function Held(rest: seq<byte>, room: nat): (r: (seq<byte>, seq<byte>))
    ensures r.0 + r.1 == rest && |r.1| <= room && |r.0| + |r.1| == |rest|
  {
    var kept := if |rest| <= room then 0 else |rest| - room;
    assert rest[..kept] + rest[kept..] == rest;
    (rest[..kept], rest[kept..])
  }

  // ----- SSL_write, with partial writes enabled -----

  predicate Writable(e: Engine) {
    e.phase == Ready && !e.sent && e.torn == []
  }

  /** A record is torn, and the rest of it waits for the call to be repeated. */
  predicate Retrying(e: Engine) {
    e.phase == Ready && !e.sent && e.torn != []
  }

  /** One record is sealed. If it does not fit, as much of it as fits is put in the BIO and the rest is
      kept. */
  function Seal(e: Engine, p: seq<byte>): (r: (int, Engine))
    requires p != [] && e.maxFrag > 0 && |e.outQ| <= e.cap
    ensures r.0 > 0 ==> Writable(e) && r.1.torn == [] && r.0 == Min(|p|, e.maxFrag)
    ensures r.0 <= |p| && |e.outQ| <= |r.1.outQ| <= e.cap && e.sealed <= r.1.sealed
    ensures r.1 == e.(outQ := r.1.outQ, sealed := r.1.sealed, torn := r.1.torn, tornLen := r.1.tornLen)
  {
    var n := Min(|p|, e.maxFrag);
    var rec := Record(e.wr, e.sealed, App(p[..n]));
    var room := e.cap - |e.outQ|;
    if !Writable(e) then (-1, e)
    else if |rec| <= room then (n, e.(outQ := e.outQ + rec, sealed := e.sealed + 1))
    else (-1, e.(outQ := e.outQ + rec[..room], torn := rec[room..], tornLen := n))
  }

  /** The rest of the torn record has gone out. */
  function Finished(e: Engine): Engine {
    e.(outQ := e.outQ + e.torn, torn := [], sealed := e.sealed + 1)
  }

  /** A call with a record torn. Whether it counts as a repetition is for the library to say, which
      compares the address and length of the buffer with those of the first call. If it does not, it is
      refused, perhaps for good. If it does, the rest of the record goes out, the bytes the record
      stands for count as written, and the session goes on with the bytes after them. */
  ghost predicate RetryStep(e: Engine, p: seq<byte>, n: int, e': Engine)
    requires e.maxFrag > 0 && |e.outQ| <= e.cap
  {
    var room := e.cap - |e.outQ|;
    || (n <= 0 && (e' == e || e' == e.(phase := Broken)))
    || (n <= 0 && |e.torn| > room && e' == e.(outQ := e.outQ + e.torn[..room], torn := e.torn[room..]))
    || (&& e.tornLen <= |p| && |e.torn| <= room
        && var q := p[e.tornLen..];
           if q == [] then n == |p| && e' == Finished(e)
           else
             var (k, e1) := Seal(Finished(e), q);
             if k > 0 then n == e.tornLen + k && e' == e1
             else n <= 0 && e' == e1.(tornLen := e.tornLen + e1.tornLen))
  }

  ghost predicate WriteStep(e: Engine, p: seq<byte>, n: int, e': Engine)
    requires p != [] && e.maxFrag > 0 && |e.outQ| <= e.cap
  {
    if Retrying(e) then RetryStep(e, p, n, e') else (n, e') == Seal(e, p)
  }

  method SslWrite(e: Engine, p: seq<byte>) returns (n: int, e': Engine)
    requires p != [] && e.maxFrag > 0 && |e.outQ| <= e.cap
    ensures WriteStep(e, p, n, e')
  {
    hide Record;
    if !Retrying(e) {
      var r := Seal(e, p);
      return r.0, r.1;
    }
    var room := e.cap - |e.outQ|;
    var repeated: bool, fatal: bool := *, *;
    if !repeated || (|e.torn| <= room && |p| < e.tornLen) {
      return -1, if fatal then e.(phase := Broken) else e;
    }
    if |e.torn| > room {
      return -1, e.(outQ := e.outQ + e.torn[..room], torn := e.torn[room..]);
    }
    if p[e.tornLen..] == [] {
      return |p|, Finished(e);
    }
    var r := Seal(Finished(e), p[e.tornLen..]);
    n, e' := if r.0 > 0 then e.tornLen + r.0 else -1,
             if r.0 > 0 then r.1 else r.1.(tornLen := e.tornLen + r.1.tornLen);
  }

  // ----- SSL_connect / SSL_accept -----

  predicate AllTickets(xs: seq<Content>) {
    forall x <- xs :: x.Ticket? && Sealable(x)
  }

  /** Done, failed or wanting input. Output always fits: a flight larger than the BIO is outside
      this contract. */
  ghost predicate HandshakeStep(e: Engine, r: int, e': Engine, hs: seq<byte>, tickets: seq<Content>) {
    && AllTickets(tickets)
    && match e.phase
       case Ready => r == 1 && e' == e && hs == [] && tickets == []
       case Broken => r == -1 && e' == e && hs == [] && tickets == []
       case Handshaking =>
         && (r == 1 || r == 0 || r == -1)
         && (r == 1 <==> e'.phase == Ready)
         && (r == 0 ==> e'.phase == Broken)
         && (e'.phase == Handshaking ==> e'.inQ == [])
         && |e'.inQ| <= |e.inQ| && e'.inQ == e.inQ[|e.inQ| - |e'.inQ|..]
         && e'.heard == e.heard + e.inQ[..|e.inQ| - |e'.inQ|] && (e'.refused <==> r == 0)
         && (r != 1 ==> tickets == [])
         && (e'.phase != Broken ==> !e'.got)
         && |e'.outQ| <= e.cap
         && e' == e.(phase := e'.phase, inQ := e'.inQ, heard := e'.heard, refused := e'.refused,
                     got := e'.got, raw := [], recvd := 0,
                     outQ := e.outQ + (hs + EncodeFrom(e.wr, 0, tickets)), sealed := |tickets|, torn := [])
  }

  /** Some handshake output, and some tickets after it if the handshake is done. */
  method AnyFlight(e: Engine, done: bool) returns (out: seq<byte>, tickets: seq<Content>)
    requires |e.outQ| <= e.cap
    ensures AllTickets(tickets) && (!done ==> tickets == [])
    ensures |e.outQ + (out + EncodeFrom(e.wr, 0, tickets))| <= e.cap
  {
    out, tickets := *, *;
    if !done || !AllTickets(tickets) { tickets := []; }
    if |e.outQ + (out + EncodeFrom(e.wr, 0, tickets))| > e.cap {
      out, tickets := [], [];
    }
  }

  method SslHandshake(e: Engine)
    returns (r: int, e': Engine, ghost hs: seq<byte>, ghost tickets: seq<Content>)
    requires EngineOk(e)
    ensures HandshakeStep(e, r, e', hs, tickets) && EngineOk(e')
  {
    hs, tickets := [], [];
    match e.phase {
      case Ready => r, e' := 1, e;
      case Broken => r, e' := -1, e;
      case Handshaking =>
        var used: int, broken: bool := *, *;
        r := *;
        if r != 1 && r != 0 { r := -1; }
        var out, ts := AnyFlight(e, r == 1);
        hide EncodeFrom, Lawful, AllTickets;
        var phase := if r == 1 then Ready else if r == 0 || broken then Broken else Handshaking;
        if phase == Handshaking || !(0 <= used <= |e.inQ|) { used := |e.inQ|; }
        hs, tickets := out, ts;
        e' := e.(phase := phase, inQ := e.inQ[used..], heard := e.heard + e.inQ[..used], refused := r == 0,
                 got := false, raw := [], recvd := 0,
                 outQ := e.outQ + (out + EncodeFrom(e.wr, 0, ts)), sealed := |ts|, torn := []);
    }
  }

  // ----- SSL_shutdown -----

  /** The first call queues close_notify. A later one, while the peer's is still missing, reads on; if it
      meets application data, it may throw it away or fail. */
  ghost predicate ShutdownStep(e: Engine, r: int, e': Engine) {
    var rec := Record(e.wr, e.sealed, CloseNotify);
    var room := e.cap - |e.outQ|;
    if e.phase != Ready then r == -1 && e' == e
    else if !e.sent then
      if e.torn != [] then r == -1 && e' == e.(sent := true)
      else if |rec| <= room then
        && r == (if e.got then 1 else 0)
        && e' == e.(sent := true, outQ := e.outQ + rec, sealed := e.sealed + 1)
      else r == -1 && 0 <= room && e' == e.(sent := true, outQ := e.outQ + rec[..room], torn := rec[room..])
    else if e.torn != [] then r == -1 && e' == e
    else if e.got then r == 1 && e' == e
    else
      && r == (if e'.phase == Ready && e'.got then 1 else -1)
      && e'.phase != Handshaking
      && |e'.inQ| <= |e.inQ| && |e'.raw| + |e'.inQ| <= |e.raw| + |e.inQ|
      && e.outQ <= e'.outQ && |e'.outQ| <= e.cap && (e'.phase == Ready ==> e'.outQ == e.outQ)
      && e' == e.(phase := e'.phase, raw := e'.raw, inQ := e'.inQ, recvd := e'.recvd, got := e'.got, outQ := e'.outQ)
      && match ScanRead(e.rd, e.recvd, e.raw + e.inQ)
         case Starved(k, rest) => e' == e.(raw := rest, inQ := [], recvd := k)
         case Ended(closed, _, _) => if closed then r == 1 else e'.phase == Broken
         case Data(_, _, _) => true
  }

  method SslShutdown(e: Engine) returns (r: int, e': Engine)
    requires EngineOk(e)
    ensures ShutdownStep(e, r, e') && EngineOk(e')
  {
    r, e' := -1, e;
    if e.phase == Ready {
      if !e.sent {
        var rec := Record(e.wr, e.sealed, CloseNotify);
        var room := e.cap - |e.outQ|;
        if e.torn != [] {
          e' := e.(sent := true);
        } else if |rec| <= room {
          r := if e.got then 1 else 0;
          e' := e.(sent := true, outQ := e.outQ + rec, sealed := e.sealed + 1);
        } else {
          e' := e.(sent := true, outQ := e.outQ + rec[..room], torn := rec[room..]);
        }
      } else if e.torn == [] {
        if e.got {
          r := 1;
        } else {
          var s := ScanRead(e.rd, e.recvd, e.raw + e.inQ);
          match s {
            case Starved(k, rest) => e' := e.(raw := rest, inQ := [], recvd := k);
            case Ended(closed, k, rest) =>
              var (raw, inQ) := Held(rest, |e.inQ|);
              var a := AnyAlert(e, closed);
              assert e.outQ + [] == e.outQ;
              e' := e.(raw := raw, inQ := inQ, recvd := k, got := closed, outQ := e.outQ + a,
                       phase := if closed then Ready else Broken);
              r := if closed then 1 else -1;
            case Data(_, k, rest) =>
              var (raw, inQ) := Held(rest, |e.inQ|);
              var fails: bool := *;
              e' := e.(raw := raw, inQ := inQ, recvd := k, phase := if fails then Broken else Ready);
          }
        }
      }
    }
  }

  // ----- what the session has understood of its input -----

  /** `text` has been handed out; together with what is still held it makes up the meaning of
      `arrived`, the bytes that entered since the handshake. */
  ghost predicate Linked(e: Engine, arrived: seq<byte>, text: seq<byte>) {
    var d := Decode(e.rd, 0, arrived);
    if Alive(e) then d == Prefixed(text, Decode(e.rd, e.recvd, e.raw + e.inQ))
    else d.text == text && d.end != Open && (d.end == Shut ==> e.got && e.phase == Ready)
  }

  /** And so do the pieces handed out, one for each record with a text. */
  ghost predicate InPieces(e: Engine, arrived: seq<byte>, parts: seq<seq<byte>>) {
    Pieces(e.rd, 0, arrived) == parts + if Alive(e) then Pieces(e.rd, e.recvd, e.raw + e.inQ) else []
  }

  lemma PiecesFeed(e: Engine, e': Engine, arrived: seq<byte>, text: seq<byte>, parts: seq<seq<byte>>, more: seq<byte>)
    requires Linked(e, arrived, text) && InPieces(e, arrived, parts)
    requires Alive(e) ==> e' == e.(inQ := e.inQ + more)
    requires !Alive(e) ==> !Alive(e') && e'.rd == e.rd
    ensures InPieces(e', arrived + more, parts)
  {
    hide Pieces, Decode;
    PiecesSplit(e.rd, 0, arrived, more);
    if Alive(e) {
      var held := e.raw + e.inQ;
      PiecesSplit(e.rd, e.recvd, held, more);
      assert e'.raw + e'.inQ == held + more;
      var d := Decode(e.rd, e.recvd, held);
      Regroup(parts, Pieces(e.rd, e.recvd, held), if d.end == Open then Pieces(e.rd, d.next, d.rest + more) else []);
    }
  }

  lemma PiecesRead(e: Engine, e': Engine, arrived: seq<byte>, parts: seq<seq<byte>>)
    requires Alive(e) && InPieces(e, arrived, parts) && e'.rd == e.rd
    requires match ScanRead(e.rd, e.recvd, e.raw + e.inQ)
      case Data(d, k, rest) => Alive(e') && e'.raw + e'.inQ == rest && e'.recvd == k
      case Starved(k, rest) => Alive(e') && e'.raw == rest && e'.inQ == [] && e'.recvd == k
      case Ended(_, _, _) => !Alive(e')
    ensures var r := ScanRead(e.rd, e.recvd, e.raw + e.inQ);
            InPieces(e', arrived, parts + if r.Data? then [r.data] else [])
  {
    ScanPieces(e.rd, e.recvd, e.raw + e.inQ);
    assert parts + [] == parts;
    match ScanRead(e.rd, e.recvd, e.raw + e.inQ) {
      case Data(d, k, rest) => Regroup(parts, [d], Pieces(e.rd, k, rest));
      case Starved(k, rest) =>
        assert e'.raw + e'.inQ == rest;
        ScanStarvedAgain(e.rd, e.recvd, e.raw + e.inQ);
        ScanPieces(e.rd, k, rest);
      case Ended(_, _, _) =>
    }
  }

  lemma DecodeFeed(c: Cipher, arrived: seq<byte>, text: seq<byte>, k: nat, held: seq<byte>, more: seq<byte>)
    requires Decode(c, 0, arrived) == Prefixed(text, Decode(c, k, held))
    ensures Decode(c, 0, arrived + more) == Prefixed(text, Decode(c, k, held + more))
  {
    DecodeSplit(c, 0, arrived, more);
    DecodeSplit(c, k, held, more);
    var d := Decode(c, k, held);
    if d.end == Open {
      PrefixedTwice(text, d.text, Decode(c, d.next, d.rest + more));
    }
  }

  /** Bytes entering the session keep the link; a session that reads no more ignores them. */
  lemma LinkedFeed(e: Engine, e': Engine, arrived: seq<byte>, text: seq<byte>, more: seq<byte>)
    requires Linked(e, arrived, text)
    requires Alive(e) ==> e' == e.(inQ := e.inQ + more)
    requires !Alive(e) ==> !Alive(e') && e'.rd == e.rd && (e.got ==> e'.got) && e'.phase == e.phase
    ensures Linked(e', arrived + more, text)
  {
    if Alive(e) {
      DecodeFeed(e.rd, arrived, text, e.recvd, e.raw + e.inQ, more);
      assert e'.raw + e'.inQ == e.raw + e.inQ + more;
    } else {
      DecodeSplit(e.rd, 0, arrived, more);
    }
  }

  /** SSL_read keeps the link, whatever its result. */
  lemma LinkedRead(e: Engine, e': Engine, arrived: seq<byte>, text: seq<byte>)
    requires Alive(e) && Linked(e, arrived, text) && e'.rd == e.rd
    requires match ScanRead(e.rd, e.recvd, e.raw + e.inQ)
      case Data(d, k, rest) => Alive(e') && e'.raw + e'.inQ == rest && e'.recvd == k
      case Starved(k, rest) => Alive(e') && e'.raw == rest && e'.inQ == [] && e'.recvd == k
      case Ended(closed, _, _) => !Alive(e') && (closed ==> e'.got && e'.phase == Ready)
    ensures var r := ScanRead(e.rd, e.recvd, e.raw + e.inQ);
            Linked(e', arrived, text + if r.Data? then r.data else [])
  {
    ScanDecode(e.rd, e.recvd, e.raw + e.inQ);
    match ScanRead(e.rd, e.recvd, e.raw + e.inQ) {
      case Data(d, k, rest) => PrefixedTwice(text, d, Decode(e.rd, k, rest));
      case Starved(k, rest) =>
        assert e'.raw + e'.inQ == rest;
        ScanStarvedAgain(e.rd, e.recvd, e.raw + e.inQ);
        ScanDecode(e.rd, k, rest);
        assert text + [] == text;
      case Ended(_, _, _) => assert text + [] == text;
    }
  }

  lemma {:induction false} ScanStarvedAgain(c: Cipher, k: nat, s: seq<byte>)
    requires ScanRead(c, k, s).Starved?
    ensures var r := ScanRead(c, k, s); ScanRead(c, r.next, r.rest) == r
    decreases |s|
  {
    if !Incomplete(s) {
      ScanStarvedAgain(c, k + 1, AfterFirst(s));
    }
  }
}
