/** The TLS record layer as the two ends of a connection see it once the handshake is over:
    framing as in sections 5.1 and 5.2 of RFC 8446, closure as in section 6.1 of RFC 8446.
    Protection itself is abstract: any pair of functions meeting `Lawful`. */
module TlsRecord {
  import opened Bytes

  const HEADER := 5
  const MAX_PLAINTEXT := 16384
  const MAX_CIPHERTEXT := MAX_PLAINTEXT + 256

  /** What a protected record turns out to carry. `Ticket` stands for the post-handshake
      messages that concern neither the application nor the output side. */
  datatype Content =
    | App(data: seq<byte>)
    | Ticket(body: seq<byte>)
    | CloseNotify
    | FatalAlert
    | Bad

  /** One direction of traffic protection; the first argument is the record number. */
  datatype Cipher = Cipher(
    seal: (nat, Content) -> seq<byte>,
    open: (nat, seq<byte>) -> Content,
    expansion: nat)

  predicate Sealable(x: Content) {
    match x
    case App(d) => |d| <= MAX_PLAINTEXT
    case Ticket(b) => |b| <= MAX_PLAINTEXT
    case CloseNotify => true
    case FatalAlert => true
    case Bad => false
  }

  function PlainLength(x: Content): nat {
    match x
    case App(d) => |d|
    case Ticket(b) => |b|
    case _ => 2
  }

  ghost predicate Lawful(c: Cipher) {
    && c.expansion <= 256
    && forall k: nat, x: Content :: Sealable(x) ==>
         c.open(k, c.seal(k, x)) == x && |c.seal(k, x)| == PlainLength(x) + c.expansion
  }

  function Record(c: Cipher, k: nat, x: Content): seq<byte> {
    var body := c.seal(k, x);
    [23 as byte, 3 as byte, 3 as byte, (|body| / 256 % 256) as byte, (|body| % 256) as byte] + body
  }

  function EncodeFrom(c: Cipher, k: nat, xs: seq<Content>): seq<byte>
    decreases |xs|
  {
    if xs == [] then [] else Record(c, k, xs[0]) + EncodeFrom(c, k + 1, xs[1..])
  }

  function BodyLength(s: seq<byte>): nat
    requires |s| >= HEADER
  {
    s[3] as int * 256 + s[4] as int
  }

  /** `Open`: more may follow; `Shut`: close_notify was read; `Failed`: a fatal alert arrived or a
      record was malformed. Whatever follows the last two is ignored. */
  datatype End = Open | Shut | Failed

  /** `next` is the number of the next record and `rest` the bytes of a record not yet complete. */
  datatype Decoded = Decoded(text: seq<byte>, end: End, next: nat, rest: seq<byte>)

  predicate MalformedHeader(s: seq<byte>)
    requires |s| >= HEADER
  {
    s[0] != 23 || BodyLength(s) > MAX_CIPHERTEXT
  }

  predicate Incomplete(s: seq<byte>) {
    |s| < HEADER || (!MalformedHeader(s) && |s| < HEADER + BodyLength(s))
  }

  function FirstContent(c: Cipher, k: nat, s: seq<byte>): Content
    requires !Incomplete(s)
  {
    if MalformedHeader(s) then Bad
    else match c.open(k, s[HEADER..HEADER + BodyLength(s)])
      case App(d) => if |d| <= MAX_PLAINTEXT then App(d) else Bad
      case x => x
  }

  function AfterFirst(s: seq<byte>): (r: seq<byte>)
    requires !Incomplete(s)
    ensures |r| < |s|
  {
    if MalformedHeader(s) then s[HEADER..] else s[HEADER + BodyLength(s)..]
  }

  function Prefixed(t: seq<byte>, d: Decoded): Decoded {
    d.(text := t + d.text)
  }

  /** The plaintext of a byte stream whose first record has number `k`. */
  function Decode(c: Cipher, k: nat, s: seq<byte>): Decoded
    decreases |s|
  {
    if Incomplete(s) then Decoded([], Open, k, s)
    else match FirstContent(c, k, s)
      case App(d) => Prefixed(d, Decode(c, k + 1, AfterFirst(s)))
      case Ticket(_) => Decode(c, k + 1, AfterFirst(s))
      case CloseNotify => Decoded([], Shut, k + 1, [])
      case _ => Decoded([], Failed, k + 1, [])
  }

  /** The texts of its records, one by one, of those that have any. */
  function Pieces(c: Cipher, k: nat, s: seq<byte>): seq<seq<byte>>
    decreases |s|
  {
    if Incomplete(s) then []
    else match FirstContent(c, k, s)
      case App(d) => (if d == [] then [] else [d]) + Pieces(c, k + 1, AfterFirst(s))
      case Ticket(_) => Pieces(c, k + 1, AfterFirst(s))
      case _ => []
  }

  /** Together they are the plaintext. */
  lemma {:induction false} PiecesText(c: Cipher, k: nat, s: seq<byte>)
    ensures Flatten(Pieces(c, k, s)) == Decode(c, k, s).text
    decreases |s|
  {
    if !Incomplete(s) {
      var x := FirstContent(c, k, s);
      if x.App? || x.Ticket? {
        PiecesText(c, k + 1, AfterFirst(s));
        var rest := Pieces(c, k + 1, AfterFirst(s));
        if x.App? && x.data != [] {
          assert ([x.data] + rest)[1..] == rest;
        } else {
          assert [] + rest == rest;
        }
      }
    }
  }

  lemma FirstStable(c: Cipher, k: nat, s: seq<byte>, t: seq<byte>)
    requires !Incomplete(s)
    ensures !Incomplete(s + t)
    ensures FirstContent(c, k, s + t) == FirstContent(c, k, s)
    ensures AfterFirst(s + t) == AfterFirst(s) + t
  {
    assert (s + t)[0] == s[0] && (s + t)[3] == s[3] && (s + t)[4] == s[4];
    if !MalformedHeader(s) {
      var n := HEADER + BodyLength(s);
      assert (s + t)[HEADER..n] == s[HEADER..n];
      assert (s + t)[n..] == s[n..] + t;
    } else {
      assert (s + t)[HEADER..] == s[HEADER..] + t;
    }
  }

  lemma PrefixedTwice(a: seq<byte>, b: seq<byte>, d: Decoded)
    ensures Prefixed(a, Prefixed(b, d)) == Prefixed(a + b, d)
    ensures Prefixed([], d) == d
  {
    assert a + (b + d.text) == (a + b) + d.text;
    assert [] + d.text == d.text;
  }

  /** Decoding can stop at any byte and resume: the cut is invisible. */
  lemma {:induction false} DecodeSplit(c: Cipher, k: nat, s: seq<byte>, t: seq<byte>)
    ensures var d := Decode(c, k, s);
            Decode(c, k, s + t) ==
              if d.end == Open then Prefixed(d.text, Decode(c, d.next, d.rest + t)) else d
    decreases |s|
  {
    var d := Decode(c, k, s);
    if Incomplete(s) {
      PrefixedTwice([], [], Decode(c, k, s + t));
    } else {
      FirstStable(c, k, s, t);
      var x := FirstContent(c, k, s);
      if x.App? || x.Ticket? {
        DecodeSplit(c, k + 1, AfterFirst(s), t);
        var e := Decode(c, k + 1, AfterFirst(s));
        if x.App? && e.end == Open {
          PrefixedTwice(x.data, e.text, Decode(c, e.next, e.rest + t));
        }
      }
    }
  }

  lemma RecordShape(c: Cipher, k: nat, x: Content, t: seq<byte>)
    requires Lawful(c) && Sealable(x)
    ensures |Record(c, k, x)| == HEADER + PlainLength(x) + c.expansion
    ensures !Incomplete(Record(c, k, x) + t)
    ensures FirstContent(c, k, Record(c, k, x) + t) == x
    ensures AfterFirst(Record(c, k, x) + t) == t
  {
    var body := c.seal(k, x);
    var r := Record(c, k, x);
    var s := r + t;
    assert |body| <= MAX_CIPHERTEXT < 65536;
    assert s[0] == 23 && s[3] == (|body| / 256 % 256) as byte && s[4] == (|body| % 256) as byte;
    assert BodyLength(s) == |body|;
    assert s[HEADER..HEADER + |body|] == body;
    assert s[HEADER + |body|..] == t;
  }

  /** The pieces do not depend on the cut either. */
  lemma {:induction false} PiecesSplit(c: Cipher, k: nat, s: seq<byte>, t: seq<byte>)
    ensures var d := Decode(c, k, s);
            Pieces(c, k, s + t) == Pieces(c, k, s) + if d.end == Open then Pieces(c, d.next, d.rest + t) else []
    decreases |s|
  {
    if !Incomplete(s) {
      FirstStable(c, k, s, t);
      var x := FirstContent(c, k, s);
      if x.App? || x.Ticket? {
        PiecesSplit(c, k + 1, AfterFirst(s), t);
        var d := Decode(c, k + 1, AfterFirst(s));
        Regroup(if x.App? && x.data != [] then [x.data] else [], Pieces(c, k + 1, AfterFirst(s)),
                if d.end == Open then Pieces(c, d.next, d.rest + t) else []);
      }
    }
  }

  /** A record of which some bytes are missing yields nothing. */
  lemma TornRecord(c: Cipher, k: nat, x: Content, n: nat)
    requires Lawful(c) && Sealable(x)
    requires n < |Record(c, k, x)|
    ensures Decode(c, k, Record(c, k, x)[..n]) == Decoded([], Open, k, Record(c, k, x)[..n])
  {
    var r := Record(c, k, x);
    RecordShape(c, k, x, []);
    assert r + [] == r;
    if n >= HEADER {
      assert r[..n][0] == r[0] && r[..n][3] == r[3] && r[..n][4] == r[4];
    }
  }

  /** What a peer is meant to understand from a list of records. */
  function Meaning(k: nat, xs: seq<Content>): Decoded
    decreases |xs|
  {
    if xs == [] then Decoded([], Open, k, [])
    else match xs[0]
      case App(d) => Prefixed(d, Meaning(k + 1, xs[1..]))
      case Ticket(_) => Meaning(k + 1, xs[1..])
      case CloseNotify => Decoded([], Shut, k + 1, [])
      case _ => Decoded([], Failed, k + 1, [])
  }

  /** Decoding inverts encoding. */
  lemma {:induction false} DecodeEncode(c: Cipher, k: nat, xs: seq<Content>)
    requires Lawful(c) && forall x <- xs :: Sealable(x)
    ensures Decode(c, k, EncodeFrom(c, k, xs)) == Meaning(k, xs)
    decreases |xs|
  {
    if xs != [] {
      RecordShape(c, k, xs[0], EncodeFrom(c, k + 1, xs[1..]));
      DecodeEncode(c, k + 1, xs[1..]);
    }
  }

  /** The texts of a list of records, up to the closure. */
  function Parts(xs: seq<Content>): seq<seq<byte>> {
    if xs == [] then []
    else match xs[0]
      case App(d) => (if d == [] then [] else [d]) + Parts(xs[1..])
      case Ticket(_) => Parts(xs[1..])
      case _ => []
  }

  lemma {:induction false} PiecesEncode(c: Cipher, k: nat, xs: seq<Content>)
    requires Lawful(c) && forall x <- xs :: Sealable(x)
    ensures Pieces(c, k, EncodeFrom(c, k, xs)) == Parts(xs)
    decreases |xs|
  {
    if xs != [] {
      RecordShape(c, k, xs[0], EncodeFrom(c, k + 1, xs[1..]));
      PiecesEncode(c, k + 1, xs[1..]);
    }
  }

  lemma {:induction false} PartsAppend(k: nat, xs: seq<Content>, ys: seq<Content>)
    requires Meaning(k, xs).end == Open
    ensures Parts(xs + ys) == Parts(xs) + Parts(ys)
    decreases |xs|
  {
    if xs == [] {
      assert xs + ys == ys;
    } else {
      assert (xs + ys)[1..] == xs[1..] + ys;
      PartsAppend(k + 1, xs[1..], ys);
      Regroup(if xs[0].App? && xs[0].data != [] then [xs[0].data] else [], Parts(xs[1..]), Parts(ys));
    }
  }

  lemma {:induction false} EncodeAppend(c: Cipher, k: nat, xs: seq<Content>, ys: seq<Content>)
    ensures EncodeFrom(c, k, xs + ys) == EncodeFrom(c, k, xs) + EncodeFrom(c, k + |xs|, ys)
    decreases |xs|
  {
    if xs == [] {
      assert xs + ys == ys;
    } else {
      assert (xs + ys)[1..] == xs[1..] + ys;
      EncodeAppend(c, k + 1, xs[1..], ys);
    }
  }

  lemma EncodeSnoc(c: Cipher, k: nat, xs: seq<Content>, x: Content)
    ensures EncodeFrom(c, k, xs + [x]) == EncodeFrom(c, k, xs) + Record(c, k + |xs|, x)
  {
    EncodeAppend(c, k, xs, [x]);
    assert EncodeFrom(c, k + |xs|, [x]) == Record(c, k + |xs|, x) + EncodeFrom(c, k + |xs| + 1, []);
  }

  lemma {:induction false} MeaningAppend(k: nat, xs: seq<Content>, ys: seq<Content>)
    ensures var d := Meaning(k, xs);
            Meaning(k, xs + ys) ==
              if d.end == Open then Prefixed(d.text, Meaning(k + |xs|, ys)) else d
    decreases |xs|
  {
    if xs == [] {
      assert xs + ys == ys;
      PrefixedTwice([], [], Meaning(k, ys));
    } else {
      assert (xs + ys)[1..] == xs[1..] + ys;
      MeaningAppend(k + 1, xs[1..], ys);
      if xs[0].App? {
        var e := Meaning(k + 1, xs[1..]);
        PrefixedTwice(xs[0].data, e.text, Meaning(k + |xs|, ys));
      }
    }
  }

  /** The pieces, of at most `m` bytes each, that a buffer is sealed in. */
  function Fragments(m: nat, buf: seq<byte>): (xs: seq<Content>)
    requires m > 0
    ensures m <= MAX_PLAINTEXT ==> forall x <- xs :: Sealable(x)
  {
    if buf == [] then []
    else
      var n := Min(m, |buf|);
      [App(buf[..n])] + Fragments(m, buf[n..])
  }

  /** Every fragment has a text. */
  lemma {:induction false} FragmentsParts(m: nat, buf: seq<byte>)
    requires m > 0
    ensures |Parts(Fragments(m, buf))| == |Fragments(m, buf)|
    decreases |buf|
  {
    if buf != [] {
      var n := Min(m, |buf|);
      FragmentsParts(m, buf[n..]);
      assert Fragments(m, buf)[1..] == Fragments(m, buf[n..]);
    }
  }

  lemma {:induction false} FragmentsMeaning(m: nat, k: nat, buf: seq<byte>)
    requires m > 0
    ensures Meaning(k, Fragments(m, buf)) == Decoded(buf, Open, k + |Fragments(m, buf)|, [])
    decreases |buf|
  {
    if buf != [] {
      var n := Min(m, |buf|);
      FragmentsMeaning(m, k + 1, buf[n..]);
      var xs := Fragments(m, buf);
      assert xs[1..] == Fragments(m, buf[n..]);
      assert buf[..n] + buf[n..] == buf;
    }
  }
}
