/** How the layers of a stack find each other: every layer keeps an untyped pointer to the one above
    it, and the type to cast it to is looked up, by the layer's index, in a list of types that the
    top passes down. */
module Layers {

  /** The template types: a bottom, or a layer over a next type. */
  datatype Shape =
    | NullLayer
    | SocketStream
    | Layer(next: Shape)
    | Ssl(next: Shape)
    | Stream(next: Shape)

  predicate Bottom(s: Shape) {
    s.NullLayer? || s.SocketStream?
  }

  /** The enumerator `it`. */
  function It(s: Shape): nat {
    if Bottom(s) then 0 else It(s.next) + 1
  }

  /** `chain_type`. */
  function Chain(s: Shape): (c: seq<Shape>)
    ensures |c| == It(s) + 1
  {
    if Bottom(s) then [s] else Chain(s.next) + [s]
  }

  type Addr = int

  /** A layer at run time: its address, its `prev_`, and the layer it contains. */
  datatype Object =
    | Leaf(shape: Shape, addr: Addr, prev: Addr)
    | Node(shape: Shape, addr: Addr, prev: Addr, below: Object)

  /** Construction: a layer builds the one it contains and sets that one's `prev_` to itself. */
  function Build(s: Shape, addrs: seq<Addr>, prev: Addr): (o: Object)
    requires |addrs| == It(s) + 1
    decreases s
  {
    var addr := addrs[It(s)];
    if Bottom(s) then Leaf(s, addr, prev)
    else Node(s, addr, prev, Build(s.next, addrs[..It(s)], addr))
  }

  /** The layer with a given index. */
  function At(o: Object, it: nat): Object {
    if o.Leaf? || It(o.shape) <= it then o else At(o.below, it)
  }

  datatype Found = Null | Cast(shape: Shape, addr: Addr)

  /** `get_prev`: the stored pointer under the looked-up type, or null past the end of the list. */
  function GetPrev(chain: seq<Shape>, it: nat, prev: Addr): Found {
    if it + 1 < |chain| then Cast(chain[it + 1], prev) else Null
  }

  /** In the list of a whole stack the entry at a layer's index is that layer's type. */
  lemma {:induction false} ChainAddresses(s: Shape, addrs: seq<Addr>, prev: Addr, it: nat)
    requires |addrs| == It(s) + 1 && it <= It(s)
    ensures var x := At(Build(s, addrs, prev), it);
            It(x.shape) == it && Chain(s)[it] == x.shape && x.addr == addrs[it]
            && x.prev == (if it < It(s) then addrs[it + 1] else prev)
    decreases s
  {
    if !Bottom(s) {
      if it < It(s) {
        ChainAddresses(s.next, addrs[..It(s)], addrs[It(s)], it);
      } else {
        ChainAddresses(s.next, addrs[..It(s)], addrs[It(s)], 0);
      }
    }
  }

  /** `get_prev` of every layer is the layer directly above it, under its true type; null for the top. */
  lemma GetPrevIsAbove(s: Shape, addrs: seq<Addr>, it: nat)
    requires |addrs| == It(s) + 1 && it <= It(s)
    ensures var o := Build(s, addrs, 0); var x := At(o, it);
            GetPrev(Chain(s), It(x.shape), x.prev) ==
              if it < It(s) then Cast(At(o, it + 1).shape, At(o, it + 1).addr) else Null
  {
    ChainAddresses(s, addrs, 0, it);
    if it < It(s) {
      ChainAddresses(s, addrs, 0, it + 1);
    }
  }

  /** `stream` hands data to its callback; every other layer passes it to the one above. */
  predicate Forwards(s: Shape) {
    !s.Stream?
  }

  /** Addresses of the layers data visits from layer `it` on. */
  function OnReceived(s: Shape, addrs: seq<Addr>, it: nat): seq<Addr>
    requires |addrs| == It(s) + 1 && it <= It(s)
    decreases It(s) - it
  {
    var x := At(Build(s, addrs, 0), it);
    ChainAddresses(s, addrs, 0, it);
    [x.addr] +
    if !Forwards(x.shape) then []
    else
      match GetPrev(Chain(s), It(x.shape), x.prev)
      case Null => []
      case Cast(shape, _) =>
        ChainAddresses(s, addrs, 0, it + 1);
        OnReceived(s, addrs, It(shape))
  }

  /** Neither the TLS layer nor `layer` keeps data to itself. */
  lemma {:induction false} EveryLayerBelow(s: Shape, it: nat)
    requires NoStream(s) && it <= It(s)
    ensures !Chain(s)[it].Stream?
    decreases s
  {
    if !Bottom(s) && it < It(s) {
      EveryLayerBelow(s.next, it);
    }
  }

  predicate NoStream(s: Shape) {
    match s
    case Stream(_) => false
    case Layer(next) => NoStream(next)
    case Ssl(next) => NoStream(next)
    case _ => true
  }

  /** In a stack as it is used, a `stream` on top of any layers over a bottom, data from the bottom visits
      every layer once, in ascending order, up to the top. */
  lemma ReachesTheTop(s: Shape, addrs: seq<Addr>)
    requires NoStream(s) && |addrs| == It(s) + 2
    ensures OnReceived(Stream(s), addrs, 0) == addrs
  {
    var top := Stream(s);
    forall i | 0 <= i < It(top)
      ensures !Chain(top)[i].Stream?
    {
      EveryLayerBelow(s, i);
    }
    VisitsUpwards(top, addrs, 0, It(top));
    assert addrs[0..It(top) + 1] == addrs;
  }

  lemma OneUp(s: Shape, addrs: seq<Addr>, it: nat)
    requires |addrs| == It(s) + 1 && it <= It(s)
    ensures OnReceived(s, addrs, it) ==
      [addrs[it]] + if Forwards(Chain(s)[it]) && it < It(s) then OnReceived(s, addrs, it + 1) else []
  {
    hide Build, At, Bottom, Chain;
    ChainAddresses(s, addrs, 0, it);
    if it < It(s) {
      ChainAddresses(s, addrs, 0, it + 1);
    }
  }

  /** Data from layer `it` visits each layer above once, in ascending order, up to the first that
      does not forward. */
  lemma {:induction false} VisitsUpwards(s: Shape, addrs: seq<Addr>, it: nat, last: nat)
    requires |addrs| == It(s) + 1 && it <= last <= It(s)
    requires forall i :: it <= i < last ==> Forwards(Chain(s)[i])
    requires last == It(s) || !Forwards(Chain(s)[last])
    ensures OnReceived(s, addrs, it) == addrs[it..last + 1]
    decreases last - it
  {
    hide OnReceived, Chain;
    OneUp(s, addrs, it);
    if it < last {
      VisitsUpwards(s, addrs, it + 1, last);
      assert addrs[it..last + 1] == [addrs[it]] + addrs[it + 1..last + 1];
    } else {
      assert addrs[it..last + 1] == [addrs[it]];
    }
  }
}
