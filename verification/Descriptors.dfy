/** `sync::socket_base`: sole ownership of a file descriptor, through moves and reassignment. The
    kernel may hand out again any number that is not open. */
module Descriptors {

  const INVALID := -1

  /** What the kernel was asked for; `Opened` also where it refused, with -1. */
  datatype Call = Opened(fd: int) | Closed(fd: int)

  class Kernel {
    var open: set<int>
    ghost var calls: seq<Call>
    /** `close` was called with a descriptor that was not open, other than -1. */
    var misused: bool

    constructor ()
      ensures open == {} && !misused && calls == []
    {
      open, misused, calls := {}, false, [];
    }

    method Socket() returns (fd: int)
      modifies this`open, this`calls
      ensures calls == old(calls) + [Opened(fd)]
      ensures (fd == INVALID && open == old(open)) || (0 <= fd && fd !in old(open) && open == old(open) + {fd})
    {
      fd := *;
      if fd < 0 || fd in open {
        fd := INVALID;
      } else {
        open := open + {fd};
      }
      calls := calls + [Opened(fd)];
    }

    method Close(fd: int)
      modifies this
      ensures open == old(open) - {fd} && calls == old(calls) + [Closed(fd)]
      ensures misused == (old(misused) || (fd != INVALID && fd !in old(open)))
    {
      misused := misused || (fd != INVALID && fd !in open);
      open := open - {fd};
      calls := calls + [Closed(fd)];
    }
  }

  /** Each open descriptor has exactly one owner, and `close` was only ever called on open ones. */
  ghost predicate Owned(k: Kernel, socks: set<SocketBase>)
    reads k, socks
  {
    && !k.misused
    && (forall s <- socks :: s.fd == INVALID || s.fd in k.open)
    && (forall s, t :: s in socks && t in socks && s != t && s.fd != INVALID ==> s.fd != t.fd)
    && (forall fd <- k.open :: 0 <= fd && exists s <- socks :: s.fd == fd)
  }

  class SocketBase {
    var fd: int

    constructor ()
      ensures fd == INVALID
    {
      fd := INVALID;
    }

    constructor FromFd(fd: int)
      ensures this.fd == fd
    {
      this.fd := fd;
    }

    constructor MoveFrom(other: SocketBase)
      modifies other
      ensures fd == old(other.fd) && other.fd == INVALID
    {
      fd := other.fd;
      new;
      other.fd := INVALID;
    }

    /** Move assignment. */
    method Assign(k: Kernel, other: SocketBase, ghost socks: set<SocketBase>)
      requires Owned(k, socks) && this in socks && other in socks
      modifies this, other, k
      ensures Owned(k, socks)
      ensures fd == old(other.fd) && (this != other ==> other.fd == INVALID)
      ensures k.open == if this == other then old(k.open) else old(k.open) - {old(fd)}
      ensures k.calls == old(k.calls) + if this == other then [] else [Closed(old(fd))]
    {
      assert k.calls + [] == k.calls;
      if this != other {
        k.Close(fd);
        fd := other.fd;
        other.fd := INVALID;
        forall f | f in k.open
          ensures 0 <= f && exists s <- socks :: s.fd == f
        {
          var s :| s in socks && old(s.fd) == f;
          if s == other {
            assert this in socks && this.fd == f;
          } else {
            assert s in socks && s.fd == f;
          }
        }
      }
    }

    method Close(k: Kernel, ghost socks: set<SocketBase>)
      requires Owned(k, socks) && this in socks
      modifies this, k
      ensures Owned(k, socks) && fd == INVALID && k.open == old(k.open) - {old(fd)}
      ensures k.calls == old(k.calls) + if old(fd) == INVALID then [] else [Closed(old(fd))]
    {
      assert k.calls + [] == k.calls;
      if fd != INVALID {
        k.Close(fd);
        fd := INVALID;
        forall f | f in k.open
          ensures 0 <= f && exists s <- socks :: s.fd == f
        {
          var s :| s in socks && old(s.fd) == f;
          assert s != this;
          assert s in socks && s.fd == f;
        }
      }
    }

    method CreateImpl(k: Kernel, ghost socks: set<SocketBase>)
      requires Owned(k, socks) && this in socks
      modifies this, k
      ensures Owned(k, socks)
      ensures fd == INVALID || fd !in old(k.open) || fd == old(fd)
      ensures k.open == old(k.open) - {old(fd)} + if fd == INVALID then {} else {fd}
      ensures k.calls == old(k.calls) + (if old(fd) == INVALID then [] else [Closed(old(fd))]) + [Opened(fd)]
    {
      assert k.calls + [] == k.calls;
      if fd != INVALID {
        Close(k, socks);
      }
      label closed:
      fd := k.Socket();
      forall f | f in k.open
        ensures 0 <= f && exists s <- socks :: s.fd == f
      {
        if f == fd {
          assert this in socks && this.fd == f;
        } else {
          var s :| s in socks && old@closed(s.fd) == f;
          assert s in socks && s.fd == f;
        }
      }
    }
  }

  datatype Op =
    | OpConstruct
    | OpAccept
    | OpMove(i: nat)
    | OpAssign(i: nat, j: nat)
    | OpCreate(i: nat)
    | OpClose(i: nat)
    | OpDestroy(i: nat)

  /** The descriptors of the sockets that live, oldest first, and what the kernel has seen. */
  datatype Table = Table(fds: seq<int>, open: set<int>, calls: seq<Call>)

  predicate Applies(op: Op, n: nat) {
    match op
    case OpConstruct => true
    case OpAccept => true
    case OpAssign(i, j) => i < n && j < n
    case OpMove(i) => i < n
    case OpCreate(i) => i < n
    case OpClose(i) => i < n
    case OpDestroy(i) => i < n
  }

  function Opening(open: set<int>, fd: int): set<int> {
    if fd == INVALID then open else open + {fd}
  }

  function Closing(fd: int): seq<Call> {
    if fd == INVALID then [] else [Closed(fd)]
  }

  /** What one operation makes of the sockets and of the kernel. */
  predicate Does(op: Op, x: Table, y: Table) {
    var n := |x.fds|;
    if !Applies(op, n) then y == x
    else
      match op
      case OpConstruct => y == x.(fds := x.fds + [INVALID])
      case OpAccept =>
        && |y.fds| == n + 1
        && var fd := y.fds[n];
           && y == Table(x.fds + [fd], Opening(x.open, fd), x.calls + [Opened(fd)])
           && (fd == INVALID || fd !in x.open)
      case OpMove(i) => y == x.(fds := x.fds[i := INVALID] + [x.fds[i]])
      case OpAssign(i, j) =>
        if i == j then y == x
        else y == Table(x.fds[i := x.fds[j]][j := INVALID], x.open - {x.fds[i]}, x.calls + [Closed(x.fds[i])])
      case OpCreate(i) =>
        && |y.fds| == n
        && var fd := y.fds[i];
           && y == Table(x.fds[i := fd], Opening(x.open - {x.fds[i]}, fd),
                         x.calls + Closing(x.fds[i]) + [Opened(fd)])
           && (fd == INVALID || fd !in x.open - {x.fds[i]})
      case OpClose(i) => y == Table(x.fds[i := INVALID], x.open - {x.fds[i]}, x.calls + Closing(x.fds[i]))
      case OpDestroy(i) =>
        y == Table(x.fds[..i] + x.fds[i + 1..], x.open - {x.fds[i]}, x.calls + Closing(x.fds[i]))
  }

  predicate AllDone(ops: seq<Op>, xs: seq<Table>) {
    && |xs| == |ops| + 1
    && forall i :: 0 <= i < |ops| ==> Does(ops[i], xs[i], xs[i + 1])
  }

  lemma EmptyOwned(k: Kernel)
    requires k.open == {} && !k.misused
    ensures Owned(k, {})
  {
  }

  lemma SeenNothing(k: Kernel)
    requires k.open == {} && k.calls == []
    ensures Socks([]) == {} && Apart([]) && Seen([], k) == Table([], {}, [])
  {
  }

  /** Sockets that live after an operation were there before or are new. */
  lemma FreshSocks(live: seq<SocketBase>, live': seq<SocketBase>)
    ensures forall i :: 0 <= i < |live'| && live'[i] !in Socks(live') - Socks(live) ==> live'[i] in live
  {
  }

  method Construct(k: Kernel, ghost socks: set<SocketBase>) returns (s: SocketBase)
    requires Owned(k, socks)
    ensures fresh(s) && Owned(k, socks + {s}) && s.fd == INVALID
  {
    s := new SocketBase();
    AddOwner(k, socks, s);
  }

  /** `accept`: the kernel's new descriptor goes straight to a socket. */
  method Accept(k: Kernel, ghost socks: set<SocketBase>) returns (s: SocketBase)
    requires Owned(k, socks)
    modifies k
    ensures fresh(s) && Owned(k, socks + {s}) && (s.fd == INVALID || s.fd !in old(k.open))
    ensures k.open == Opening(old(k.open), s.fd) && k.calls == old(k.calls) + [Opened(s.fd)]
  {
    ghost var before := k.open;
    var fd := k.Socket();
    s := new SocketBase.FromFd(fd);
    AdoptOwner(k, socks, s, before);
  }

  method Move(k: Kernel, from: SocketBase, ghost socks: set<SocketBase>) returns (s: SocketBase)
    requires Owned(k, socks) && from in socks
    modifies from
    ensures fresh(s) && Owned(k, socks + {s}) && s.fd == old(from.fd) && from.fd == INVALID
  {
    s := new SocketBase.MoveFrom(from);
    forall f | f in k.open
      ensures 0 <= f && exists t <- socks + {s} :: t.fd == f
    {
      var t :| t in socks && old(t.fd) == f;
      assert s in socks + {s} && t in socks + {s};
    }
  }

  lemma DoneNothing(x: Table)
    ensures AllDone([], [x])
  {
  }

  lemma DoneMore(ops: seq<Op>, xs: seq<Table>, op: Op, y: Table)
    requires AllDone(ops, xs) && Does(op, xs[|ops|], y)
    ensures AllDone(ops + [op], xs + [y])
  {
    hide Does;
  }

  /** What `live` and the kernel look like. */
  ghost predicate Shows(x: Table, live: seq<SocketBase>, k: Kernel)
    reads live, k
  {
    && |x.fds| == |live| && x.open == k.open && x.calls == k.calls
    && forall i :: 0 <= i < |live| ==> x.fds[i] == live[i].fd
  }

  ghost function Seen(live: seq<SocketBase>, k: Kernel): (x: Table)
    reads live, k
    ensures Shows(x, live, k)
  {
    Table(Fds(live), k.open, k.calls)
  }

  ghost function Fds(live: seq<SocketBase>): (fds: seq<int>)
    reads live
    ensures |fds| == |live| && forall i :: 0 <= i < |live| ==> fds[i] == live[i].fd
  {
    if live == [] then [] else [live[0].fd] + Fds(live[1..])
  }

  predicate Apart(live: seq<SocketBase>) {
    forall i, j :: 0 <= i < j < |live| ==> live[i] != live[j]
  }

  function Grown(live: seq<SocketBase>, s: SocketBase): (r: seq<SocketBase>)
    requires Apart(live) && s !in live
    ensures Apart(r) && r == live + [s] && Socks(r) == Socks(live) + {s}
  {
    live + [s]
  }

  function Shrunk(live: seq<SocketBase>, i: nat): (r: seq<SocketBase>)
    requires Apart(live) && i < |live|
    ensures Apart(r) && r == live[..i] + live[i + 1..] && Socks(r) == Socks(live) - {live[i]}
  {
    live[..i] + live[i + 1..]
  }

  ghost function Socks(live: seq<SocketBase>): set<SocketBase> {
    set s <- live
  }

  method Add(k: Kernel, op: Op, live: seq<SocketBase>) returns (live': seq<SocketBase>)
    requires Owned(k, Socks(live)) && Apart(live)
    requires op.OpConstruct? || op.OpAccept? || (op.OpMove? && op.i < |live|)
    modifies k, live
    ensures Owned(k, Socks(live')) && Apart(live') && fresh(Socks(live') - Socks(live))
    ensures Does(op, old(Seen(live, k)), Seen(live', k))
  {
    hide Owned, Fds;
    ghost var x := Seen(live, k);
    var s: SocketBase;
    match op {
      case OpConstruct => s := Construct(k, Socks(live));
      case OpAccept => s := Accept(k, Socks(live));
      case OpMove(i) => s := Move(k, live[i], Socks(live));
    }
    live' := Grown(live, s);
    assert Seen(live', k).fds == (if op.OpMove? then x.fds[op.i := INVALID] else x.fds) + [s.fd];
  }

  method Change(k: Kernel, op: Op, live: seq<SocketBase>)
    requires Owned(k, Socks(live)) && Apart(live)
    requires (op.OpAssign? && op.i < |live| && op.j < |live|) || ((op.OpCreate? || op.OpClose?) && op.i < |live|)
    modifies k, live
    ensures Owned(k, Socks(live))
    ensures Does(op, old(Seen(live, k)), Seen(live, k))
  {
    hide Owned, Fds;
    ghost var x := Seen(live, k);
    match op {
      case OpAssign(i, j) => live[i].Assign(k, live[j], Socks(live));
      case OpCreate(i) => live[i].CreateImpl(k, Socks(live));
      case OpClose(i) => live[i].Close(k, Socks(live));
    }
    assert Seen(live, k).fds ==
      if op.OpAssign? && op.i == op.j then x.fds
      else if op.OpAssign? then x.fds[op.i := x.fds[op.j]][op.j := INVALID]
      else x.fds[op.i := live[op.i].fd];
  }

  method Destroy(k: Kernel, i: nat, live: seq<SocketBase>) returns (live': seq<SocketBase>)
    requires Owned(k, Socks(live)) && Apart(live) && i < |live|
    modifies k, live
    ensures Owned(k, Socks(live')) && Apart(live') && fresh(Socks(live') - Socks(live))
    ensures Does(OpDestroy(i), old(Seen(live, k)), Seen(live', k))
  {
    hide Owned, Fds;
    ghost var x := Seen(live, k);
    live[i].Close(k, Socks(live));
    DropOwner(k, Socks(live), live[i]);
    live' := Shrunk(live, i);
    assert Seen(live', k).fds == x.fds[..i] + x.fds[i + 1..];
  }

  method DoOne(k: Kernel, op: Op, live: seq<SocketBase>) returns (live': seq<SocketBase>)
    requires Owned(k, Socks(live)) && Apart(live)
    modifies k, live
    ensures Owned(k, Socks(live')) && Apart(live') && fresh(Socks(live') - Socks(live))
    ensures Does(op, old(Seen(live, k)), Seen(live', k))
  {
    hide Owned, Fds, Apart;
    live' := live;
    if !Applies(op, |live|) {
      return;
    }
    if op.OpConstruct? || op.OpAccept? || op.OpMove? {
      live' := Add(k, op, live);
    } else if op.OpDestroy? {
      live' := Destroy(k, op.i, live);
    } else {
      Change(k, op, live);
    }
  }

  /** Over every sequence of operations on any number of sockets, each does what it says to the sockets
      and to the kernel, and ownership stays sole: nothing open is lost, shared, or closed twice. */
  method Run(k: Kernel, ops: seq<Op>) returns (live: seq<SocketBase>, ghost xs: seq<Table>)
    requires k.open == {} && !k.misused && k.calls == []
    modifies k
    ensures Owned(k, Socks(live)) && Apart(live)
    ensures AllDone(ops, xs) && xs[0] == Table([], {}, []) && Shows(xs[|ops|], live, k)
  {
    hide Owned, Does, AllDone, Apart, Shows, Fds, Seen, Socks;
    EmptyOwned(k);
    live := [];
    SeenNothing(k);
    ghost var x := Seen(live, k);
    xs := [x];
    DoneNothing(x);
    assert ops[..0] == [];
    for n := 0 to |ops|
      invariant Owned(k, Socks(live)) && Apart(live)
      invariant forall i :: 0 <= i < |live| ==> fresh(live[i])
      invariant |xs| == n + 1 && AllDone(ops[..n], xs) && xs[0] == Table([], {}, []) && xs[n] == x == Seen(live, k)
    {
      ghost var before := live;
      live := DoOne(k, ops[n], live);
      FreshSocks(before, live);
      ghost var y := Seen(live, k);
      DoneMore(ops[..n], xs, ops[n], y);
      x, xs := y, xs + [y];
      assert ops[..n + 1] == ops[..n] + [ops[n]];
    }
    assert ops[..|ops|] == ops;
  }

  lemma AddOwner(k: Kernel, socks: set<SocketBase>, s: SocketBase)
    requires Owned(k, socks) && s.fd == INVALID && s !in socks
    ensures Owned(k, socks + {s})
  {
    forall f | f in k.open
      ensures exists t <- socks + {s} :: t.fd == f
    {
      var t :| t in socks && t.fd == f;
      assert t in socks + {s};
    }
  }

  lemma AdoptOwner(k: Kernel, socks: set<SocketBase>, s: SocketBase, before: set<int>)
    requires s !in socks && !k.misused
    requires forall t <- socks :: t.fd == INVALID || t.fd in before
    requires forall t, u :: t in socks && u in socks && t != u && t.fd != INVALID ==> t.fd != u.fd
    requires forall fd <- before :: 0 <= fd && exists t <- socks :: t.fd == fd
    requires (s.fd == INVALID && k.open == before) || (0 <= s.fd && s.fd !in before && k.open == before + {s.fd})
    ensures Owned(k, socks + {s})
  {
    forall f | f in k.open
      ensures 0 <= f && exists t <- socks + {s} :: t.fd == f
    {
      if f == s.fd {
        assert s in socks + {s};
      } else {
        var t :| t in socks && t.fd == f;
        assert t in socks + {s};
      }
    }
  }

  lemma DropOwner(k: Kernel, socks: set<SocketBase>, s: SocketBase)
    requires Owned(k, socks) && s in socks && s.fd == INVALID
    ensures Owned(k, socks - {s})
  {
    forall f | f in k.open
      ensures exists t <- socks - {s} :: t.fd == f
    {
      var t :| t in socks && t.fd == f;
      assert t in socks - {s};
    }
  }
}
