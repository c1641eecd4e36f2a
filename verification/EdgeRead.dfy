/** Reading on macOS: the read event is edge-triggered, so the loop must read until the kernel has
    nothing more, while data may arrive between any two calls. */
module EdgeRead {
  import opened Bytes

  const RECV_CHUNK := 4 * 1024

  /** Something the network does to the socket. */
  datatype Arrival = Segment(data: seq<byte>) | Fin

  datatype RecvResult = Got(data: seq<byte>) | EndOfStream | Again

  predicate WellFormed(future: seq<Arrival>) {
    forall i :: 0 <= i < |future| && future[i].Fin? ==> i == |future| - 1
  }

  function Payload(arrivals: seq<Arrival>): seq<byte> {
    if arrivals == [] then []
    else (if arrivals[0].Segment? then arrivals[0].data else []) + Payload(arrivals[1..])
  }

  class Reader {
    // the kernel
    var unread: seq<byte>
    var finished: bool               // the peer's end of stream is behind `unread`
    var registered: bool             // for the EV_CLEAR read event
    var event: bool                  // that event is active
    var future: seq<Arrival>         // what the network will still do
    // what the callbacks were told
    ghost var delivered: seq<byte>
    ghost var disconnects: nat
    ghost const all: seq<byte>       // everything the peer sends

    ghost predicate Valid()
      reads this
    {
      && WellFormed(future) && (finished ==> future == [])
      && (event ==> registered)
      && delivered + (unread + Payload(future)) == all
    }

    /** Unread input, or an unreported end of stream, has an event pending. */
    ghost predicate Awaited()
      reads this
    {
      registered && (unread != [] || (finished && disconnects == 0) ==> event)
    }

    constructor (future: seq<Arrival>)
      requires WellFormed(future)
      ensures Valid() && !registered && delivered == [] && disconnects == 0 && this.future == future
      ensures all == Payload(future)
    {
      this.future, unread, finished, registered, event := future, [], false, false, false;
      delivered, disconnects := [], 0;
      all := Payload(future);
    }

    /** The network acts; any arrival activates the event of a registered socket. */
    method Arrive()
      requires Valid() && future != []
      modifies this`unread, this`finished, this`event, this`future
      ensures Valid() && event == registered && future == old(future)[1..] && old(unread) <= unread
      ensures |unread| + |Payload(future)| == old(|unread| + |Payload(future)|)
      ensures !old(finished)
    {
      var a := future[0];
      match a {
        case Segment(d) =>
          Regroup(unread, d, Payload(future[1..]));
          unread := unread + d;
        case Fin => finished := true;
      }
      event, future := registered, future[1..];
    }

    /** Any number of arrivals. */
    method Interleave()
      requires Valid()
      modifies this`unread, this`finished, this`event, this`future
      ensures Valid() && |future| <= |old(future)|
      ensures |unread| + |Payload(future)| == old(|unread| + |Payload(future)|)
      ensures if |future| == |old(future)| then unread == old(unread) && finished == old(finished) && event == old(event)
              else event == registered
    {
      var more: bool := *;
      while more && future != []
        invariant Valid() && |future| <= |old(future)|
        invariant |unread| + |Payload(future)| == old(|unread| + |Payload(future)|)
        invariant if |future| == |old(future)| then unread == old(unread) && finished == old(finished) && event == old(event)
                  else event == registered
        decreases |future|
      {
        Arrive();
        more := *;
      }
    }

    /** The kernel's non-blocking `recv`. */
    method Recv() returns (r: RecvResult)
      requires Valid()
      modifies this`unread
      ensures r.Got? ==> 0 < |r.data| <= RECV_CHUNK && old(unread) == r.data + unread
      ensures !r.Got? ==> unread == old(unread) == []
      ensures r.EndOfStream? <==> old(unread) == [] && finished
    {
      if unread == [] {
        r := if finished then EndOfStream else Again;
      } else {
        var n: int := *;
        if !(0 < n <= |unread| && n <= RECV_CHUNK) { n := 1; }
        r := Got(unread[..n]);
        unread := unread[n..];
      }
    }

    /** `ask_read_event`: registering again activates the event if there is something to read. */
    method AskReadEvent()
      requires Valid()
      modifies this`registered, this`event
      ensures Valid() && Awaited() && (old(event) ==> event)
    {
      registered, event := true, event || unread != [] || finished;
    }

    /** The read branch of the event loop, with the event taken from the kernel and thereby cleared. */
    method HandleRead()
      requires Valid() && event
      modifies this
      ensures Valid() && Awaited()
      ensures |future| <= |old(future)| && old(delivered) <= delivered
      ensures event ==> |future| < |old(future)|
      ensures disconnects <= old(disconnects) + 1
      ensures disconnects > old(disconnects) ==> delivered == all
    {
      assert Payload([]) == [];
      hide Payload;
      event := false;
      assert delivered + [] == delivered;
      while true
        invariant Valid() && registered && old(delivered) <= delivered && disconnects == old(disconnects)
        invariant |future| <= |old(future)| && (event ==> |future| < |old(future)|)
        decreases |unread| + |Payload(future)|
      {
        Interleave();
        var r := Recv();
        match r {
          case Got(d) =>
            Regroup(delivered, d, unread + Payload(future));
            Regroup(d, unread, Payload(future));
            delivered := delivered + d;
          case EndOfStream =>
            disconnects := disconnects + 1;
            assert delivered + ([] + []) == delivered;
            break;
          case Again =>
            break;
        }
      }
      Interleave();
    }

    /** The event loop, run until the network is done and no event is active: it stops, having
        delivered every byte in order, and the end of the stream if there was one. */
    method WaitForInput()
      requires Valid() && Awaited()
      modifies this
      ensures delivered == all && unread == []
      ensures finished ==> disconnects > 0
    {
      while event || future != []
        invariant Valid() && Awaited()
        decreases |future|, event
      {
        if event {
          HandleRead();
        } else {
          Arrive();
        }
      }
      assert delivered + ([] + Payload([])) == delivered;
    }

    /** The life of a connected socket: input may arrive before the socket is registered, and is not
        lost. */
    method Serve()
      requires Valid()
      modifies this
      ensures delivered == all && unread == []
      ensures finished ==> disconnects > 0
    {
      Interleave();
      AskReadEvent();
      WaitForInput();
    }
  }
}
