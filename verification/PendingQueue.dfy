/** The pending queue of `socket_stream`, on values: what a write and an `on_sent` do to the bytes
    the socket took and the bytes kept back, for every count the socket may answer. */
module PendingQueue {
  import opened Bytes

  /** `sent` is what the socket took, in order. */
  datatype Flow<T> = Flow(sent: seq<T>, pending: seq<T>) {
    function Line(): seq<T> {
      sent + pending
    }
  }

  datatype Step<T> = Wrote(buf: seq<T>, n: nat) | Flushed(n: nat)

  /** The socket answered a prefix of what it was given. */
  predicate Legal<T>(f: Flow<T>, step: Step<T>) {
    match step
    case Wrote(buf, n) => n <= |buf|
    case Flushed(n) => n <= |f.pending|
  }

  /** A short answer makes `write` keep the whole buffer; a full one ignores what is pending. */
  function Apply<T>(f: Flow<T>, step: Step<T>): Flow<T>
    requires Legal(f, step)
  {
    match step
    case Wrote(buf, n) => Flow(f.sent + buf[..n], if n < |buf| then f.pending + buf else f.pending)
    case Flushed(n) => Flow(f.sent + f.pending[..n], f.pending[n..])
  }

  /** `on_sent` loses, repeats and reorders nothing, whatever prefix the socket takes. */
  lemma FlushKeepsLine<T>(f: Flow<T>, n: nat)
    requires n <= |f.pending|
    ensures Apply(f, Flushed(n)).Line() == f.Line()
  {
    Regroup(f.sent, f.pending[..n], f.pending[n..]);
    assert f.pending[..n] + f.pending[n..] == f.pending;
  }

  /** A write appends its buffer to the line exactly when the socket took nothing, or took all of it
      and the buffer commutes with what is pending. */
  lemma WriteAppendsIff<T>(f: Flow<T>, buf: seq<T>, n: nat)
    requires n <= |buf|
    ensures Apply(f, Wrote(buf, n)).Line() == f.Line() + buf <==>
            n == 0 || (n == |buf| && buf + f.pending == f.pending + buf)
  {
    var g := Apply(f, Wrote(buf, n));
    Regroup(f.sent, f.pending, buf);
    if n == 0 {
      assert f.sent + buf[..0] == f.sent;
      if |buf| == 0 { assert f.Line() + buf == f.Line(); }
    } else if n == |buf| {
      assert buf[..n] == buf;
      Regroup(f.sent, buf, f.pending);
      if g.Line() == f.Line() + buf {
        assert (f.sent + (buf + f.pending))[|f.sent|..] == buf + f.pending;
        assert (f.sent + (f.pending + buf))[|f.sent|..] == f.pending + buf;
      }
    } else {
      assert |g.Line()| == |f.Line()| + |buf| + n;
    }
  }

  /** A write cut short puts what was taken in line twice: "ab" becomes "aab". */
  lemma CutShortRepeats<T>(a: T, b: T)
    ensures Apply(Flow([], []), Wrote([a, b], 1)).Line() == [a, a, b]
  {
  }

  /** A write that is taken whole overtakes what is pending. */
  lemma TakenWholeOvertakes<T>(a: T, b: T)
    ensures Apply(Flow([], [a]), Wrote([b], 1)).Line() == [b, a]
  {
  }

  predicate AlwaysAppends(p: nat, size: nat, n: nat)
    requires n <= size
  {
    n == 0 || (n == size && p == 0)
  }

  /** Judged by lengths alone, for all contents: nothing taken, or all taken with nothing pending. */
  lemma WriteAlwaysAppendsIff(p: nat, size: nat, n: nat)
    requires n <= size
    ensures (forall f: Flow<int>, buf: seq<int> :: |f.pending| == p && |buf| == size ==>
              Apply(f, Wrote(buf, n)).Line() == f.Line() + buf)
            <==> AlwaysAppends(p, size, n)
  {
    if AlwaysAppends(p, size, n) {
      forall f: Flow<int>, buf: seq<int> | |f.pending| == p && |buf| == size
        ensures Apply(f, Wrote(buf, n)).Line() == f.Line() + buf
      {
        if n != 0 {
          assert f.pending == [] && buf + [] == [] + buf;
        }
        WriteAppendsIff(f, buf, n);
      }
    } else {
      var f, buf := Flow([], seq(p, i => 0)), seq(size, i => 1);
      WriteAppendsIff(f, buf, n);
      if n == size {
        assert (buf + f.pending)[0] == 1 && (f.pending + buf)[0] == 0;
      }
      assert Apply(f, Wrote(buf, n)).Line() != f.Line() + buf;
    }
  }

  /** With one operation of a fixed size that is under way whenever something is pending, as on
      Windows, a write keeps the order exactly when the operation is busy or the buffer fits it. */
  lemma SingleOperationAppendsIff(p: nat, busy: bool, opSize: nat, size: nat)
    requires 0 < opSize && (p > 0 ==> busy)
    ensures AlwaysAppends(p, size, if busy then 0 else Min(opSize, size)) <==> busy || size <= opSize
  {
  }

  /** With a kernel buffer with `room` free bytes, as on Linux and macOS, exactly when there is no
      room, or room for all and nothing pending. */
  lemma KernelBufferAppendsIff(p: nat, room: nat, size: nat)
    ensures AlwaysAppends(p, size, Min(size, room)) <==> room == 0 || size == 0 || (size <= room && p == 0)
  {
  }

  // ----- whole runs -----

  predicate LegalRun<T>(f: Flow<T>, steps: seq<Step<T>>)
    decreases |steps|
  {
    steps == [] || (Legal(f, steps[0]) && LegalRun(Apply(f, steps[0]), steps[1..]))
  }

  function Run<T>(f: Flow<T>, steps: seq<Step<T>>): Flow<T>
    requires LegalRun(f, steps)
    decreases |steps|
  {
    if steps == [] then f else Run(Apply(f, steps[0]), steps[1..])
  }

  /** What a step was given to write. */
  function Given<T>(step: Step<T>): seq<T> {
    if step.Wrote? then step.buf else []
  }

  function Written<T>(steps: seq<Step<T>>): seq<T> {
    if steps == [] then []
    else Given(steps[0]) + Written(steps[1..])
  }

  /** Bytes taken by writes that were cut short: each is put in line a second time. */
  function Repeated<T>(steps: seq<Step<T>>): nat {
    if steps == [] then 0
    else (if steps[0].Wrote? && steps[0].n < |steps[0].buf| then steps[0].n else 0) + Repeated(steps[1..])
  }

  /** Over every run the line is longer than what was written by exactly the repeated bytes. */
  lemma {:induction false} LineLength<T>(f: Flow<T>, steps: seq<Step<T>>)
    requires LegalRun(f, steps)
    ensures |Run(f, steps).Line()| == |f.Line()| + |Written(steps)| + Repeated(steps)
    decreases |steps|
  {
    if steps != [] {
      LineLength(Apply(f, steps[0]), steps[1..]);
    }
  }

  /** Every write of the run was answered in one of the two harmless ways. */
  predicate Orderly<T>(f: Flow<T>, steps: seq<Step<T>>)
    requires LegalRun(f, steps)
    decreases |steps|
  {
    steps == [] ||
    (&& (steps[0].Wrote? ==> AlwaysAppends(|f.pending|, |steps[0].buf|, steps[0].n))
     && Orderly(Apply(f, steps[0]), steps[1..]))
  }

  lemma OrderlyStep<T>(f: Flow<T>, step: Step<T>)
    requires Legal(f, step)
    requires step.Wrote? ==> AlwaysAppends(|f.pending|, |step.buf|, step.n)
    ensures Apply(f, step).Line() == f.Line() + Given(step)
  {
    match step {
      case Wrote(buf, n) =>
        if n != 0 {
          assert f.pending == [] && buf + [] == [] + buf;
        }
        WriteAppendsIff(f, buf, n);
      case Flushed(n) => FlushKeepsLine(f, n);
    }
  }

  /** An orderly run is first in, first out. */
  lemma {:induction false} OrderlyIsFifo<T>(f: Flow<T>, steps: seq<Step<T>>)
    requires LegalRun(f, steps) && Orderly(f, steps)
    ensures Run(f, steps).Line() == f.Line() + Written(steps)
    decreases |steps|
  {
    if steps != [] {
      OrderlyStep(f, steps[0]);
      OrderlyIsFifo(Apply(f, steps[0]), steps[1..]);
      Regroup(f.Line(), Given(steps[0]), Written(steps[1..]));
    }
  }

  /** A single write cut short breaks the order for the rest of any run. */
  lemma CutShortIsNotFifo<T>(f: Flow<T>, steps: seq<Step<T>>)
    requires LegalRun(f, steps) && Repeated(steps) > 0
    ensures Run(f, steps).Line() != f.Line() + Written(steps)
  {
    LineLength(f, steps);
  }

  // ----- runs whose elements can be told apart -----

  ghost predicate Distinct<T>(s: seq<T>) {
    forall i, j :: 0 <= i < j < |s| ==> s[i] != s[j]
  }

  ghost predicate Precedes<T>(line: seq<T>, b: T, a: T) {
    exists i, j :: 0 <= i < j < |line| && line[i] == b && line[j] == a
  }

  /** A step only inserts into the line: what is in it keeps its order. */
  lemma StepKeepsOrder<T>(f: Flow<T>, step: Step<T>, b: T, a: T)
    requires Legal(f, step) && Precedes(f.Line(), b, a)
    ensures Precedes(Apply(f, step).Line(), b, a)
  {
    var i, j :| 0 <= i < j < |f.Line()| && f.Line()[i] == b && f.Line()[j] == a;
    match step {
      case Wrote(buf, n) =>
        var line := Apply(f, step).Line();
        var shift := k => if k < |f.sent| then k else k + n;
        assert line[shift(i)] == b && line[shift(j)] == a;
      case Flushed(n) => FlushKeepsLine(f, n);
    }
  }

  lemma {:induction false} RunKeepsOrder<T>(f: Flow<T>, steps: seq<Step<T>>, b: T, a: T)
    requires LegalRun(f, steps) && Precedes(f.Line(), b, a)
    ensures Precedes(Run(f, steps).Line(), b, a)
    decreases |steps|
  {
    if steps != [] {
      StepKeepsOrder(f, steps[0], b, a);
      RunKeepsOrder(Apply(f, steps[0]), steps[1..], b, a);
    }
  }

  /** A write that overtook pending data is out of order for the rest of any run. */
  lemma OvertakingIsNotFifo<T>(f: Flow<T>, steps: seq<Step<T>>)
    requires LegalRun(f, steps) && steps != [] && steps[0].Wrote? && Distinct(f.Line() + Written(steps))
    requires 0 < steps[0].n == |steps[0].buf| && f.pending != []
    ensures Run(f, steps).Line() != f.Line() + Written(steps)
  {
    var g, due := Apply(f, steps[0]), f.Line() + Written(steps);
    var b, a := steps[0].buf[0], f.pending[0];
    assert g.Line()[|f.sent|] == b && g.Line()[|f.sent| + steps[0].n] == a;
    RunKeepsOrder(g, steps[1..], b, a);
    assert due[|f.sent|] == a && due[|f.Line()|] == b;
  }

  /** Over whole runs of elements that can be told apart, the line is first in, first out exactly when
      every write was answered in a harmless way. */
  lemma {:induction false} FifoIffOrderly<T>(f: Flow<T>, steps: seq<Step<T>>)
    requires LegalRun(f, steps) && Distinct(f.Line() + Written(steps))
    ensures Run(f, steps).Line() == f.Line() + Written(steps) <==> Orderly(f, steps)
    decreases |steps|
  {
    if Orderly(f, steps) {
      OrderlyIsFifo(f, steps);
    } else if Repeated(steps) > 0 {
      CutShortIsNotFifo(f, steps);
    } else if steps[0].Wrote? && !AlwaysAppends(|f.pending|, |steps[0].buf|, steps[0].n) {
      OvertakingIsNotFifo(f, steps);
    } else {
      OrderlyStep(f, steps[0]);
      Regroup(f.Line(), Given(steps[0]), Written(steps[1..]));
      FifoIffOrderly(Apply(f, steps[0]), steps[1..]);
    }
  }

  // ----- histories that grow -----

  /** What a history of steps from the empty queue has come to. */
  ghost predicate Recorded<T>(f: Flow<T>, steps: seq<Step<T>>, written: seq<T>, repeated: nat, inOrder: bool) {
    && LegalRun(Flow([], []), steps) && Run(Flow([], []), steps) == f
    && Written(steps) == written && Repeated(steps) == repeated && (inOrder <==> Orderly(Flow([], []), steps))
  }

  lemma {:induction false} RunMore<T>(f: Flow<T>, steps: seq<Step<T>>, step: Step<T>)
    requires LegalRun(f, steps) && Legal(Run(f, steps), step)
    ensures LegalRun(f, steps + [step]) && Run(f, steps + [step]) == Apply(Run(f, steps), step)
    ensures Written(steps + [step]) == Written(steps) + Given(step)
    ensures Repeated(steps + [step]) ==
      Repeated(steps) + if step.Wrote? && step.n < |step.buf| then step.n else 0
    ensures Orderly(f, steps + [step]) <==>
      Orderly(f, steps) && (step.Wrote? ==> AlwaysAppends(|Run(f, steps).pending|, |step.buf|, step.n))
    decreases |steps|
  {
    if steps == [] {
      assert [] + [step] == [step] && [step][1..] == [];
      assert Given(step) + [] == Given(step);
    } else {
      assert (steps + [step])[1..] == steps[1..] + [step];
      RunMore(Apply(f, steps[0]), steps[1..], step);
      Regroup(Given(steps[0]), Written(steps[1..]), Given(step));
    }
  }

  lemma RecordedMore<T>(f: Flow<T>, steps: seq<Step<T>>, written: seq<T>, repeated: nat, inOrder: bool, step: Step<T>)
    requires Recorded(f, steps, written, repeated, inOrder) && Legal(f, step)
    ensures Recorded(Apply(f, step), steps + [step], written + Given(step),
                     repeated + (if step.Wrote? && step.n < |step.buf| then step.n else 0),
                     inOrder && (step.Wrote? ==> AlwaysAppends(|f.pending|, |step.buf|, step.n)))
  {
    RunMore(Flow([], []), steps, step);
  }

  /** The line is what was written, and what was repeated besides; and if the elements can be told apart, it is
      what was written in its order exactly if no answer was harmful. */
  lemma RecordedFacts<T>(f: Flow<T>, steps: seq<Step<T>>, written: seq<T>, repeated: nat, inOrder: bool)
    requires Recorded(f, steps, written, repeated, inOrder)
    ensures |f.Line()| == |written| + repeated && (inOrder ==> f.Line() == written)
    ensures Distinct(written) ==> (f.Line() == written <==> inOrder)
  {
    var empty: Flow<T> := Flow([], []);
    LineLength(empty, steps);
    assert empty.Line() == [] && [] + written == written;
    if inOrder {
      OrderlyIsFifo(empty, steps);
    }
    if Distinct(written) {
      FifoIffOrderly(empty, steps);
    }
  }
}
