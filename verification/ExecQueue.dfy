/** `io_context::exec`: any thread pushes a task under the mutex and then triggers a wakeup; the loop
    thread fetches the wakeup, swaps the queue out under the mutex and runs what it got. Tasks may
    call `exec` themselves. Steps of all threads interleave; the sections under the mutex are
    single steps. */
module ExecQueue {

  type Task = int
  type Pid = int

  /** Where the loop thread stands. `batch` is what it has swapped out and not yet begun. */
  datatype Loop =
    | Waiting
    | Fetched
    | Draining(batch: seq<Task>)
    | InTask(batch: seq<Task>)
    | TaskPushed(batch: seq<Task>)   // the running task has pushed and not yet triggered

  datatype State = State(
    sticky: bool,             // the wakeup stays signalled: Linux never reads its eventfd
    pending: seq<Task>,       // pending_callbacks_
    signalled: bool,
    between: set<Pid>,        // producers that have pushed and not yet triggered
    loop: Loop,
    pushed: seq<Task>,        // all pushes, in the order of the mutex
    executed: seq<Task>)      // all tasks begun, in order

  datatype Step =
    | Push(p: Pid, t: Task)
    | Trigger(p: Pid)
    | Fetch
    | Swap
    | Begin
    | TaskPush(t: Task)
    | TaskTrigger
    | End
    | Rest

  predicate Initial(s: State) {
    s == State(s.sticky, [], false, {}, Waiting, [], [])
  }

  predicate Enabled(s: State, step: Step) {
    match step
    case Push(p, _) => p !in s.between
    case Trigger(p) => p in s.between
    case Fetch => s.loop == Waiting && s.signalled
    case Swap => s.loop == Fetched
    case Begin => s.loop.Draining? && s.loop.batch != []
    case TaskPush(_) => s.loop.InTask?
    case TaskTrigger => s.loop.TaskPushed?
    case End => s.loop.InTask?
    case Rest => s.loop == Draining([])
  }

  function Next(s: State, step: Step): State
    requires Enabled(s, step)
  {
    match step
    case Push(p, t) => s.(pending := s.pending + [t], pushed := s.pushed + [t], between := s.between + {p})
    case Trigger(p) => s.(between := s.between - {p}, signalled := true)
    case Fetch => s.(loop := Fetched, signalled := s.sticky)
    case Swap => s.(loop := Draining(s.pending), pending := [])
    case Begin => s.(loop := InTask(s.loop.batch[1..]), executed := s.executed + [s.loop.batch[0]])
    case TaskPush(t) => s.(loop := TaskPushed(s.loop.batch), pending := s.pending + [t], pushed := s.pushed + [t])
    case TaskTrigger => s.(loop := InTask(s.loop.batch), signalled := true)
    case End => s.(loop := Draining(s.loop.batch))
    case Rest => s.(loop := Waiting)
  }

  function Batch(l: Loop): seq<Task> {
    match l
    case Waiting => []
    case Fetched => []
    case Draining(b) => b
    case InTask(b) => b
    case TaskPushed(b) => b
  }

  /** No task is lost, repeated or reordered, and a waiting task will be noticed. */
  predicate Inv(s: State) {
    && s.executed + Batch(s.loop) + s.pending == s.pushed
    && (s.pending != [] ==> s.signalled || s.loop == Fetched || s.between != {} || s.loop.TaskPushed?)
  }

  lemma StepKeepsInv(s: State, step: Step)
    requires Inv(s) && Enabled(s, step)
    ensures Inv(Next(s, step))
  {
    var u := Next(s, step);
    match step {
      case Push(p, t) =>
        assert s.executed + Batch(s.loop) + (s.pending + [t]) == s.executed + Batch(s.loop) + s.pending + [t];
        assert p in u.between;
      case TaskPush(t) =>
        assert s.executed + Batch(s.loop) + (s.pending + [t]) == s.executed + Batch(s.loop) + s.pending + [t];
      case Swap =>
        assert s.executed + [] + s.pending == s.executed + s.pending + [];
      case Begin =>
        assert s.executed + s.loop.batch == s.executed + [s.loop.batch[0]] + s.loop.batch[1..];
      case _ =>
    }
  }

  /** `steps` is a run from `s`. */
  predicate Possible(s: State, steps: seq<Step>)
    decreases |steps|
  {
    steps == [] || (Enabled(s, steps[0]) && Possible(Next(s, steps[0]), steps[1..]))
  }

  function After(s: State, steps: seq<Step>): State
    requires Possible(s, steps)
    decreases |steps|
  {
    if steps == [] then s else After(Next(s, steps[0]), steps[1..])
  }

  lemma {:induction false} RunKeepsInv(s: State, steps: seq<Step>)
    requires Inv(s) && Possible(s, steps)
    ensures Inv(After(s, steps))
    decreases |steps|
  {
    if steps != [] {
      StepKeepsInv(s, steps[0]);
      RunKeepsInv(Next(s, steps[0]), steps[1..]);
    }
  }

  function AskedBy(step: Step): seq<Task> {
    match step
    case Push(_, t) => [t]
    case TaskPush(t) => [t]
    case _ => []
  }

  /** The tasks given to `exec` during a run, in the order of the mutex. */
  function Asked(steps: seq<Step>): seq<Task> {
    if steps == [] then [] else AskedBy(steps[0]) + Asked(steps[1..])
  }

  lemma StepAsks(s: State, step: Step)
    requires Enabled(s, step)
    ensures Next(s, step).pushed == s.pushed + AskedBy(step)
  {
    assert s.pushed + [] == s.pushed;
  }

  lemma AfterOne(s: State, a: Step)
    requires Enabled(s, a)
    ensures Possible(s, [a]) && After(s, [a]) == Next(s, a)
  {
    hide Next, Enabled;
    assert [a][1..] == [];
    assert Possible(Next(s, a), []) && After(Next(s, a), []) == Next(s, a);
  }

  lemma AfterTwo(s: State, a: Step, b: Step)
    requires Enabled(s, a) && Enabled(Next(s, a), b)
    ensures Possible(s, [a, b]) && After(s, [a, b]) == Next(Next(s, a), b)
  {
    hide Next, Enabled;
    assert [a, b][1..] == [b];
    AfterOne(Next(s, a), b);
  }

  /** The log of pushes is what `exec` was given. */
  lemma {:induction false} PushedIsAsked(s: State, steps: seq<Step>)
    requires Possible(s, steps)
    ensures After(s, steps).pushed == s.pushed + Asked(steps)
    decreases |steps|
  {
    if steps == [] {
      assert s.pushed + [] == s.pushed;
    } else {
      hide Next, Enabled, AskedBy;
      StepAsks(s, steps[0]);
      PushedIsAsked(Next(s, steps[0]), steps[1..]);
      assert (s.pushed + AskedBy(steps[0])) + Asked(steps[1..]) == s.pushed + (AskedBy(steps[0]) + Asked(steps[1..]));
    }
  }

  /** At any moment any thread that is not inside `exec` may call it, whatever the loop is doing: the task is
      at the end of the queue and the wakeup signalled. */
  lemma ExecQueues(s: State, p: Pid, t: Task)
    requires p !in s.between
    ensures var steps := [Push(p, t), Trigger(p)];
            && Possible(s, steps)
            && After(s, steps) == s.(pending := s.pending + [t], pushed := s.pushed + [t], signalled := true)
  {
    AfterTwo(s, Push(p, t), Trigger(p));
    assert Next(s, Push(p, t)).between - {p} == s.between;
  }

  /** So may a running task, which is not run under the mutex. */
  lemma ExecFromTaskQueues(s: State, t: Task)
    requires s.loop.InTask?
    ensures var steps := [TaskPush(t), TaskTrigger];
            && Possible(s, steps)
            && After(s, steps) == s.(pending := s.pending + [t], pushed := s.pushed + [t], signalled := true)
  {
    AfterTwo(s, TaskPush(t), TaskTrigger);
  }

  /** In every interleaving, what has run is a prefix of what `exec` was given: the k-th task pushed is the
      k-th to run, so each runs at most once. */
  lemma RunsInOrderAtMostOnce(s: State, steps: seq<Step>)
    requires Initial(s) && Possible(s, steps)
    ensures var u := After(s, steps); u.executed <= u.pushed == Asked(steps)
  {
    hide Possible, After, Asked;
    assert Inv(s);
    PushedIsAsked(s, steps);
    assert [] + Asked(steps) == Asked(steps);
    RunKeepsInv(s, steps);
    var u := After(s, steps);
    assert u.pushed == u.executed + (Batch(u.loop) + u.pending);
  }

  /** When the loop sleeps, no wakeup is signalled and no producer stands between push and trigger,
      every task pushed has run. */
  lemma SleepingMeansDone(s: State, steps: seq<Step>)
    requires Initial(s) && Possible(s, steps)
    requires var u := After(s, steps); u.loop == Waiting && !u.signalled && u.between == {}
    ensures var u := After(s, steps); u.executed == u.pushed == Asked(steps)
  {
    hide Possible, After, Asked;
    assert Inv(s);
    RunKeepsInv(s, steps);
    PushedIsAsked(s, steps);
    assert [] + Asked(steps) == Asked(steps);
    var u := After(s, steps);
    assert u.executed + [] + [] == u.executed;
  }

  // ----- progress -----

  predicate Pushes(step: Step) {
    step.Push? || step.TaskPush?
  }

  /** Steps left once no more tasks are pushed and the wakeup is cleared when fetched (macOS). */
  function Rank(s: State): nat {
    10 * |s.between| + (if s.signalled then 5 else 0) + 3 * |s.pending| +
    match s.loop
    case Waiting => 0
    case Fetched => 4
    case Draining(b) => 3 * |b| + 1
    case InTask(b) => 3 * |b| + 3
    case TaskPushed(b) => 3 * |b| + 9
  }

  lemma RankFalls(s: State, step: Step)
    requires Enabled(s, step) && !Pushes(step) && !s.sticky
    ensures Rank(Next(s, step)) < Rank(s)
  {
    if step.Trigger? {
      var rest := s.between - {step.p};
      assert s.between == rest + {step.p};
      assert |s.between| == |rest| + 1;
    }
  }

  lemma NobodyIn(ps: set<Pid>)
    ensures (forall p: Pid :: p !in ps) ==> ps == {}
  {
    if forall p: Pid :: p !in ps {
      assert ps == {};
    }
  }

  /** Unless everything is at rest, some thread can take a step that pushes nothing. */
  lemma CanStep(s: State)
    requires !(s.loop == Waiting && !s.signalled && s.between == {})
    ensures exists step :: Enabled(s, step) && !Pushes(step)
  {
    if s.between != {} {
      NobodyIn(s.between);
      var p :| p in s.between;
      assert Enabled(s, Trigger(p)) && !Pushes(Trigger(p));
    } else {
      match s.loop {
        case Waiting => assert Enabled(s, Fetch) && !Pushes(Fetch);
        case Fetched => assert Enabled(s, Swap) && !Pushes(Swap);
        case Draining(b) =>
          if b == [] { assert Enabled(s, Rest) && !Pushes(Rest); } else { assert Enabled(s, Begin) && !Pushes(Begin); }
        case InTask(_) => assert Enabled(s, End) && !Pushes(End);
        case TaskPushed(_) => assert Enabled(s, TaskTrigger) && !Pushes(TaskTrigger);
      }
    }
  }

  lemma {:induction false} QuietRunsEnd(s: State, steps: seq<Step>)
    requires Possible(s, steps) && !s.sticky && forall step <- steps :: !Pushes(step)
    ensures After(s, steps).pushed == s.pushed && |steps| + Rank(After(s, steps)) <= Rank(s)
    ensures !After(s, steps).sticky
    decreases |steps|
  {
    if steps != [] {
      RankFalls(s, steps[0]);
      QuietRunsEnd(Next(s, steps[0]), steps[1..]);
    }
  }

  /** Once nothing more is pushed, every schedule of the threads has at most `Rank` steps, and one
      that cannot be continued has run every task. */
  lemma EveryTaskRuns(s0: State, before: seq<Step>, steps: seq<Step>)
    requires Initial(s0) && !s0.sticky && Possible(s0, before)
    requires Possible(After(s0, before), steps) && forall step <- steps :: !Pushes(step)
    ensures |steps| <= Rank(After(s0, before))
    ensures var u := After(After(s0, before), steps);
            (forall step :: Enabled(u, step) ==> Pushes(step)) ==> u.executed == u.pushed == Asked(before)
  {
    NeverSticky(s0, before);
    PushedIsAsked(s0, before);
    assert [] + Asked(before) == Asked(before);
    var s := After(s0, before);
    QuietRunsEnd(s, steps);
    var u := After(s, steps);
    if forall step :: Enabled(u, step) ==> Pushes(step) {
      if !(u.loop == Waiting && !u.signalled && u.between == {}) {
        CanStep(u);
      }
      assert Inv(s0);
      RunKeepsInv(s0, before);
      RunKeepsInv(s, steps);
      assert u.executed + [] + [] == u.executed;
    }
  }

  lemma {:induction false} NeverSticky(s: State, steps: seq<Step>)
    requires Possible(s, steps)
    ensures After(s, steps).sticky == s.sticky
    decreases |steps|
  {
    if steps != [] {
      NeverSticky(Next(s, steps[0]), steps[1..]);
    }
  }

  // ----- the Linux wakeup -----

  /** Once triggered, the wakeup is never cleared: the eventfd is not read. */
  lemma {:induction false} StaysSignalled(s: State, steps: seq<Step>)
    requires Possible(s, steps) && s.sticky && s.signalled
    ensures After(s, steps).signalled
    decreases |steps|
  {
    if steps != [] {
      StaysSignalled(Next(s, steps[0]), steps[1..]);
    }
  }

  /** The steps by which the loop, from `Waiting`, swaps and runs everything pending. */
  function DrainSteps(n: nat): seq<Step> {
    if n == 0 then [Rest] else [Begin, End] + DrainSteps(n - 1)
  }

  lemma {:induction false} DrainRuns(s: State)
    requires s.loop.Draining?
    ensures var steps := DrainSteps(|s.loop.batch|);
            Possible(s, steps) && After(s, steps) == s.(loop := Waiting, executed := s.executed + s.loop.batch)
    decreases |s.loop.batch|
  {
    var b := s.loop.batch;
    if b == [] {
      assert s.executed + b == s.executed;
      assert [Rest][1..] == [];
    } else {
      var s1 := Next(s, Begin);
      var s2 := Next(s1, End);
      DrainRuns(s2);
      var steps := DrainSteps(|b|);
      assert steps[0] == Begin && steps[1..][0] == End && steps[1..][1..] == DrainSteps(|b| - 1);
      assert s.executed + [b[0]] + b[1..] == s.executed + b;
    }
  }

  /** A pass of the loop can run all that was pending when it began, on either system. */
  lemma OnePassCanRunAll(s: State)
    requires Inv(s) && s.loop == Waiting && s.signalled
    ensures var steps := [Fetch, Swap] + DrainSteps(|s.pending|);
            Possible(s, steps) && After(s, steps).executed == s.pushed
  {
    var s1 := Next(s, Fetch);
    var s2 := Next(s1, Swap);
    DrainRuns(s2);
    var steps := [Fetch, Swap] + DrainSteps(|s.pending|);
    assert steps[0] == Fetch && steps[1..][0] == Swap && steps[1..][1..] == DrainSteps(|s.pending|);
    assert s.executed + [] + s.pending == s.executed + s.pending;
  }

  lemma {:induction false} ExecutedGrows(s: State, steps: seq<Step>)
    requires Possible(s, steps)
    ensures s.executed <= After(s, steps).executed
    decreases |steps|
  {
    if steps != [] {
      ExecutedGrows(Next(s, steps[0]), steps[1..]);
    }
  }

  /** The tasks `p` were pushed first, and the pass under way will run them. */
  predicate Covered(p: seq<Task>, s: State) {
    if s.loop == Fetched then p <= s.pushed else s.loop != Waiting && p <= s.executed + Batch(s.loop)
  }

  lemma StepCovers(p: seq<Task>, s: State, step: Step)
    requires Inv(s) && Covered(p, s) && Enabled(s, step)
    ensures if step == Rest then p <= s.executed else Covered(p, Next(s, step))
  {
    match step {
      case Begin => assert s.executed + s.loop.batch == s.executed + [s.loop.batch[0]] + s.loop.batch[1..];
      case Swap => assert s.executed + [] + s.pending == s.executed + s.pending;
      case Rest => assert s.executed + [] == s.executed;
      case _ =>
    }
  }

  lemma {:induction false} PassCovers(p: seq<Task>, s: State, steps: seq<Step>)
    requires Inv(s) && Covered(p, s) && Possible(s, steps) && Rest in steps
    ensures p <= After(s, steps).executed
    decreases |steps|
  {
    var u := Next(s, steps[0]);
    StepCovers(p, s, steps[0]);
    StepKeepsInv(s, steps[0]);
    if steps[0] == Rest {
      ExecutedGrows(u, steps[1..]);
    } else {
      PassCovers(p, u, steps[1..]);
    }
  }

  /** In every interleaving a whole pass of the loop, from fetching the wakeup to resting, runs all that had
      been pushed when it began, on either system. */
  lemma OnePassRunsAll(s: State, steps: seq<Step>)
    requires Inv(s) && Possible(s, [Fetch] + steps) && Rest in steps
    ensures s.pushed <= After(s, [Fetch] + steps).executed
  {
    assert ([Fetch] + steps)[1..] == steps;
    StepKeepsInv(s, Fetch);
    PassCovers(s.pushed, Next(s, Fetch), steps);
  }

  /** Steps left to the last task, once no more are pushed, whether or not the wakeup is ever cleared. */
  function Left(s: State): nat {
    2 * |s.between| + 6 * |s.pending| +
    match s.loop
    case Waiting => 3
    case Fetched => 2
    case Draining(b) => 3 * |b| + 4
    case InTask(b) => 3 * |b| + 6
    case TaskPushed(b) => 3 * |b| + 7
  }

  lemma LeftFalls(s: State, step: Step)
    requires Inv(s) && Enabled(s, step) && !Pushes(step) && s.executed != s.pushed
    ensures Left(Next(s, step)) < Left(s)
  {
    assert s.executed + [] + [] == s.executed;
    if step.Trigger? {
      assert s.between == (s.between - {step.p}) + {step.p};
      assert |s.between| == |s.between - {step.p}| + 1;
    }
  }

  /** Once nothing more is pushed, the loop has run every task after at most `Left` steps of all threads, in
      every schedule and on either system; and until then some thread can take a step. */
  lemma {:induction false} EveryTaskRunsInTime(s: State, steps: seq<Step>)
    requires Inv(s) && Possible(s, steps) && forall step <- steps :: !Pushes(step)
    ensures var u := After(s, steps);
            || u.executed == u.pushed
            || (|steps| + Left(u) <= Left(s) && exists step :: Enabled(u, step) && !Pushes(step))
    decreases |steps|
  {
    if steps == [] {
      if s.executed != s.pushed {
        assert s.executed + [] + [] == s.executed;
        CanStep(s);
      }
    } else {
      var v := Next(s, steps[0]);
      StepKeepsInv(s, steps[0]);
      EveryTaskRunsInTime(v, steps[1..]);
      if s.executed == s.pushed {
        QuietStaysDone(s, steps);
      } else {
        LeftFalls(s, steps[0]);
      }
    }
  }

  lemma {:induction false} QuietStaysDone(s: State, steps: seq<Step>)
    requires Inv(s) && Possible(s, steps) && s.executed == s.pushed && forall step <- steps :: !Pushes(step)
    ensures After(s, steps).executed == After(s, steps).pushed
    decreases |steps|
  {
    if steps != [] {
      StepKeepsInv(s, steps[0]);
      assert |s.executed + Batch(s.loop) + s.pending| == |s.executed| + |Batch(s.loop)| + |s.pending|;
      assert forall step <- steps[1..] :: step in steps;
      assert !Pushes(steps[0]);
      QuietStaysDone(Next(s, steps[0]), steps[1..]);
    }
  }

  const EVENTFD_MAX := 0xFFFF_FFFF_FFFF_FFFE

  /** The eventfd's value when the n-th call of `trigger` in the process has added n to it. */
  function Counter(n: nat): nat {
    if n == 0 then 0 else Counter(n - 1) + n
  }

  lemma {:induction false} CounterClosed(n: nat)
    ensures 2 * Counter(n) == n * (n + 1)
  {
    if n > 0 {
      CounterClosed(n - 1);
    }
  }

  lemma {:induction false} CounterGrows(m: nat, n: nat)
    requires m <= n
    ensures Counter(m) <= Counter(n)
    decreases n - m
  {
    if m < n {
      CounterGrows(m, n - 1);
    }
  }

  /** With a single loop the n-th `trigger` goes through exactly up to n = 6074000999; the next one
      overflows the eventfd, and `exec` throws although its task is queued and will run. */
  lemma TriggerOverflows(n: nat)
    ensures Counter(n) <= EVENTFD_MAX <==> n <= 6074000999
  {
    CounterClosed(6074000999);
    CounterClosed(6074001000);
    if n <= 6074000999 {
      CounterGrows(n, 6074000999);
    } else {
      CounterGrows(6074001000, n);
    }
  }
}
