/** The semaphore that completes its waiters when it is drained: any number of threads acquire,
    release and wait for the count to reach zero or less. */
module AsyncSemaphore {
  import opened Counting
  import opened Numbers
  import Runs

  /** A wait for the semaphore to be drained; every wait is a new operation. */
  type Operation = nat

  datatype Local =
    | Idle
    | Draining                       // Acquire took the count to zero or below; the list is not taken yet
    | Completing(ops: seq<Operation>) // the list is taken, these operations are still to be completed
    | Checking(op: Operation)        // a wait holds the lock, before loading the count
    | Queueing(op: Operation)        // the count was positive, before queueing; still holds the lock

  /** started, completed and waiting operations are numbered in the order they start. */
  datatype Shared = Shared(count: int, waiters: seq<Operation>, locked: bool, started: nat, completed: seq<Operation>)

  datatype State = State(shared: Shared, threads: seq<Local>)

  /** raises: the program may call Release, or acquire a negative amount. */
  datatype Config = Config(initial: int, raises: bool)

  datatype Action = Acquire(n: int) | Release(n: int) | TakeList | CompleteOne | StartWait | LoadCount | Queue

  ghost predicate Init(c: Config, s: State) {
    && s.shared == Shared(c.initial, [], false, 0, [])
    && forall t :: 0 <= t < |s.threads| ==> s.threads[t] == Idle
  }

  ghost predicate Move(c: Config, g: Shared, l: Local, a: Action, g': Shared, l': Local) {
    match a
    case Acquire(n) =>
      && l.Idle? && (n >= 0 || c.raises) && g' == g.(count := g.count - n)
      && l' == if g.count <= n then Draining else Idle
    case Release(n) =>
      l.Idle? && c.raises && g' == g.(count := g.count + n) && l' == Idle
    case TakeList =>
      l.Draining? && !g.locked && g' == g.(waiters := []) && l' == Completing(g.waiters)
    case CompleteOne =>
      && l.Completing?
      && (if l.ops == [] then g' == g && l' == Idle
          else g' == g.(completed := g.completed + [l.ops[0]]) && l' == Completing(l.ops[1..]))
    case StartWait =>
      l.Idle? && !g.locked && g' == g.(locked := true, started := g.started + 1) && l' == Checking(g.started)
    case LoadCount =>
      && l.Checking?
      && (if g.count <= 0 then g' == g.(locked := false, completed := g.completed + [l.op]) && l' == Idle
          else g' == g && l' == Queueing(l.op))
    case Queue =>
      l.Queueing? && g' == g.(locked := false, waiters := g.waiters + [l.op]) && l' == Idle
  }

  ghost predicate StepOf(c: Config, s: State, t: nat, a: Action, s': State) {
    && t < |s.threads| == |s'.threads|
    && s'.threads == s.threads[t := s'.threads[t]]
    && Move(c, s.shared, s.threads[t], a, s'.shared, s'.threads[t])
  }

  ghost predicate Step(c: Config, s: State, s': State) {
    exists t: nat, a :: StepOf(c, s, t, a, s')
  }

  ghost function Protocol(c: Config): Runs.System<State> {
    Runs.System(s => Init(c, s), (s, s') => Step(c, s, s'))
  }

  ghost predicate IsRun(c: Config, run: seq<State>) {
    Runs.IsRun(Protocol(c), run)
  }

  // ---- the invariant ----

  function Locker(l: Local): int {
    Bit(l.Checking? || l.Queueing?)
  }

  function Queuer(l: Local): int {
    Bit(l.Queueing?)
  }

  function Drainer(l: Local): int {
    Bit(l.Draining?)
  }

  function Completer(l: Local): int {
    Bit(l.Draining? || l.Completing?)
  }

  /** How often a thread holds an operation. */
  function Holds(op: Operation): Local -> int {
    (l: Local) => match l
      case Completing(ops) => Times(op, ops)
      case Checking(o) => Bit(o == op)
      case Queueing(o) => Bit(o == op)
      case _ => 0
  }

  /** A waiter, queued or about to be, sees a positive count or has an Acquire that will take the list. */
  ghost predicate WakeOk(s: State) {
    |s.shared.waiters| + Sum(Queuer, s.threads) > 0 && s.shared.count <= 0 ==> Sum(Drainer, s.threads) > 0
  }

  /** Every operation that started is in exactly one place. */
  ghost predicate PlaceOk(s: State, op: Operation) {
    Sum(Holds(op), s.threads) + Times(op, s.shared.waiters) + Times(op, s.shared.completed)
      == Bit(op < s.shared.started)
  }

  /** If nothing raises the count, a completion means that it has been used up. */
  ghost predicate DrainedOk(c: Config, s: State) {
    !c.raises && |s.shared.completed| + Sum(Completer, s.threads) > 0 ==> s.shared.count <= 0
  }

  ghost predicate Inv(c: Config, s: State) {
    && Sum(Locker, s.threads) == Bit(s.shared.locked)
    && DrainedOk(c, s) && forall op :: PlaceOk(s, op)
  }

  /** Somebody waits, or is about to. */
  ghost predicate Waited(s: State) {
    s.shared.waiters != [] || exists t :: 0 <= t < |s.threads| && s.threads[t].Queueing?
  }

  ghost predicate Drains(s: State) {
    exists t :: 0 <= t < |s.threads| && s.threads[t].Draining?
  }

  /** A Release of n is harmless: it leaves the count positive, or nobody waits, or some Acquire is
      about to take the list. Only a negative n can be harmful. */
  ghost predicate Harmless(s: State, n: int) {
    s.shared.count + n > 0 || !Waited(s) || Drains(s)
  }

  ghost predicate SafeStep(c: Config, s: State, s': State) {
    forall t: nat, n :: StepOf(c, s, t, Release(n), s') ==> Harmless(s, n)
  }

  ghost predicate SafeSteps(c: Config, run: seq<State>) {
    forall k, l :: 0 <= k && l == k + 1 < |run| ==> SafeStep(c, run[k], run[l])
  }

  lemma WeightsPositive(threads: seq<Local>)
    ensures Positive(Queuer, threads) && Positive(Drainer, threads) && Positive(Completer, threads)
    ensures Positive(Locker, threads)
  {
  }

  // ---- one step seen from the thread that takes it ----

  lemma CompletingMove(c: Config, g: Shared, l: Local, g': Shared, l': Local, op: Operation)
    requires Move(c, g, l, CompleteOne, g', l')
    ensures Holds(op)(l') + Times(op, g'.completed) == Holds(op)(l) + Times(op, g.completed)
    ensures g'.waiters == g.waiters && g'.started == g.started
  {
    if l.ops != [] {
      TimesAppend(op, g.completed, l.ops[0]);
    }
  }

  lemma WaitingMove(c: Config, g: Shared, l: Local, a: Action, g': Shared, l': Local, op: Operation)
    requires Move(c, g, l, a, g', l') && (a.LoadCount? || a.Queue? || a.StartWait?)
    ensures Holds(op)(l') + Times(op, g'.waiters) + Times(op, g'.completed) - Bit(op < g'.started)
         == Holds(op)(l) + Times(op, g.waiters) + Times(op, g.completed) - Bit(op < g.started)
  {
    if l.Checking? || l.Queueing? {
      TimesAppend(op, g.completed, l.op);
      TimesAppend(op, g.waiters, l.op);
    }
  }

  lemma PlaceMove(c: Config, g: Shared, l: Local, a: Action, g': Shared, l': Local, op: Operation)
    requires Move(c, g, l, a, g', l')
    ensures Holds(op)(l') + Times(op, g'.waiters) + Times(op, g'.completed) - Bit(op < g'.started)
         == Holds(op)(l) + Times(op, g.waiters) + Times(op, g.completed) - Bit(op < g.started)
  {
    if a.CompleteOne? {
      CompletingMove(c, g, l, g', l', op);
    } else if a.LoadCount? || a.Queue? || a.StartWait? {
      WaitingMove(c, g, l, a, g', l', op);
    }
  }

  lemma CountsSay(s: State)
    ensures Waited(s) <==> |s.shared.waiters| + Sum(Queuer, s.threads) > 0
    ensures Drains(s) <==> Sum(Drainer, s.threads) > 0
  {
    WeightsPositive(s.threads);
    SumNonNegative(Queuer, s.threads);
    SumNonNegative(Drainer, s.threads);
    if Sum(Queuer, s.threads) != 0 {
      var t := SumWitness(Queuer, s.threads);
    }
    if Sum(Drainer, s.threads) != 0 {
      var t := SumWitness(Drainer, s.threads);
    }
    forall t | 0 <= t < |s.threads| ensures Sum(Queuer, s.threads) >= Queuer(s.threads[t]) {
      SumAtLeast(Queuer, s.threads, t);
    }
    forall t | 0 <= t < |s.threads| ensures Sum(Drainer, s.threads) >= Drainer(s.threads[t]) {
      SumAtLeast(Drainer, s.threads, t);
    }
  }

  lemma WakeKept(c: Config, s: State, t: nat, a: Action, s': State)
    requires Inv(c, s) && WakeOk(s) && StepOf(c, s, t, a, s') && (a.Release? ==> Harmless(s, a.n))
    ensures WakeOk(s')
  {
    var l, l' := s.threads[t], s'.threads[t];
    CountsSay(s);
    WeightsPositive(s.threads);
    WeightsPositive(s'.threads);
    SumUpdate(Queuer, s.threads, t, l');
    SumUpdate(Drainer, s.threads, t, l');
    SumAtLeast(Queuer, s.threads, t);
    SumAtLeast(Drainer, s'.threads, t);
    SumMonotone(Queuer, Locker, s.threads);
  }

  /** A Release keeps the waiters safe exactly if it is harmless, whatever the state. */
  lemma ReleaseIsSafe(c: Config, s: State, t: nat, n: int, s': State)
    requires StepOf(c, s, t, Release(n), s')
    ensures WakeOk(s') <==> Harmless(s, n)
  {
    CountsSay(s);
    assert s'.threads == s.threads;
  }

  lemma DrainedKept(c: Config, s: State, t: nat, a: Action, s': State)
    requires Inv(c, s) && StepOf(c, s, t, a, s')
    ensures DrainedOk(c, s')
  {
    WeightsPositive(s.threads);
    SumUpdate(Completer, s.threads, t, s'.threads[t]);
    SumAtLeast(Completer, s.threads, t);
    SumNonNegative(Completer, s.threads);
  }

  lemma InvKept(c: Config, s: State, t: nat, a: Action, s': State)
    requires Inv(c, s) && StepOf(c, s, t, a, s')
    ensures Inv(c, s')
  {
    DrainedKept(c, s, t, a, s');
    SumUpdate(Locker, s.threads, t, s'.threads[t]);
    WeightsPositive(s.threads);
    SumAtLeast(Locker, s.threads, t);
    forall op ensures PlaceOk(s', op) {
      assert PlaceOk(s, op);
      SumUpdate(Holds(op), s.threads, t, s'.threads[t]);
      PlaceMove(c, s.shared, s.threads[t], a, s'.shared, s'.threads[t], op);
    }
  }

  lemma InitHolds(c: Config, s: State)
    requires Init(c, s)
    ensures Inv(c, s)
  {
    SumZero(Locker, s.threads);
    SumZero(Queuer, s.threads);
    SumZero(Completer, s.threads);
    forall op ensures PlaceOk(s, op) {
      SumZero(Holds(op), s.threads);
    }
  }

  lemma EveryStateOk(c: Config, run: seq<State>, i: nat)
    requires IsRun(c, run) && i < |run|
    ensures Inv(c, run[i])
  {
    forall s | Init(c, s) ensures Inv(c, s) {
      InitHolds(c, s);
    }
    forall s, s' | Inv(c, s) && Step(c, s, s') ensures Inv(c, s') {
      var t: nat, a :| StepOf(c, s, t, a, s');
      InvKept(c, s, t, a, s');
    }
    Runs.Invariant(Protocol(c), s => Inv(c, s), run, i);
  }

  // ---- what every run guarantees ----

  lemma HoldsSome(op: Operation, l: Local)
    ensures Holds(op)(l) >= 0
  {
    if l.Completing? {
      TimesAtLeast(op, l.ops);
    }
  }

  lemma {:induction false} WakeEverywhere(c: Config, run: seq<State>, i: nat)
    requires IsRun(c, run) && i < |run| && SafeSteps(c, run[..i + 1])
    ensures WakeOk(run[i])
    decreases i
  {
    if i == 0 {
      SumZero(Queuer, run[0].threads);
    } else {
      var before, now := run[i - 1], run[i];
      assert SafeSteps(c, run[..i]) by {
        assert forall k :: 0 <= k < i ==> run[..i][k] == run[..i + 1][k];
      }
      WakeEverywhere(c, run, i - 1);
      EveryStateOk(c, run, i - 1);
      assert Protocol(c).next(before, now);
      var t: nat, a :| StepOf(c, before, t, a, now);
      assert SafeStep(c, run[..i + 1][i - 1], run[..i + 1][i]);
      WakeKept(c, before, t, a, now);
    }
  }

  /** No waiter is lost: if one is queued then the count is positive, or some Acquire is between its
      subtraction and taking the list, as long as every Release was harmless. */
  lemma NoWaiterIsLost(c: Config, run: seq<State>, i: nat)
    requires IsRun(c, run) && i < |run| && SafeSteps(c, run[..i + 1])
    ensures run[i].shared.waiters != [] ==> run[i].shared.count > 0 || Drains(run[i])
    ensures Waited(run[i]) ==> run[i].shared.count > 0 || Drains(run[i])
  {
    WakeEverywhere(c, run, i);
    CountsSay(run[i]);
  }

  /** The condition is exact: a run in which no waiter is ever lost is one in which every Release was
      harmless. */
  lemma LosingIsExact(c: Config, run: seq<State>)
    requires IsRun(c, run)
    ensures (forall i :: 0 <= i < |run| && Waited(run[i]) ==> run[i].shared.count > 0 || Drains(run[i]))
            <==> SafeSteps(c, run)
  {
    forall i | 0 <= i < |run|
      ensures WakeOk(run[i]) <==> (Waited(run[i]) ==> run[i].shared.count > 0 || Drains(run[i]))
    {
      CountsSay(run[i]);
    }
    if SafeSteps(c, run) {
      forall i | 0 <= i < |run| ensures WakeOk(run[i]) {
        assert SafeSteps(c, run[..i + 1]);
        WakeEverywhere(c, run, i);
      }
    } else {
      var k, l :| 0 <= k && l == k + 1 < |run| && !SafeStep(c, run[k], run[l]);
      var t: nat, n :| StepOf(c, run[k], t, Release(n), run[l]) && !Harmless(run[k], n);
      ReleaseIsSafe(c, run[k], t, n, run[l]);
    }
  }

  /** An operation completes at most once, and only after it started. */
  lemma CompletesAtMostOnce(c: Config, run: seq<State>, i: nat, op: Operation)
    requires IsRun(c, run) && i < |run|
    ensures Times(op, run[i].shared.completed) <= 1
    ensures op in run[i].shared.completed ==> op < run[i].shared.started && op !in run[i].shared.waiters
  {
    EveryStateOk(c, run, i);
    assert PlaceOk(run[i], op);
    forall t | 0 <= t < |run[i].threads| ensures Holds(op)(run[i].threads[t]) >= 0 {
      HoldsSome(op, run[i].threads[t]);
    }
    SumNonNegative(Holds(op), run[i].threads);
    TimesAtLeast(op, run[i].shared.completed);
    TimesAtLeast(op, run[i].shared.waiters);
  }

  /** Once nobody is part-way through anything and the semaphore is drained, every wait that started
      has completed, exactly once. */
  lemma DrainedMeansAllCompleted(c: Config, run: seq<State>, i: nat, op: Operation)
    requires IsRun(c, run) && i < |run| && run[i].shared.count <= 0 && SafeSteps(c, run[..i + 1])
    requires forall t :: 0 <= t < |run[i].threads| ==> run[i].threads[t] == Idle
    ensures run[i].shared.waiters == []
    ensures Times(op, run[i].shared.completed) == Bit(op < run[i].shared.started)
  {
    EveryStateOk(c, run, i);
    WakeEverywhere(c, run, i);
    SumZero(Drainer, run[i].threads);
    SumZero(Queuer, run[i].threads);
    SumZero(Holds(op), run[i].threads);
    assert PlaceOk(run[i], op);
  }

  /** If the count is never raised, a wait completes only after it reached zero or less, for good. */
  lemma DrainedForGood(c: Config, run: seq<State>, i: nat)
    requires IsRun(c, run) && i < |run| && !c.raises && run[i].shared.completed != []
    ensures run[i].shared.count <= 0
  {
    EveryStateOk(c, run, i);
    WeightsPositive(run[i].threads);
    SumNonNegative(Completer, run[i].threads);
  }

  // ---- when a wait can complete early ----

  /** Nobody is about to take the list, and the operation is neither completed nor on a list taken. */
  ghost predicate Untouched(s: State, op: Operation) {
    && !Drains(s) && op !in s.shared.completed
    && forall t :: 0 <= t < |s.threads| && s.threads[t].Completing? ==> op !in s.threads[t].ops
  }

  lemma NewIsUntouched(c: Config, s: State)
    requires Inv(c, s) && !Drains(s)
    ensures Untouched(s, s.shared.started)
  {
    var op := s.shared.started;
    assert PlaceOk(s, op);
    forall t | 0 <= t < |s.threads| ensures Holds(op)(s.threads[t]) >= 0 {
      HoldsSome(op, s.threads[t]);
    }
    SumNonNegative(Holds(op), s.threads);
    TimesAtLeast(op, s.shared.completed);
    TimesAtLeast(op, s.shared.waiters);
    forall t | 0 <= t < |s.threads| && s.threads[t].Completing? ensures op !in s.threads[t].ops {
      SumAtLeast(Holds(op), s.threads, t);
      TimesAtLeast(op, s.threads[t].ops);
    }
  }

  lemma {:induction false} OpenMeansUntouched(c: Config, run: seq<State>, i: nat, j: nat)
    requires IsRun(c, run) && i <= j < |run| && !Drains(run[i])
    requires run[i].shared.count > 0 && forall k :: i < k <= j ==> run[k].shared.count > 0
    ensures Untouched(run[j], run[i].shared.started)
    decreases j
  {
    var op := run[i].shared.started;
    if i == j {
      EveryStateOk(c, run, i);
      NewIsUntouched(c, run[i]);
    } else {
      OpenMeansUntouched(c, run, i, j - 1);
      var s, s' := run[j - 1], run[j];
      assert Protocol(c).next(s, s');
      var t: nat, a :| StepOf(c, s, t, a, s');
      assert forall u :: 0 <= u < |s.threads| && u != t ==> s'.threads[u] == s.threads[u];
    }
  }

  /** A wait that starts while no Acquire is about to take the list completes only after a moment,
      since its start, at which the count was zero or less. */
  lemma NotBeforeDrained(c: Config, run: seq<State>, i: nat, j: nat)
    requires IsRun(c, run) && i < j < |run| && !Drains(run[i])
    requires run[i + 1].shared.started == run[i].shared.started + 1
    requires run[i].shared.started in run[j].shared.completed
    ensures exists k :: i < k <= j && run[k].shared.count <= 0
  {
    assert Protocol(c).next(run[i], run[i + 1]);
    if forall k :: i < k <= j ==> run[k].shared.count > 0 {
      assert run[i + 1].shared.count == run[i].shared.count;
      OpenMeansUntouched(c, run, i, j);
    }
  }

  function After(s: State, t: nat, g: Shared, l: Local): State
    requires t < |s.threads|
  {
    State(g, s.threads[t := l])
  }

  lemma OneMore(c: Config, run: seq<State>, t: nat, a: Action, g: Shared, l: Local)
    requires IsRun(c, run) && t < |Runs.Last(run).threads|
    requires Move(c, Runs.Last(run).shared, Runs.Last(run).threads[t], a, g, l)
    ensures IsRun(c, run + [After(Runs.Last(run), t, g, l)])
  {
    var s' := After(Runs.Last(run), t, g, l);
    assert StepOf(c, Runs.Last(run), t, a, s');
    Runs.OneMore(Protocol(c), run, s');
  }

  /** A thread that has taken a list completes what is on it, whatever the count is. */
  lemma {:induction false} CompletesAll(c: Config, run: seq<State>, t: nat, op: Operation) returns (more: seq<State>)
    requires IsRun(c, run) && t < |Runs.Last(run).threads| && Runs.Last(run).threads[t].Completing?
    requires op in Runs.Last(run).threads[t].ops
    ensures more != [] && IsRun(c, run + more) && op in Runs.Last(more).shared.completed
    ensures forall k :: 0 <= k < |more| ==> more[k].shared.count == Runs.Last(run).shared.count
    decreases |Runs.Last(run).threads[t].ops|
  {
    var s := Runs.Last(run);
    var ops := s.threads[t].ops;
    var g := s.shared.(completed := s.shared.completed + [ops[0]]);
    var next := After(s, t, g, Completing(ops[1..]));
    OneMore(c, run, t, CompleteOne, g, Completing(ops[1..]));
    if ops[0] == op {
      more := [next];
    } else {
      var rest := CompletesAll(c, run + [next], t, op);
      more := [next] + rest;
      assert run + more == run + [next] + rest;
    }
  }

  /** A continuation in which the next wait starts at once and completes although the count stays
      positive. */
  ghost predicate Early(c: Config, run: seq<State>, more: seq<State>)
    requires run != []
  {
    && more != [] && IsRun(c, run + more) && more[0].shared.started == Runs.Last(run).shared.started + 1
    && (forall k :: 0 <= k < |more| ==> more[k].shared.count > 0)
    && Runs.Last(run).shared.started in Runs.Last(more).shared.completed
  }

  lemma Queues(c: Config, run: seq<State>, u: nat) returns (more: seq<State>)
    requires IsRun(c, run) && u < |Runs.Last(run).threads| && Runs.Last(run).threads[u].Idle?
    requires Runs.Last(run).shared.count > 0 && !Runs.Last(run).shared.locked
    ensures |more| == 3 && IsRun(c, run + more) && more[0].shared.started == Runs.Last(run).shared.started + 1
    ensures forall k :: 0 <= k < 3 ==> more[k].shared.count == Runs.Last(run).shared.count
    ensures var s := Runs.Last(run);
            more[2] == State(s.shared.(started := s.shared.started + 1,
                                       waiters := s.shared.waiters + [s.shared.started]), s.threads)
  {
    var s, op := Runs.Last(run), Runs.Last(run).shared.started;
    var g1 := s.shared.(locked := true, started := op + 1);
    var s1 := After(s, u, g1, Checking(op));
    OneMore(c, run, u, StartWait, g1, Checking(op));
    var s2 := After(s1, u, g1, Queueing(op));
    OneMore(c, run + [s1], u, LoadCount, g1, Queueing(op));
    var g3 := g1.(locked := false, waiters := s.shared.waiters + [op]);
    var s3 := After(s2, u, g3, Idle);
    OneMore(c, run + [s1] + [s2], u, Queue, g3, Idle);
    more := [s1, s2, s3];
    assert run + more == run + [s1] + [s2] + [s3];
    assert s3.threads == s.threads;
  }

  lemma DrainerTakesTheNew(c: Config, run: seq<State>, t: nat, u: nat) returns (more: seq<State>)
    requires IsRun(c, run) && t < |Runs.Last(run).threads| && Runs.Last(run).threads[t].Draining?
    requires u < |Runs.Last(run).threads| && Runs.Last(run).threads[u].Idle?
    requires Runs.Last(run).shared.count > 0 && !Runs.Last(run).shared.locked
    ensures Early(c, run, more)
  {
    var queued := Queues(c, run, u);
    var s := Runs.Last(queued);
    var taken := After(s, t, s.shared.(waiters := []), Completing(s.shared.waiters));
    assert Runs.Last(run + queued) == s;
    OneMore(c, run + queued, t, TakeList, s.shared.(waiters := []), Completing(s.shared.waiters));
    var rest := CompletesAll(c, run + queued + [taken], t, Runs.Last(run).shared.started);
    more := queued + [taken] + rest;
    assert run + more == run + queued + [taken] + rest;
  }

  /** In every reachable state with a positive count, a free lock and a thread to wait: the new wait can
      complete although the count stays positive exactly if some Acquire is about to take the list. */
  lemma EarlyCompletionIsExact(c: Config, run: seq<State>, u: nat)
    requires IsRun(c, run) && u < |Runs.Last(run).threads| && Runs.Last(run).threads[u].Idle?
    requires Runs.Last(run).shared.count > 0 && !Runs.Last(run).shared.locked
    ensures Drains(Runs.Last(run)) <==> exists more :: Early(c, run, more)
  {
    if Drains(Runs.Last(run)) {
      var t :| 0 <= t < |Runs.Last(run).threads| && Runs.Last(run).threads[t].Draining?;
      var more := DrainerTakesTheNew(c, run, t, u);
    } else if more :| Early(c, run, more) {
      var all := run + more;
      assert all[|run|] == more[0] && all[|run| - 1] == Runs.Last(run);
      NotBeforeDrained(c, all, |run| - 1, |all| - 1);
    }
  }

  // ---- runs at the limits of these guarantees ----

  /** A sequence of states with the thread and the action of each step. */
  ghost predicate Schedule(c: Config, run: seq<State>, steps: seq<(nat, Action)>) {
    && |run| == |steps| + 1 && Init(c, run[0])
    && forall i, j :: 0 <= i && j == i + 1 < |run| ==> StepOf(c, run[i], steps[i].0, steps[i].1, run[j])
  }

  lemma ScheduleIsRun(c: Config, run: seq<State>, steps: seq<(nat, Action)>)
    requires Schedule(c, run, steps)
    ensures IsRun(c, run)
  {
  }

  /** An Acquire drains the semaphore, another thread raises it again and starts to wait, and only
      then does the first thread take the list. */
  function EarlyState(i: nat): State {
    match i
    case 0 => State(Shared(1, [], false, 0, []), [Idle, Idle])
    case 1 => State(Shared(0, [], false, 0, []), [Draining, Idle])
    case 2 => State(Shared(1, [], false, 0, []), [Draining, Idle])
    case 3 => State(Shared(1, [], true, 1, []), [Draining, Checking(0)])
    case 4 => State(Shared(1, [], true, 1, []), [Draining, Queueing(0)])
    case 5 => State(Shared(1, [0], false, 1, []), [Draining, Idle])
    case 6 => State(Shared(1, [], false, 1, []), [Completing([0]), Idle])
    case _ => State(Shared(1, [], false, 1, [0]), [Completing([]), Idle])
  }

  function EarlyStep(i: nat): (nat, Action) {
    match i
    case 0 => (0, Acquire(1))
    case 1 => (1, Release(1))
    case 2 => (1, StartWait)
    case 3 => (1, LoadCount)
    case 4 => (1, Queue)
    case 5 => (0, TakeList)
    case _ => (0, CompleteOne)
  }

  lemma EarlyStepIsAStep(i: nat)
    requires i < 7
    ensures StepOf(Config(1, true), EarlyState(i), EarlyStep(i).0, EarlyStep(i).1, EarlyState(i + 1))
  {
  }

  /** With Release, a wait can complete although the count was positive during its whole life: the
      list it joined is taken by an Acquire that had drained the semaphore before. */
  lemma ReleaseAllowsEarlyCompletion() returns (c: Config, run: seq<State>)
    ensures IsRun(c, run) && |run| == 8
    ensures run[7].shared.completed == [0] && run[2].shared.started == 0
    ensures forall i :: 2 <= i < 8 ==> run[i].shared.count > 0
  {
    c := Config(1, true);
    run := seq(8, (i: nat) => EarlyState(i));
    forall i: nat, j: nat | j == i + 1 < 8
      ensures StepOf(c, run[i], EarlyStep(i).0, EarlyStep(i).1, run[j])
    {
      EarlyStepIsAStep(i);
    }
    ScheduleIsRun(c, run, seq(7, (i: nat) => EarlyStep(i)));
  }

  /** One thread waits while the count is one, and then the count is lowered by a Release. */
  function StrandedState(i: nat): State {
    match i
    case 0 => State(Shared(1, [], false, 0, []), [Idle])
    case 1 => State(Shared(1, [], true, 1, []), [Checking(0)])
    case 2 => State(Shared(1, [], true, 1, []), [Queueing(0)])
    case 3 => State(Shared(1, [0], false, 1, []), [Idle])
    case _ => State(Shared(0, [0], false, 1, []), [Idle])
  }

  function StrandedStep(i: nat): (nat, Action) {
    match i
    case 0 => (0, StartWait)
    case 1 => (0, LoadCount)
    case 2 => (0, Queue)
    case _ => (0, Release(-1))
  }

  lemma StrandedStepIsAStep(i: nat)
    requires i < 4
    ensures StepOf(Config(1, true), StrandedState(i), StrandedStep(i).0, StrandedStep(i).1, StrandedState(i + 1))
  {
  }

  /** A negative Release strands a waiter: the count is zero, the waiter is queued and did not complete,
      and no thread is part-way through anything. */
  lemma NegativeReleaseStrands() returns (c: Config, run: seq<State>)
    ensures IsRun(c, run) && |run| == 5 && StepOf(c, run[3], 0, Release(-1), run[4])
    ensures run[4].shared.count == 0 && run[4].shared.waiters == [0] && run[4].shared.completed == []
    ensures run[4].threads == [Idle]
  {
    c := Config(1, true);
    run := seq(5, (i: nat) => StrandedState(i));
    forall i: nat, j: nat | j == i + 1 < 5
      ensures StepOf(c, run[i], StrandedStep(i).0, StrandedStep(i).1, run[j])
    {
      StrandedStepIsAStep(i);
    }
    ScheduleIsRun(c, run, seq(4, (i: nat) => StrandedStep(i)));
  }
}
