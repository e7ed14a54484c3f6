/** What every run of the activation protocol guarantees. */
module ActorSafety {
  import opened ActorInvariant
  import opened ActorProtocol
  import opened Counting
  import opened Numbers
  import Runs

  lemma StepKeepsInv(c: Config, s: State, s': State)
    requires Inv(c, s) && Step(c, s, s')
    ensures Inv(c, s')
  {
    var t: nat, a :| StepOf(c, s, t, a, s');
    InvKept(c, s, t, a, s');
  }

  lemma InvIsInductive(c: Config)
    ensures Runs.Inductive(Protocol(c), (s: State) => Inv(c, s))
  {
    forall s | Init(c, s) ensures Inv(c, s) {
      InitHolds(c, s);
    }
    forall s, s' | Inv(c, s) && Step(c, s, s') ensures Inv(c, s') {
      StepKeepsInv(c, s, s');
    }
  }

  lemma EveryStateOk(c: Config, run: seq<State>, i: nat)
    requires IsRun(c, run) && i < |run|
    ensures Inv(c, run[i])
  {
    InvIsInductive(c);
    Runs.Invariant(Protocol(c), s => Inv(c, s), run, i);
  }

  /** Messages waiting in the mailboxes, and the destroy request if there is one. */
  function Pending(s: State): int {
    Sum(UnpoppedOf, s.shared.boxes) + Bit(s.shared.destroyRequested)
  }

  /** A thread that has not finished a push, a destroy request or the second look of a run. */
  ghost predicate SomeoneWillLook(s: State) {
    exists t :: 0 <= t < |s.threads| && Waker(s.threads[t]) == 1
  }

  /** An activation is scheduled, or some thread runs one or is about to schedule it. */
  ghost predicate ActivationUnderWay(s: State) {
    s.shared.scheduled == 1 || exists t :: 0 <= t < |s.threads| && Token(s.threads[t]) == 1
  }

  lemma NothingInFlight(c: Config, s: State)
    requires Inv(c, s) && s.shared.alive && !ActivationUnderWay(s) && !SomeoneWillLook(s)
    ensures !s.shared.activated && Sum(Waker, s.threads) == 0 && s.shared.count == Pending(s)
  {
    WeightsPositive(s.threads);
    SumNonNegative(Token, s.threads);
    SumZero(Token, s.threads);
    SumZero(Waker, s.threads);
    SumZero(Debt, s.threads);
    SumZero(MarkedOne, s.threads);
    SumNonNegative(Repayer, s.threads);
  }

  /** No lost wake-up and no lost destroy: as long as the instance lives, pending work has an
      activation under way or a thread that is still going to look. The counter wraps at 2^64,
      so exactly 2^64 pending items would read as none. */
  lemma NoLostWakeUp(c: Config, run: seq<State>, i: nat)
    requires IsRun(c, run) && i < |run|
    requires run[i].shared.alive && Pending(run[i]) % SIZE_T_RANGE != 0
    ensures ActivationUnderWay(run[i]) || SomeoneWillLook(run[i])
  {
    EveryStateOk(c, run, i);
    if !ActivationUnderWay(run[i]) && !SomeoneWillLook(run[i]) {
      NothingInFlight(c, run[i]);
    }
  }

  /** The same, told from a quiet moment: nobody is part-way through anything and the activation
      flag is down. Then the mailboxes are empty and nobody asked for destruction. */
  lemma QuietMeansDone(c: Config, run: seq<State>, i: nat)
    requires IsRun(c, run) && i < |run|
    requires run[i].shared.alive && !run[i].shared.activated
    requires forall t :: 0 <= t < |run[i].threads| ==> run[i].threads[t].Idle?
    requires Pending(run[i]) < SIZE_T_RANGE
    ensures !run[i].shared.destroyRequested
    ensures forall b :: 0 <= b < |run[i].shared.boxes| ==>
              run[i].shared.boxes[b].popped == |run[i].shared.boxes[b].claimed|
  {
    var s := run[i];
    EveryStateOk(c, run, i);
    SumZero(Token, s.threads);
    forall b | 0 <= b < |s.shared.boxes| ensures BoxOk(c.capacities[b], s.shared.boxes[b]) {
    }
    assert Positive(UnpoppedOf, s.shared.boxes);
    SumNonNegative(UnpoppedOf, s.shared.boxes);
    if Pending(s) != 0 {
      NoLostWakeUp(c, run, i);
    }
    forall b | 0 <= b < |s.shared.boxes| ensures s.shared.boxes[b].popped == |s.shared.boxes[b].claimed| {
      SumAtLeast(UnpoppedOf, s.shared.boxes, b);
    }
  }

  /** An activation flag that is up while the instance lives is held by exactly one activation. */
  lemma FlagMeansActivation(c: Config, run: seq<State>, i: nat)
    requires IsRun(c, run) && i < |run| && run[i].shared.alive
    ensures run[i].shared.activated <==> ActivationUnderWay(run[i])
    ensures Sum(Token, run[i].threads) + run[i].shared.scheduled == Bit(run[i].shared.activated)
  {
    var s := run[i];
    EveryStateOk(c, run, i);
    WeightsPositive(s.threads);
    SumNonNegative(Token, s.threads);
    if ActivationUnderWay(s) && s.shared.scheduled == 0 {
      var t :| 0 <= t < |s.threads| && Token(s.threads[t]) == 1;
      SumAtLeast(Token, s.threads, t);
    }
    if s.shared.activated && s.shared.scheduled == 0 {
      var t := SumWitness(Token, s.threads);
    }
  }

  /** Serial execution: never two threads between TryPop and the store that lowers the flag. */
  lemma OneAtATime(c: Config, run: seq<State>, i: nat, t: nat, u: nat)
    requires IsRun(c, run) && i < |run| && t < |run[i].threads| && u < |run[i].threads|
    requires Token(run[i].threads[t]) == 1 && Token(run[i].threads[u]) == 1
    ensures t == u && run[i].shared.activated && run[i].shared.scheduled == 0
  {
    EveryStateOk(c, run, i);
    OneHolder(run[i], t);
  }

  /** A message executes only on a live instance, and the instance is reset at most once. */
  lemma ExecutesAlive(c: Config, run: seq<State>, i: nat, t: nat)
    requires IsRun(c, run) && i < |run| && t < |run[i].threads|
    ensures run[i].threads[t].Executing? || run[i].threads[t].Popped? ==> run[i].shared.alive
    ensures run[i].shared.past.resets == Bit(!run[i].shared.alive) <= 1
    ensures !run[i].shared.alive ==> run[i].shared.destroyRequested
  {
    EveryStateOk(c, run, i);
    assert LocalOk(c, run[i].shared, run[i].threads[t]);
  }

  lemma DeadMove(c: Config, g: Shared, l: Local, a: Action, g': Shared, l': Local)
    requires Move(c, g, l, a, g', l') && LocalOk(c, g, l) && !g.alive
    ensures !g'.alive && g'.past.executed == g.past.executed
  {
  }

  lemma DeadStays(c: Config, s: State, s': State)
    requires LocalsOk(c, s) && Step(c, s, s') && !s.shared.alive
    ensures !s'.shared.alive && s'.shared.past.executed == s.shared.past.executed
  {
    var t: nat, a :| StepOf(c, s, t, a, s');
    DeadMove(c, s.shared, s.threads[t], a, s'.shared, s'.threads[t]);
  }

  ghost predicate Silent(s: State, s': State) {
    !s.shared.alive ==> !s'.shared.alive && s'.shared.past.executed == s.shared.past.executed
  }

  /** Nothing executes after the reset. */
  lemma SilentAfterReset(c: Config, run: seq<State>, i: nat, j: nat)
    requires IsRun(c, run) && i <= j < |run| && !run[i].shared.alive
    ensures !run[j].shared.alive && run[j].shared.past.executed == run[i].shared.past.executed
  {
    InvIsInductive(c);
    forall s, s' | Inv(c, s) && Step(c, s, s') ensures Silent(s, s') {
      if !s.shared.alive {
        DeadStays(c, s, s');
      }
    }
    Runs.Monotone(Protocol(c), s => Inv(c, s), Silent, run, i, j);
  }

  /** A thread holds a message it took from mailbox b and has not begun to execute. */
  ghost predicate InHand(s: State, b: nat) {
    exists t :: 0 <= t < |s.threads| && s.threads[t].Popped? && s.threads[t].box == b
  }

  /** End-to-end order: what ran from a mailbox is a prefix of the order in which its places were
      claimed, and only the one message in a thread's hands separates it from what was popped. */
  lemma ClaimOrder(c: Config, run: seq<State>, i: nat, b: nat)
    requires IsRun(c, run) && i < |run| && b < |run[i].shared.boxes|
    ensures From(run[i].shared.past.executed, b) <= run[i].shared.boxes[b].claimed
    ensures 0 <= run[i].shared.boxes[b].popped - |From(run[i].shared.past.executed, b)| <= 1
    ensures run[i].shared.boxes[b].popped != |From(run[i].shared.past.executed, b)| <==> InHand(run[i], b)
  {
    var s := run[i];
    EveryStateOk(c, run, i);
    assert BoxOrderOk(s, b);
    WeightsPositive(s.threads);
    SumNonNegative(HeldFrom(b), s.threads);
    SumMonotone(HeldFrom(b), Token, s.threads);
    if Sum(HeldFrom(b), s.threads) == 1 {
      var t := SumWitness(HeldFrom(b), s.threads);
    }
    if InHand(s, b) {
      var t :| 0 <= t < |s.threads| && s.threads[t].Popped? && s.threads[t].box == b;
      SumAtLeast(HeldFrom(b), s.threads, t);
    }
  }

  lemma ClaimsMove(c: Config, g: Shared, l: Local, a: Action, g': Shared, l': Local, b: nat)
    requires Move(c, g, l, a, g', l') && b < |g.boxes|
    ensures |g'.boxes| == |g.boxes| && g.boxes[b].claimed <= g'.boxes[b].claimed
  {
  }

  lemma LogGrows(c: Config, g: Shared, l: Local, a: Action, g': Shared, l': Local)
    requires Move(c, g, l, a, g', l')
    ensures g.past.executed <= g'.past.executed
  {
  }

  /** Mailboxes keep their claims and the log keeps its executions. */
  ghost predicate Grows(s: State, s': State) {
    && |s'.shared.boxes| == |s.shared.boxes|
    && (forall b :: 0 <= b < |s.shared.boxes| ==> s.shared.boxes[b].claimed <= s'.shared.boxes[b].claimed)
    && s.shared.past.executed <= s'.shared.past.executed
  }

  lemma StepGrows(c: Config, s: State, s': State)
    requires Step(c, s, s')
    ensures Grows(s, s')
  {
    var t: nat, a :| StepOf(c, s, t, a, s');
    assert |s'.shared.boxes| == |s.shared.boxes|;
    forall b | 0 <= b < |s.shared.boxes| ensures s.shared.boxes[b].claimed <= s'.shared.boxes[b].claimed {
      ClaimsMove(c, s.shared, s.threads[t], a, s'.shared, s'.threads[t], b);
    }
    LogGrows(c, s.shared, s.threads[t], a, s'.shared, s'.threads[t]);
  }

  /** Claims and executions are never taken back: both histories only grow along a run. */
  lemma HistoriesGrow(c: Config, run: seq<State>, i: nat, j: nat)
    requires IsRun(c, run) && i <= j < |run|
    ensures Grows(run[i], run[j])
  {
    InvIsInductive(c);
    forall s, s' | Inv(c, s) && Step(c, s, s') ensures Grows(s, s') {
      StepGrows(c, s, s');
    }
    Runs.Monotone(Protocol(c), s => Inv(c, s), Grows, run, i, j);
  }

  /** The log is a sequence of activations that do not interleave; each visits the mailboxes in
      index order and executes at most max(1, maxPerActivation) messages. */
  lemma ActivationsAreBounded(c: Config, run: seq<State>, i: nat, act: nat)
    requires IsRun(c, run) && i < |run|
    ensures Serial(run[i].shared.past.executed)
    ensures RunsOf(run[i].shared.past.executed, act) <= Max(1, c.maxPerActivation)
  {
    EveryStateOk(c, run, i);
  }
}
