/** What a dequeue gets: alone, everything it asks for and there is; among others it returns empty-handed
    only if everything below the tail it saw was spoken for, counting what was handed back meanwhile. */
module DequeueProgress {
  import opened Counting
  import opened DequeueTickets
  import opened Numbers
  import Runs

  // ---- a call that nobody disturbs ----

  ghost predicate AllIdle(s: State) {
    forall t :: 0 <= t < |s.threads| ==> s.threads[t] == Idle
  }

  ghost predicate StepsAlone(s: State, t: nat, s': State) {
    exists a :: ConsumerStep(s, t, a, s')
  }

  ghost predicate AloneAt(run: seq<State>, t: nat, k: nat) {
    k + 1 < |run| && StepsAlone(run[k], t, run[k + 1])
  }

  /** From a quiet state i to state j only thread t steps, in one call that asks for max elements. */
  ghost predicate OneCallAlone(run: seq<State>, t: nat, max: nat, i: nat, j: nat) {
    && i < j < |run| && AllIdle(run[i]) && ConsumerStep(run[i], t, LoadTail(max), run[i + 1])
    && (forall k :: i <= k < j ==> AloneAt(run, t, k))
    && (forall k :: i < k < j ==> t < |run[k].threads| && run[k].threads[t] != Idle)
  }

  /** Where the call stands, in terms of the quiet state g0 before it. */
  ghost predicate AloneOk(g0: Shared, g: Shared, max: nat, l: Local) {
    var left := g0.tailIndex - g0.headIndex;
    && g.tailIndex == g0.tailIndex && g.overcommit == g0.overcommit
    && (!l.Idle? ==> g.headIndex == g0.headIndex)
    && match l
       case Idle => g.headIndex == g0.headIndex + Min(max, left)
       case GotTail(m, tail) => m == max && tail == g0.tailIndex && g.optimistic == g0.optimistic
       case GotOvercommit(m, tail, overcommit) =>
         m == max && tail == g0.tailIndex && overcommit == g0.overcommit && g.optimistic == g0.optimistic
       case Committed(wanted, overcommit) =>
         left > 0 && wanted == Min(max, left) && overcommit == g0.overcommit && g.optimistic == g0.optimistic
       case Holding(wanted, overcommit, first) =>
         left > 0 && wanted == Min(max, left) && overcommit == g0.overcommit && first == g0.optimistic
       case Granted(granted) => granted == Min(max, left)
       case _ => false
  }

  lemma AloneMove(g0: Shared, g: Shared, max: nat, l: Local, a: Action, g': Shared, l': Local)
    requires AloneOk(g0, g, max, l) && l != Idle && Move(g, l, a, g', l')
    requires g0.optimistic - g0.overcommit == g0.headIndex <= g0.tailIndex
    ensures AloneOk(g0, g', max, l')
  {
  }

  lemma {:induction false} AloneSoFar(run: seq<State>, t: nat, max: nat, i: nat, j: nat)
    requires OneCallAlone(run, t, max, i, j)
    requires run[i].shared.optimistic - run[i].shared.overcommit == run[i].shared.headIndex <= run[i].shared.tailIndex
    ensures t < |run[j].threads| && AloneOk(run[i].shared, run[j].shared, max, run[j].threads[t])
    decreases j
  {
    if j > i + 1 {
      var k: nat := j - 1;
      assert AloneAt(run, t, k);
      AloneSoFar(run, t, max, i, k);
      var a :| ConsumerStep(run[k], t, a, run[j]);
      AloneMove(run[i].shared, run[k].shared, max, run[k].threads[t], a, run[j].shared, run[j].threads[t]);
    }
  }

  /** A dequeue that nobody disturbs gets as many elements as it asks for, or as there are: from every
      reachable quiet state, a call by itself moves the head by exactly min(max, tail - head). */
  lemma AloneTakesAll(run: seq<State>, t: nat, max: nat, i: nat, j: nat)
    requires IsRun(run) && OneCallAlone(run, t, max, i, j) && t < |run[j].threads| && run[j].threads[t] == Idle
    ensures run[j].shared.headIndex
         == run[i].shared.headIndex + Min(max, run[i].shared.tailIndex - run[i].shared.headIndex)
  {
    CountersAgreeWhenQuiet(run, i);
    HeadNeverPassesTail(run, i);
    AloneSoFar(run, t, max, i, j);
  }

  // ---- a call that returns nothing ----

  /** From step g, in which it loads the tail, to state i thread t is in one call. */
  ghost predicate OneCall(run: seq<State>, t: nat, max: nat, g: nat, i: nat) {
    && g < i < |run| && ConsumerStep(run[g], t, LoadTail(max), run[g + 1])
    && forall k :: g < k <= i ==> t < |run[k].threads| && run[k].threads[t] != Idle
  }

  /** One step seen from thread t: its own access, or none. */
  ghost predicate SeenBy(s: State, t: nat, s': State)
    requires t < |s.threads|
  {
    && |s'.threads| == |s.threads| && s.shared.tailIndex <= s'.shared.tailIndex
    && (s'.threads[t] == s.threads[t] || exists a :: Move(s.shared, s.threads[t], a, s'.shared, s'.threads[t]))
  }

  ghost predicate SeenAt(run: seq<State>, t: nat, k: nat) {
    k + 1 < |run| && t < |run[k].threads| ==> SeenBy(run[k], t, run[k + 1])
  }

  lemma StepSeen(run: seq<State>, t: nat, k: nat)
    requires IsRun(run)
    ensures SeenAt(run, t, k)
  {
    if k + 1 < |run| && t < |run[k].threads| {
      assert Protocol().next(run[k], run[k + 1]);
    }
  }

  ghost predicate OvercommitRead(run: seq<State>, g: nat, k: nat, overcommit: nat) {
    exists o :: g < o <= k < |run| && run[o].shared.overcommit == overcommit
  }

  /** After it read the overcommit at o, the optimistic count was first at m. */
  ghost predicate ReadBefore(run: seq<State>, g: nat, o: nat, m: nat, overcommit: nat, first: nat) {
    g < o <= m < |run| && run[o].shared.overcommit == overcommit && run[m].shared.optimistic == first
  }

  ghost predicate TicketsTaken(run: seq<State>, g: nat, k: nat, overcommit: nat, first: nat) {
    exists o: nat, m: nat :: m <= k && ReadBefore(run, g, o, m, overcommit, first)
  }

  /** The tickets given out, less those handed back when this call looked, cover all up to the tail. */
  ghost predicate Covered(run: seq<State>, g: nat, k: nat) {
    g < |run| && exists o: nat, m: nat :: m <= k && CoveredAt(run, g, o, m)
  }

  ghost predicate CoveredAt(run: seq<State>, g: nat, o: nat, m: nat) {
    && g < o <= m < |run|
    && run[m].shared.optimistic - run[o].shared.overcommit >= run[g].shared.tailIndex
  }

  ghost predicate CallOk(run: seq<State>, g: nat, k: nat, l: Local)
    requires g < k < |run|
  {
    && run[g].shared.tailIndex <= run[k].shared.tailIndex
    && match l
       case GotTail(max, tail) => max > 0 && tail == run[g].shared.tailIndex
       case GotOvercommit(max, tail, overcommit) =>
         max > 0 && tail == run[g].shared.tailIndex && OvercommitRead(run, g, k, overcommit)
       case Committed(wanted, overcommit) => wanted > 0 && OvercommitRead(run, g, k, overcommit)
       case Holding(wanted, overcommit, first) => wanted > 0 && TicketsTaken(run, g, k, overcommit, first)
       case Returning(excess, granted) => granted > 0
       case Granted(granted) => granted > 0
       case Failed(wanted) => Covered(run, g, k)
       case Idle => true
  }

  lemma LaterRead(run: seq<State>, g: nat, k: nat, l: Local)
    requires g < k < |run| - 1 && CallOk(run, g, k, l) && run[k].shared.tailIndex <= run[k + 1].shared.tailIndex
    ensures CallOk(run, g, k + 1, l)
  {
    match l
    case GotOvercommit(_, _, overcommit) =>
      var o :| g < o <= k && run[o].shared.overcommit == overcommit;
    case Committed(_, overcommit) =>
      var o :| g < o <= k && run[o].shared.overcommit == overcommit;
    case Holding(_, overcommit, first) =>
      var o: nat, m: nat :| m <= k && ReadBefore(run, g, o, m, overcommit, first);
    case Failed(_) =>
      var o: nat, m: nat :| m <= k && CoveredAt(run, g, o, m);
    case _ =>
  }

  lemma OwnAccess(run: seq<State>, g: nat, k: nat, l: Local, a: Action, l': Local)
    requires g < k < |run| - 1 && CallOk(run, g, k, l) && l != Idle
    requires run[k].shared.tailIndex <= run[k + 1].shared.tailIndex
    requires Move(run[k].shared, l, a, run[k + 1].shared, l')
    ensures CallOk(run, g, k + 1, l')
    ensures l'.Idle? && run[k + 1].shared.headIndex == run[k].shared.headIndex ==> Covered(run, g, k)
  {
    match a
    case LoadOvercommit =>
      assert run[k].shared.overcommit == l'.overcommit;
    case LoadOptimistic =>
      var o :| g < o <= k && run[o].shared.overcommit == l.overcommit;
      if l'.Idle? {
        assert CoveredAt(run, g, o, k);
      }
    case TakeTickets =>
      var o :| g < o <= k && run[o].shared.overcommit == l.overcommit;
      assert ReadBefore(run, g, o, k, l.overcommit, l'.first);
    case CheckTail =>
      var o: nat, m: nat :| m <= k && ReadBefore(run, g, o, m, l.overcommit, l.first);
      if l'.Failed? {
        assert CoveredAt(run, g, o, m);
      }
    case GiveBack =>
      if l.Failed? {
        var o: nat, m: nat :| m <= k && CoveredAt(run, g, o, m);
      }
    case _ =>
  }

  lemma {:induction false} CallSoFar(run: seq<State>, t: nat, max: nat, g: nat, i: nat)
    requires OneCall(run, t, max, g, i) && max > 0 && forall k :: SeenAt(run, t, k)
    ensures CallOk(run, g, i, run[i].threads[t])
    decreases i
  {
    assert SeenAt(run, t, g);
    if i > g + 1 {
      var k: nat := i - 1;
      assert SeenAt(run, t, k);
      CallSoFar(run, t, max, g, k);
      LaterRead(run, g, k, run[k].threads[t]);
      if run[i].threads[t] != run[k].threads[t] {
        var a :| Move(run[k].shared, run[k].threads[t], a, run[i].shared, run[i].threads[t]);
        OwnAccess(run, g, k, run[k].threads[t], a, run[i].threads[t]);
      }
    }
  }

  /** Elements that are consumed, or spoken for by tickets that won, are undecided, or are still to be
      handed back. */
  function SpokenFor(s: State): int {
    s.shared.headIndex + Sum(Unclaimed, s.threads) + Sum(Held, s.threads) + Sum(Unreturned, s.threads)
  }

  lemma TicketsAreSpokenFor(s: State)
    requires DequeueTickets.Inv(s)
    ensures s.shared.optimistic == SpokenFor(s) + s.shared.overcommit
  {
    ThreeOutcomes(s.shared.tickets);
  }

  /** A dequeue that returns nothing had a moment at which all elements below the tail it loaded were
      spoken for, except for as many as were handed back since it read the overcommit. */
  lemma NothingMeansSpokenFor(run: seq<State>, t: nat, max: nat, g: nat, i: nat) returns (o: nat, m: nat)
    requires IsRun(run) && OneCall(run, t, max, g, i) && max > 0 && i + 1 < |run|
    requires t < |run[i + 1].threads| && run[i + 1].threads[t] == Idle
    requires run[i + 1].shared.headIndex == run[i].shared.headIndex
    ensures g < o <= m <= i
    ensures SpokenFor(run[m]) + run[m].shared.overcommit - run[o].shared.overcommit >= run[g].shared.tailIndex
  {
    forall k: nat ensures SeenAt(run, t, k) {
      StepSeen(run, t, k);
    }
    CallSoFar(run, t, max, g, i);
    assert SeenAt(run, t, i);
    var a :| Move(run[i].shared, run[i].threads[t], a, run[i + 1].shared, run[i + 1].threads[t]);
    OwnAccess(run, g, i, run[i].threads[t], a, run[i + 1].threads[t]);
    o, m :| m <= i && CoveredAt(run, g, o, m);
    EveryStateOk(run, m);
    TicketsAreSpokenFor(run[m]);
  }

  // ---- a run in which handed-back tickets hide an element ----

  const First: seq<Grant> := [Grant(0, 1)]

  /** Thread 2 loses a ticket and hands it back after thread 0 has read the overcommit; thread 1 then takes
      another ticket, and thread 0 finds as many tickets out as there are elements. */
  function HiddenState(i: nat): State {
    match i
    case 0 => State(Shared(0, 0, 0, 0, [], []), [Idle, Idle, Idle])
    case 1 => State(Shared(1, 0, 0, 0, [], []), [Idle, Idle, Idle])
    case 2 => State(Shared(1, 0, 0, 0, [], []), [Idle, GotTail(1, 1), Idle])
    case 3 => State(Shared(1, 0, 0, 0, [], []), [Idle, GotOvercommit(1, 1, 0), Idle])
    case 4 => State(Shared(1, 0, 0, 0, [], []), [Idle, Committed(1, 0), Idle])
    case 5 => State(Shared(1, 0, 0, 0, [], []), [Idle, Committed(1, 0), GotTail(1, 1)])
    case 6 => State(Shared(1, 0, 0, 0, [], []), [Idle, Committed(1, 0), GotOvercommit(1, 1, 0)])
    case 7 => State(Shared(1, 0, 0, 0, [], []), [Idle, Committed(1, 0), Committed(1, 0)])
    case 8 => State(Shared(1, 0, 1, 0, [Undecided], []), [Idle, Holding(1, 0, 0), Committed(1, 0)])
    case 9 => State(Shared(1, 0, 1, 0, [Won], []), [Idle, Granted(1), Committed(1, 0)])
    case 10 => State(Shared(1, 1, 1, 0, [Won], First), [Idle, Idle, Committed(1, 0)])
    case 11 => State(Shared(1, 1, 2, 0, [Won, Undecided], First), [Idle, Idle, Holding(1, 0, 1)])
    case 12 => State(Shared(1, 1, 2, 0, [Won, Lost], First), [Idle, Idle, Failed(1)])
    case 13 => State(Shared(3, 1, 2, 0, [Won, Lost], First), [Idle, Idle, Failed(1)])
    case 14 => State(Shared(3, 1, 2, 0, [Won, Lost], First), [GotTail(1, 3), Idle, Failed(1)])
    case 15 => State(Shared(3, 1, 2, 0, [Won, Lost], First), [GotOvercommit(1, 3, 0), Idle, Failed(1)])
    case 16 => State(Shared(3, 1, 2, 1, [Won, Lost], First), [GotOvercommit(1, 3, 0), Idle, Idle])
    case 17 => State(Shared(3, 1, 2, 1, [Won, Lost], First), [GotOvercommit(1, 3, 0), GotTail(1, 3), Idle])
    case 18 => State(Shared(3, 1, 2, 1, [Won, Lost], First), [GotOvercommit(1, 3, 0), GotOvercommit(1, 3, 1), Idle])
    case 19 => State(Shared(3, 1, 2, 1, [Won, Lost], First), [GotOvercommit(1, 3, 0), Committed(1, 1), Idle])
    case 20 => State(Shared(3, 1, 3, 1, [Won, Lost, Undecided], First),
                     [GotOvercommit(1, 3, 0), Holding(1, 1, 2), Idle])
    case _ => State(Shared(3, 1, 3, 1, [Won, Lost, Undecided], First), [Idle, Holding(1, 1, 2), Idle])
  }

  function HiddenStep(i: nat): (nat, Action) {
    match i
    case 1 => (1, LoadTail(1))
    case 2 => (1, LoadOvercommit)
    case 3 => (1, LoadOptimistic)
    case 4 => (2, LoadTail(1))
    case 5 => (2, LoadOvercommit)
    case 6 => (2, LoadOptimistic)
    case 7 => (1, TakeTickets)
    case 8 => (1, CheckTail)
    case 9 => (1, ClaimIndices)
    case 10 => (2, TakeTickets)
    case 11 => (2, CheckTail)
    case 13 => (0, LoadTail(1))
    case 14 => (0, LoadOvercommit)
    case 15 => (2, GiveBack)
    case 16 => (1, LoadTail(1))
    case 17 => (1, LoadOvercommit)
    case 18 => (1, LoadOptimistic)
    case 19 => (1, TakeTickets)
    case _ => (0, LoadOptimistic)
  }

  lemma HiddenEarly(i: nat)
    requires i < 10
    ensures Step(HiddenState(i), HiddenState(i + 1))
  {
    if i == 0 {
      assert Enqueue(HiddenState(0), 1, HiddenState(1));
    } else {
      assert Repeat(Undecided, 1) == [Undecided] && Verdict(1, 1) == [Won] && Decide([Undecided], 0, 1, 1) == [Won];
      assert ConsumerStep(HiddenState(i), HiddenStep(i).0, HiddenStep(i).1, HiddenState(i + 1));
    }
  }

  lemma HiddenLate(i: nat)
    requires 10 <= i < 21
    ensures Step(HiddenState(i), HiddenState(i + 1))
  {
    if i == 12 {
      assert Enqueue(HiddenState(12), 2, HiddenState(13));
    } else {
      assert Repeat(Undecided, 1) == [Undecided] && Verdict(1, 0) == [Lost];
      assert Decide([Won, Undecided], 1, 1, 0) == [Won, Lost];
      assert ConsumerStep(HiddenState(i), HiddenStep(i).0, HiddenStep(i).1, HiddenState(i + 1));
    }
  }

  lemma HiddenIsSpokenFor(i: nat)
    requires 14 <= i <= 21
    ensures SpokenFor(HiddenState(i)) == HiddenState(i).shared.optimistic - HiddenState(i).shared.overcommit
  {
    var threads := HiddenState(i).threads;
    assert threads == [threads[0]] + ([threads[1]] + [threads[2]]);
    forall f: Local -> int ensures Sum(f, threads) == f(threads[0]) + f(threads[1]) + f(threads[2]) {
      assert threads[1..][1..][1..] == [];
    }
  }

  lemma {:induction false} HiddenRun(n: nat) returns (run: seq<State>)
    requires n <= 21
    ensures |run| == n + 1 && IsRun(run) && forall k :: 0 <= k <= n ==> run[k] == HiddenState(k)
  {
    if n == 0 {
      run := [HiddenState(0)];
    } else {
      run := HiddenRun(n - 1);
      if n <= 10 {
        HiddenEarly(n - 1);
      } else {
        HiddenLate(n - 1);
      }
      Runs.OneMore(Protocol(), run, HiddenState(n));
      run := run + [HiddenState(n)];
    }
  }

  lemma HiddenCounts(i: nat)
    requires 14 <= i <= 21
    ensures SpokenFor(HiddenState(i)) < 3
    ensures HiddenState(i).shared.headIndex == 1 && HiddenState(i).shared.tailIndex == 3
  {
    HiddenIsSpokenFor(i);
  }

  lemma HiddenCall()
    ensures ConsumerStep(HiddenState(13), 0, LoadTail(1), HiddenState(14))
    ensures ConsumerStep(HiddenState(20), 0, LoadOptimistic, HiddenState(21)) && HiddenState(21).threads[0] == Idle
  {
  }

  /** A dequeue can return nothing although, from its start to its end, an element below the tail it loaded
      was spoken for by nobody: tickets handed back after it read the overcommit count against it. */
  lemma HandedBackTicketsHideAnElement() returns (run: seq<State>)
    ensures IsRun(run) && |run| == 22 && ConsumerStep(run[13], 0, LoadTail(1), run[14])
    ensures ConsumerStep(run[20], 0, LoadOptimistic, run[21]) && run[21].threads[0] == Idle
    ensures forall k :: 14 <= k <= 21 ==>
              run[k].shared.headIndex == 1 && run[k].shared.tailIndex == 3 && SpokenFor(run[k]) < 3
  {
    run := HiddenRun(21);
    HiddenCall();
    forall k: nat | 14 <= k <= 21
      ensures run[k].shared.headIndex == 1 && run[k].shared.tailIndex == 3 && SpokenFor(run[k]) < 3
    {
      HiddenCounts(k);
      assert run[k] == HiddenState(k);
    }
  }
}
