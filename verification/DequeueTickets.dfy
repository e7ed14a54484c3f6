/** The dequeue counters of a producer's sub-queue: consumers take optimistic tickets, check them
    against the tail, and hand failed ones back through the overcommit counter. */
module DequeueTickets {
  import opened Counting
  import Division
  import opened Numbers
  import Runs

  /** What became of a ticket. */
  datatype Outcome = Undecided | Won | Lost

  /** A consumer inside dequeue (max = 1) or dequeue_bulk. */
  datatype Local =
    | Idle
    | GotTail(max: nat, tail: nat)
    | GotOvercommit(max: nat, tail: nat, overcommit: nat)
    | Committed(wanted: nat, overcommit: nat)             // before taking the tickets
    | Holding(wanted: nat, overcommit: nat, first: nat)   // tickets first .. first + wanted
    | Returning(excess: nat, granted: nat)                // some tickets won, the excess goes back first
    | Failed(wanted: nat)                                 // no ticket won
    | Granted(granted: nat)                               // before claiming indices

  /** Indices given to one call. */
  datatype Grant = Grant(first: nat, count: nat)

  datatype Shared = Shared(
    tailIndex: nat,
    headIndex: nat,
    optimistic: nat,
    overcommit: nat,
    // history: the outcome of every ticket, and the indices given out
    tickets: seq<Outcome>,
    grants: seq<Grant>
  )

  datatype State = State(shared: Shared, threads: seq<Local>)

  datatype Action =
    | LoadTail(max: nat)
    | LoadOvercommit
    | LoadOptimistic
    | TakeTickets
    | CheckTail
    | GiveBack
    | ClaimIndices

  /** n tickets with the same outcome. */
  function Repeat(o: Outcome, n: nat): (r: seq<Outcome>)
    ensures |r| == n && forall i :: 0 <= i < n ==> r[i] == o
  {
    seq(n, i => o)
  }

  /** The outcomes of one call's tickets: the first won of them Won, the others Lost. */
  function Verdict(wanted: nat, won: nat): (r: seq<Outcome>)
    requires won <= wanted
    ensures |r| == wanted
  {
    Repeat(Won, won) + Repeat(Lost, wanted - won)
  }

  /** The first won of the tickets first .. first + wanted are Won, the others Lost. */
  function Decide(tickets: seq<Outcome>, first: nat, wanted: nat, won: nat): (r: seq<Outcome>)
    requires first + wanted <= |tickets| && won <= wanted
    ensures |r| == |tickets|
  {
    tickets[..first] + Verdict(wanted, won) + tickets[first + wanted..]
  }

  ghost predicate Init(s: State) {
    && s.shared == Shared(0, 0, 0, 0, [], [])
    && forall t :: 0 <= t < |s.threads| ==> s.threads[t] == Idle
  }

  ghost predicate Move(g: Shared, l: Local, a: Action, g': Shared, l': Local) {
    match a
    case LoadTail(max) =>
      l.Idle? && g' == g && l' == GotTail(max, g.tailIndex)
    case LoadOvercommit =>
      l.GotTail? && g' == g && l' == GotOvercommit(l.max, l.tail, g.overcommit)
    case LoadOptimistic =>
      && l.GotOvercommit? && g' == g
      && var desired := l.tail - (g.optimistic - l.overcommit);
         l' == if desired > 0 then Committed(Min(desired, l.max), l.overcommit) else Idle
    case TakeTickets =>
      && l.Committed?
      && g' == g.(optimistic := g.optimistic + l.wanted, tickets := g.tickets + Repeat(Undecided, l.wanted))
      && l' == Holding(l.wanted, l.overcommit, g.optimistic)
    case CheckTail =>
      && l.Holding? && l.first + l.wanted <= |g.tickets|
      && var actual := Min(l.wanted, g.tailIndex - (l.first - l.overcommit));
         if g.tailIndex - (l.first - l.overcommit) > 0 then
           && g' == g.(tickets := Decide(g.tickets, l.first, l.wanted, actual))
           && l' == if actual < l.wanted then Returning(l.wanted - actual, actual) else Granted(actual)
         else
           && g' == g.(tickets := Decide(g.tickets, l.first, l.wanted, 0))
           && l' == Failed(l.wanted)
    case GiveBack =>
      || (l.Failed? && g' == g.(overcommit := g.overcommit + l.wanted) && l' == Idle)
      || (l.Returning? && g' == g.(overcommit := g.overcommit + l.excess) && l' == Granted(l.granted))
    case ClaimIndices =>
      && l.Granted?
      && g' == g.(headIndex := g.headIndex + l.granted, grants := g.grants + [Grant(g.headIndex, l.granted)])
      && l' == Idle
  }

  ghost predicate ConsumerStep(s: State, t: nat, a: Action, s': State) {
    && t < |s.threads| == |s'.threads|
    && s'.threads == s.threads[t := s'.threads[t]]
    && Move(s.shared, s.threads[t], a, s'.shared, s'.threads[t])
  }

  /** The one producer publishes count more elements. */
  ghost predicate Enqueue(s: State, count: nat, s': State) {
    s' == s.(shared := s.shared.(tailIndex := s.shared.tailIndex + count))
  }

  ghost predicate Step(s: State, s': State) {
    || (exists t: nat, a :: ConsumerStep(s, t, a, s'))
    || (exists count: nat :: Enqueue(s, count, s'))
  }

  ghost function Protocol(): Runs.System<State> {
    Runs.System(s => Init(s), (s, s') => Step(s, s'))
  }

  ghost predicate IsRun(run: seq<State>) {
    Runs.IsRun(Protocol(), run)
  }

  // ---- the invariant ----

  function WonOne(o: Outcome): int {
    if o.Won? then 1 else 0
  }

  function LostOne(o: Outcome): int {
    if o.Lost? then 1 else 0
  }

  function UndecidedOne(o: Outcome): int {
    if o.Undecided? then 1 else 0
  }

  function Held(l: Local): int {
    if l.Holding? then l.wanted else 0
  }

  /** Won tickets whose indices are not claimed yet. */
  function Unclaimed(l: Local): int {
    if l.Returning? || l.Granted? then l.granted else 0
  }

  /** Lost tickets that are not handed back yet. */
  function Unreturned(l: Local): int {
    if l.Returning? then l.excess else if l.Failed? then l.wanted else 0
  }

  function LostBefore(g: Shared, i: nat): int
    requires i <= |g.tickets|
  {
    Sum(LostOne, g.tickets[..i])
  }

  ghost predicate LocalOk(g: Shared, l: Local) {
    match l
    case GotOvercommit(_, _, overcommit) => overcommit <= g.overcommit
    case Committed(_, overcommit) => overcommit <= g.overcommit
    case Holding(wanted, overcommit, first) =>
      && first + wanted <= |g.tickets|
      && (forall i :: first <= i < first + wanted ==> g.tickets[i] == Undecided)
      && overcommit <= LostBefore(g, first)
    case _ => true
  }

  predicate Apart(l: Local, u: Local) {
    l.Holding? && u.Holding? ==> l.first + l.wanted <= u.first || u.first + u.wanted <= l.first
  }

  /** A won ticket, less the lost ones up to it, was below the tail when it was checked. */
  ghost predicate TicketOk(g: Shared, i: nat)
    requires i < |g.tickets|
  {
    g.tickets[i] == Won ==> i + 1 - LostBefore(g, i + 1) <= g.tailIndex
  }

  ghost predicate TicketsOk(g: Shared) {
    && |g.tickets| == g.optimistic
    && forall i :: 0 <= i < |g.tickets| ==> TicketOk(g, i)
  }

  /** The grants are contiguous and end at the head index. */
  ghost predicate GrantsOk(grants: seq<Grant>, head: nat) {
    && (forall i, j :: 0 <= i && j == i + 1 < |grants| ==> grants[j].first == grants[i].first + grants[i].count)
    && (if grants == [] then head == 0
        else grants[0].first == 0 && head == grants[|grants| - 1].first + grants[|grants| - 1].count)
  }

  ghost predicate Inv(s: State) {
    && TicketsOk(s.shared)
    && GrantsOk(s.shared.grants, s.shared.headIndex)
    && s.shared.headIndex + Sum(Unclaimed, s.threads) == Sum(WonOne, s.shared.tickets)
    && s.shared.overcommit + Sum(Unreturned, s.threads) == Sum(LostOne, s.shared.tickets)
    && Sum(Held, s.threads) == Sum(UndecidedOne, s.shared.tickets)
    && (forall t :: 0 <= t < |s.threads| ==> LocalOk(s.shared, s.threads[t]))
    && (forall t, u :: 0 <= t < u < |s.threads| ==> Apart(s.threads[t], s.threads[u]))
  }

  // ---- counting decided tickets ----

  lemma {:induction false} RepeatSum(f: Outcome -> int, o: Outcome, n: nat)
    requires f(o) == 0 || f(o) == 1
    ensures Sum(f, Repeat(o, n)) == if f(o) == 1 then n else 0
  {
    if n > 0 {
      assert Repeat(o, n) == Repeat(o, n - 1) + [o];
      SumAppend(f, Repeat(o, n - 1), o);
      RepeatSum(f, o, n - 1);
    }
  }

  lemma VerdictSum(f: Outcome -> int, wanted: nat, won: nat)
    requires won <= wanted && forall o :: f(o) == 0 || f(o) == 1
    ensures Sum(f, Verdict(wanted, won))
         == (if f(Won) == 1 then won else 0) + (if f(Lost) == 1 then wanted - won else 0)
  {
    SumConcat(f, Repeat(Won, won), Repeat(Lost, wanted - won));
    RepeatSum(f, Won, won);
    RepeatSum(f, Lost, wanted - won);
  }

  lemma SumOfParts(f: Outcome -> int, a: seq<Outcome>, b: seq<Outcome>, c: seq<Outcome>)
    ensures Sum(f, a + b + c) == Sum(f, a) + Sum(f, b) + Sum(f, c)
  {
    SumConcat(f, a + b, c);
    SumConcat(f, a, b);
  }

  /** Deciding tickets changes the totals by exactly the decided ones. */
  lemma DecideTotals(tickets: seq<Outcome>, first: nat, wanted: nat, won: nat)
    requires first + wanted <= |tickets| && won <= wanted
    requires forall i :: first <= i < first + wanted ==> tickets[i] == Undecided
    ensures Sum(WonOne, Decide(tickets, first, wanted, won)) == Sum(WonOne, tickets) + won
    ensures Sum(LostOne, Decide(tickets, first, wanted, won)) == Sum(LostOne, tickets) + wanted - won
    ensures Sum(UndecidedOne, Decide(tickets, first, wanted, won)) == Sum(UndecidedOne, tickets) - wanted
  {
    DecideTotal(WonOne, tickets, first, wanted, won);
    DecideTotal(LostOne, tickets, first, wanted, won);
    DecideTotal(UndecidedOne, tickets, first, wanted, won);
  }

  lemma DecideTotal(f: Outcome -> int, tickets: seq<Outcome>, first: nat, wanted: nat, won: nat)
    requires first + wanted <= |tickets| && won <= wanted
    requires forall i :: first <= i < first + wanted ==> tickets[i] == Undecided
    requires forall o :: f(o) == 0 || f(o) == 1
    ensures Sum(f, Decide(tickets, first, wanted, won))
         == Sum(f, tickets) + (if f(Won) == 1 then won else 0) + (if f(Lost) == 1 then wanted - won else 0)
            - (if f(Undecided) == 1 then wanted else 0)
  {
    UndecidedTotal(f, tickets, first, wanted);
    SumOfParts(f, tickets[..first], Verdict(wanted, won), tickets[first + wanted..]);
    VerdictSum(f, wanted, won);
  }

  lemma UndecidedTotal(f: Outcome -> int, tickets: seq<Outcome>, first: nat, wanted: nat)
    requires first + wanted <= |tickets| && forall o :: f(o) == 0 || f(o) == 1
    requires forall i :: first <= i < first + wanted ==> tickets[i] == Undecided
    ensures Sum(f, tickets) == Sum(f, tickets[..first]) + (if f(Undecided) == 1 then wanted else 0)
                             + Sum(f, tickets[first + wanted..])
  {
    var a, b, c := tickets[..first], tickets[first..first + wanted], tickets[first + wanted..];
    assert tickets == a + b + c;
    SumOfParts(f, a, b, c);
    assert b == Repeat(Undecided, wanted);
    RepeatSum(f, Undecided, wanted);
  }

  /** Deciding tickets never lowers the number of lost ones below a position. */
  lemma DecideLostBefore(tickets: seq<Outcome>, first: nat, wanted: nat, won: nat, i: nat)
    requires first + wanted <= |tickets| && won <= wanted && i <= |tickets|
    requires forall j :: first <= j < first + wanted ==> tickets[j] == Undecided
    ensures Sum(LostOne, Decide(tickets, first, wanted, won)[..i]) >= Sum(LostOne, tickets[..i])
  {
    SumPointwise(LostOne, tickets[..i], Decide(tickets, first, wanted, won)[..i]);
  }

  // ---- preservation ----

  lemma CheckKeepsTickets(g: Shared, l: Local, g': Shared, l': Local)
    requires TicketsOk(g) && LocalOk(g, l) && Move(g, l, CheckTail, g', l')
    ensures TicketsOk(g')
    ensures forall i :: 0 <= i <= |g.tickets| ==> LostBefore(g', i) >= LostBefore(g, i)
  {
    var won := if l'.Failed? then 0 else l'.granted;
    assert g'.tickets == Decide(g.tickets, l.first, l.wanted, won);
    forall i: nat | i <= |g.tickets| ensures LostBefore(g', i) >= LostBefore(g, i) {
      DecideLostBefore(g.tickets, l.first, l.wanted, won, i);
    }
    forall i | 0 <= i < |g'.tickets| ensures TicketOk(g', i) {
      assert TicketOk(g, i);
      if l.first <= i < l.first + won {
        SumNonNegative(LostOne, g.tickets[l.first..i + 1]);
        assert g.tickets[..i + 1] == g.tickets[..l.first] + g.tickets[l.first..i + 1];
        SumConcat(LostOne, g.tickets[..l.first], g.tickets[l.first..i + 1]);
      }
    }
  }

  lemma TakeKeepsTickets(g: Shared, l: Local, g': Shared, l': Local)
    requires TicketsOk(g) && Move(g, l, TakeTickets, g', l')
    ensures TicketsOk(g')
    ensures forall i :: 0 <= i <= |g.tickets| ==> LostBefore(g', i) == LostBefore(g, i)
  {
    forall i: nat | i <= |g.tickets| ensures LostBefore(g', i) == LostBefore(g, i) {
      assert g'.tickets[..i] == g.tickets[..i];
    }
    forall i | 0 <= i < |g'.tickets| ensures TicketOk(g', i) {
      if i < |g.tickets| {
        assert TicketOk(g, i);
      }
    }
  }

  lemma TotalsMove(g: Shared, l: Local, a: Action, g': Shared, l': Local)
    requires Move(g, l, a, g', l') && LocalOk(g, l)
    ensures g'.headIndex + Unclaimed(l') - Sum(WonOne, g'.tickets)
         == g.headIndex + Unclaimed(l) - Sum(WonOne, g.tickets)
    ensures g'.overcommit + Unreturned(l') - Sum(LostOne, g'.tickets)
         == g.overcommit + Unreturned(l) - Sum(LostOne, g.tickets)
    ensures Held(l') - Sum(UndecidedOne, g'.tickets) == Held(l) - Sum(UndecidedOne, g.tickets)
  {
    if a.CheckTail? {
      DecideTotals(g.tickets, l.first, l.wanted, if l'.Failed? then 0 else l'.granted);
    } else if a.TakeTickets? {
      SumConcat(WonOne, g.tickets, Repeat(Undecided, l.wanted));
      SumConcat(LostOne, g.tickets, Repeat(Undecided, l.wanted));
      RepeatSum(WonOne, Undecided, l.wanted);
      RepeatSum(LostOne, Undecided, l.wanted);
      SumConcat(UndecidedOne, g.tickets, Repeat(Undecided, l.wanted));
      RepeatSum(UndecidedOne, Undecided, l.wanted);
    }
  }

  lemma TicketsMove(g: Shared, l: Local, a: Action, g': Shared, l': Local)
    requires Move(g, l, a, g', l') && LocalOk(g, l) && TicketsOk(g)
    ensures TicketsOk(g') && |g'.tickets| >= |g.tickets|
    ensures forall i :: 0 <= i <= |g.tickets| ==> LostBefore(g', i) >= LostBefore(g, i)
  {
    if a.CheckTail? {
      CheckKeepsTickets(g, l, g', l');
    } else if a.TakeTickets? {
      TakeKeepsTickets(g, l, g', l');
    } else {
      assert g'.tickets == g.tickets && g'.tailIndex == g.tailIndex;
      forall i | 0 <= i < |g'.tickets| ensures TicketOk(g', i) {
        assert TicketOk(g, i);
      }
    }
  }

  lemma LocalMove(g: Shared, l: Local, a: Action, g': Shared, l': Local)
    requires Move(g, l, a, g', l') && LocalOk(g, l)
    requires |g.tickets| == g.optimistic && g.overcommit <= LostBefore(g, |g.tickets|)
    ensures LocalOk(g', l')
  {
    if a.TakeTickets? {
      assert g'.tickets[..|g.tickets|] == g.tickets[..|g.tickets|];
    }
  }

  lemma OtherMove(g: Shared, l: Local, a: Action, g': Shared, l': Local, u: Local)
    requires Move(g, l, a, g', l') && LocalOk(g, l) && LocalOk(g, u) && Apart(l, u)
    requires |g.tickets| == g.optimistic && |g'.tickets| >= |g.tickets|
    requires forall i :: 0 <= i <= |g.tickets| ==> LostBefore(g', i) >= LostBefore(g, i)
    ensures LocalOk(g', u) && Apart(l', u)
  {
  }

  lemma ConsumerKeeps(s: State, t: nat, a: Action, s': State)
    requires Inv(s) && ConsumerStep(s, t, a, s')
    ensures Inv(s')
  {
    var g, g', l, l' := s.shared, s'.shared, s.threads[t], s'.threads[t];
    SumUpdate(Unclaimed, s.threads, t, l');
    SumUpdate(Unreturned, s.threads, t, l');
    SumUpdate(Held, s.threads, t, l');
    SumNonNegative(Unreturned, s.threads);
    assert g.tickets[..|g.tickets|] == g.tickets;
    TotalsMove(g, l, a, g', l');
    TicketsMove(g, l, a, g', l');
    LocalMove(g, l, a, g', l');
    forall u | 0 <= u < |s.threads| && u != t
      ensures LocalOk(g', s.threads[u]) && Apart(l', s.threads[u]) && Apart(s.threads[u], l')
    {
      assert Apart(s.threads[if t < u then t else u], s.threads[if t < u then u else t]);
      OtherMove(g, l, a, g', l', s.threads[u]);
    }
  }

  lemma EnqueueKeeps(s: State, count: nat, s': State)
    requires Inv(s) && Enqueue(s, count, s')
    ensures Inv(s')
  {
    forall i | 0 <= i < |s'.shared.tickets| ensures TicketOk(s'.shared, i) {
      assert TicketOk(s.shared, i);
    }
    forall t | 0 <= t < |s'.threads| ensures LocalOk(s'.shared, s'.threads[t]) {
      assert LocalOk(s.shared, s.threads[t]);
    }
  }

  lemma StepKeeps(s: State, s': State)
    requires Inv(s) && Step(s, s')
    ensures Inv(s')
  {
    if t: nat, a :| ConsumerStep(s, t, a, s') {
      ConsumerKeeps(s, t, a, s');
    } else {
      var count: nat :| Enqueue(s, count, s');
      EnqueueKeeps(s, count, s');
    }
  }

  lemma InitHolds(s: State)
    requires Init(s)
    ensures Inv(s)
  {
    SumZero(Unclaimed, s.threads);
    SumZero(Unreturned, s.threads);
    SumZero(Held, s.threads);
  }

  lemma EveryStateOk(run: seq<State>, i: nat)
    requires IsRun(run) && i < |run|
    ensures Inv(run[i])
  {
    forall s | Init(s) ensures Inv(s) {
      InitHolds(s);
    }
    forall s, s' | Inv(s) && Step(s, s') ensures Inv(s') {
      StepKeeps(s, s');
    }
    Runs.Invariant(Protocol(), s => Inv(s), run, i);
  }

  // ---- what the counters promise ----

  /** Among the first n tickets, at most tailIndex won: each winner counted the losers below it. */
  lemma {:induction false} WinnersBelowTail(g: Shared, n: nat)
    requires TicketsOk(g) && n <= |g.tickets|
    ensures Sum(WonOne, g.tickets[..n]) <= g.tailIndex
    ensures Sum(WonOne, g.tickets[..n]) + Sum(LostOne, g.tickets[..n]) <= n
  {
    if n > 0 {
      WinnersBelowTail(g, n - 1);
      SumNext(WonOne, g.tickets, n - 1);
      SumNext(LostOne, g.tickets, n - 1);
      assert TicketOk(g, n - 1);
    }
  }

  lemma HeadBelowTail(s: State)
    requires Inv(s)
    ensures s.shared.headIndex + Sum(Unclaimed, s.threads) <= s.shared.tailIndex
    ensures s.shared.headIndex <= s.shared.tailIndex
  {
    WinnersBelowTail(s.shared, |s.shared.tickets|);
    assert s.shared.tickets[..|s.shared.tickets|] == s.shared.tickets;
    SumNonNegative(Unclaimed, s.threads);
  }

  /** Dequeuing never passes the tail, counting even the winners that have not claimed yet. */
  lemma HeadNeverPassesTail(run: seq<State>, i: nat)
    requires IsRun(run) && i < |run|
    ensures run[i].shared.headIndex + Sum(Unclaimed, run[i].threads) <= run[i].shared.tailIndex
    ensures run[i].shared.headIndex <= run[i].shared.tailIndex
  {
    EveryStateOk(run, i);
    HeadBelowTail(run[i]);
  }

  lemma {:induction false} GrantsOrdered(grants: seq<Grant>, head: nat, i: nat, j: nat)
    requires GrantsOk(grants, head) && i < j < |grants|
    ensures grants[i].first + grants[i].count <= grants[j].first
    decreases j - i
  {
    assert grants[i + 1].first == grants[i].first + grants[i].count;
    if i + 1 < j {
      GrantsOrdered(grants, head, i + 1, j);
    }
  }

  /** The index p was given to the k-th successful call. */
  predicate GivenTo(grants: seq<Grant>, k: nat, p: nat) {
    k < |grants| && grants[k].first <= p < grants[k].first + grants[k].count
  }

  lemma GivenIsBelowHead(grants: seq<Grant>, head: nat, k: nat, p: nat)
    requires GrantsOk(grants, head) && GivenTo(grants, k, p)
    ensures p < head
  {
    if k < |grants| - 1 {
      GrantsOrdered(grants, head, k, |grants| - 1);
    }
  }

  /** Exactly the indices below the head were given out, each to exactly one call. */
  lemma EachIndexOnce(run: seq<State>, i: nat, p: nat)
    requires IsRun(run) && i < |run|
    ensures p < run[i].shared.headIndex <==> exists k: nat :: GivenTo(run[i].shared.grants, k, p)
    ensures forall k: nat, m: nat :: GivenTo(run[i].shared.grants, k, p) && GivenTo(run[i].shared.grants, m, p)
                                     ==> k == m
  {
    var g := run[i].shared;
    EveryStateOk(run, i);
    forall k: nat, m: nat | GivenTo(g.grants, k, p) && GivenTo(g.grants, m, p) ensures k == m {
      if k != m {
        GrantsOrdered(g.grants, g.headIndex, if k < m then k else m, if k < m then m else k);
      }
    }
    if k: nat :| GivenTo(g.grants, k, p) {
      GivenIsBelowHead(g.grants, g.headIndex, k, p);
    }
    if p < g.headIndex {
      var k := FindGrant(g.grants, g.headIndex, |g.grants| - 1, p);
    }
  }

  lemma {:induction false} FindGrant(grants: seq<Grant>, head: nat, n: nat, p: nat) returns (k: nat)
    requires GrantsOk(grants, head) && n < |grants| && p < grants[n].first + grants[n].count
    ensures GivenTo(grants, k, p)
  {
    if grants[n].first <= p {
      k := n;
    } else {
      assert grants[n].first == grants[n - 1].first + grants[n - 1].count;
      k := FindGrant(grants, head, n - 1, p);
    }
  }

  /** A call that finds nothing returns its tickets: when every call has finished, the difference of
      the two optimistic counters is exactly the head index. */
  lemma CountersAgreeWhenQuiet(run: seq<State>, i: nat)
    requires IsRun(run) && i < |run|
    requires forall t :: 0 <= t < |run[i].threads| ==> run[i].threads[t].Idle?
    ensures run[i].shared.optimistic - run[i].shared.overcommit == run[i].shared.headIndex
  {
    var s := run[i];
    EveryStateOk(run, i);
    SumZero(Unclaimed, s.threads);
    SumZero(Unreturned, s.threads);
    SumZero(Held, s.threads);
    ThreeOutcomes(s.shared.tickets);
  }

  lemma {:induction false} ThreeOutcomes(tickets: seq<Outcome>)
    ensures Sum(WonOne, tickets) + Sum(LostOne, tickets) + Sum(UndecidedOne, tickets) == |tickets|
  {
    if tickets != [] {
      ThreeOutcomes(tickets[1..]);
    }
  }

  /** The access that a call makes next. */
  lemma NextAccess(g: Shared, l: Local) returns (a: Action, g': Shared, l': Local)
    requires LocalOk(g, l) && l != Idle
    ensures Move(g, l, a, g', l')
  {
    g' := g;
    match l
    case GotTail(max, tail) => a, l' := LoadOvercommit, GotOvercommit(max, tail, g.overcommit);
    case GotOvercommit(max, tail, overcommit) =>
      var desired := tail - (g.optimistic - overcommit);
      a, l' := LoadOptimistic, if desired > 0 then Committed(Min(desired, max), overcommit) else Idle;
    case Committed(wanted, overcommit) =>
      a, l' := TakeTickets, Holding(wanted, overcommit, g.optimistic);
      g' := g.(optimistic := g.optimistic + wanted, tickets := g.tickets + Repeat(Undecided, wanted));
    case Holding(wanted, overcommit, first) =>
      var below := g.tailIndex - (first - overcommit);
      a, l' := CheckTail, Failed(wanted);
      if below > 0 {
        var actual := Min(wanted, below);
        l' := if actual < wanted then Returning(wanted - actual, actual) else Granted(actual);
        g' := g.(tickets := Decide(g.tickets, first, wanted, actual));
      } else {
        g' := g.(tickets := Decide(g.tickets, first, wanted, 0));
      }
    case Returning(excess, granted) =>
      a, g', l' := GiveBack, g.(overcommit := g.overcommit + excess), Granted(granted);
    case Failed(wanted) => a, g', l' := GiveBack, g.(overcommit := g.overcommit + wanted), Idle;
    case Granted(granted) =>
      a, l' := ClaimIndices, Idle;
      g' := g.(headIndex := g.headIndex + granted, grants := g.grants + [Grant(g.headIndex, granted)]);
  }

  /** A call always has a next access. */
  lemma NeverStuck(run: seq<State>, i: nat, t: nat)
    requires IsRun(run) && i < |run| && t < |run[i].threads| && run[i].threads[t] != Idle
    ensures exists a, s' :: ConsumerStep(run[i], t, a, s')
  {
    var s := run[i];
    EveryStateOk(run, i);
    var a, g', l' := NextAccess(s.shared, s.threads[t]);
    assert ConsumerStep(s, t, a, State(g', s.threads[t := l']));
  }

  // ---- comparisons of wrapping counters ----

  /** circular_less_than on counters of range m = 2^w, m even: a - b wraps into 0 .. m. */
  function CircularLessThan(a: int, b: int, m: int): bool
    requires m > 0
  {
    (a - b) % m > m / 2
  }

  lemma WrapDifference(x: int, y: int, m: int)
    requires m > 0
    ensures (x % m - y % m) % m == (x - y) % m
  {
    var d := x % m - y % m;
    var k := x / m - y / m;
    Division.Distribute(x / m, y / m, m);
    Division.Distribute(d / m, -k, m);
    Division.QuotientUnique(x - y, d / m + k, d % m, m);
  }

  /** Within one round of each other, two counters known modulo m compare as their true values
      exactly when their distance is below half the range (the half itself only upward). */
  lemma CircularComparison(x: int, y: int, m: int)
    requires m > 0 && m % 2 == 0 && -m < x - y < m
    ensures (CircularLessThan(x % m, y % m, m) <==> x < y) <==> -(m / 2) < x - y <= m / 2
  {
    WrapDifference(x, y, m);
    var d := x - y;
    Division.QuotientUnique(d, if d >= 0 then 0 else -1, if d >= 0 then d else d + m, m);
  }
}
