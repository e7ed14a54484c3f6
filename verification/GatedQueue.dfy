/** The lightweight semaphore and the blocking queue it gates: producers enqueue and then signal,
    consumers wait for permits and then spin on the queue until they have an element per permit.
    wait() and tryWait() are waitMany(1) and tryWaitMany(1). */
module GatedQueue {
  import opened Counting
  import opened Numbers
  import Runs

  /** Try: tryWaitMany. Block: waitMany, with a timeout or without one. */
  datatype Mode = Try | Block(timed: bool)

  /** The three places that try to take permits by CAS. */
  datatype Phase = First | Spin | More

  datatype Local =
    | Idle
    // a producer
    | Enqueued(n: nat)                                  // elements are in the queue, not signalled yet
    | Posting(r: nat)                                   // m_count raised, r releases of the OS semaphore to post
    // a consumer
    | Trying(phase: Phase, mode: Mode, max: nat, got: nat)           // before loading m_count; max - got wanted
    | Loaded(phase: Phase, mode: Mode, max: nat, got: nat, seen: int) // before the CAS
    | Sleeping(mode: Mode, max: nat)                    // m_count lowered to a negative value, in the OS semaphore
    | Adjusting(mode: Mode, max: nat)                   // timed out, before loading m_count
    | Adjusted(mode: Mode, max: nat, seen: int)          // timed out, m_count loaded
    | GotOne(mode: Mode, max: nat)                      // woken, or fetch_sub found a permit
    | Done(mode: Mode, max: nat, got: nat)
    | Dequeuing(n: nat)                                 // n permits held, spinning on the queue

  datatype Shared = Shared(
    count: int,                                         // m_count
    os: nat,                                            // value of the OS semaphore
    elements: nat,                                      // elements in the inner queue
    // history
    signalled: nat,
    acquired: nat
  )

  datatype State = State(shared: Shared, threads: seq<Local>)

  datatype Action =
    | Enqueue(n: nat) | Signal | Post
    | Begin(mode: Mode, max: nat) | Load | Cas(spurious: bool) | StopSpinning
    | Wake | TimeOut | LoadAgain | Adjust | Continue | Return | Dequeue

  ghost predicate Init(initial: nat, s: State) {
    && s.shared == Shared(initial, 0, 0, 0, 0)
    && forall t :: 0 <= t < |s.threads| ==> s.threads[t] == Idle
  }

  /** What a thread does when its attempt to take permits finds none. */
  function NoPermits(phase: Phase, mode: Mode, max: nat, got: nat): Local {
    if phase == Spin then Trying(Spin, mode, max, got)
    else if phase == More || mode == Try || max == 0 then Done(mode, max, got)
    else Trying(Spin, mode, max, got)
  }

  ghost predicate Move(g: Shared, l: Local, a: Action, g': Shared, l': Local) {
    match a
    case Enqueue(n) =>
      l.Idle? && g' == g.(elements := g.elements + n) && l' == Enqueued(n)
    case Signal =>
      && l.Enqueued? && g' == g.(count := g.count + l.n, signalled := g.signalled + l.n)
      && var toRelease := Min(-g.count, l.n);
         l' == if toRelease > 0 then Posting(toRelease) else Idle
    case Post =>
      && l.Posting?
      && (if l.r == 0 then g' == g && l' == Idle else g' == g.(os := g.os + 1) && l' == Posting(l.r - 1))
    case Begin(mode, max) =>
      l.Idle? && g' == g && l' == Trying(First, mode, max, 0)
    case Load =>
      l.Trying? && g' == g && l' == Loaded(l.phase, l.mode, l.max, l.got, g.count)
    case Cas(spurious) =>
      && l.Loaded?
      && (if l.seen <= 0 then g' == g && l' == NoPermits(l.phase, l.mode, l.max, l.got)
          else if g.count == l.seen && !spurious then
            var left := Pos(l.seen - (l.max - l.got));
            && l.got <= l.max && g' == g.(count := left, acquired := g.acquired + (l.seen - left))
            && l' == Done(l.mode, l.max, l.got + (l.seen - left))
          else if l.phase == Spin then g' == g && l' == Trying(Spin, l.mode, l.max, l.got)
          else g' == g && l' == Loaded(l.phase, l.mode, l.max, l.got, g.count))
    case StopSpinning =>
      && l.Trying? && l.phase == Spin
      && (if g.count > 0 then
            && g' == g.(count := g.count - 1, acquired := g.acquired + 1) && l' == GotOne(l.mode, l.max)
          else
            g' == g.(count := g.count - 1) && l' == Sleeping(l.mode, l.max))
    case Wake =>
      && l.Sleeping? && g.os > 0
      && g' == g.(os := g.os - 1, acquired := g.acquired + 1) && l' == GotOne(l.mode, l.max)
    case TimeOut =>
      l.Sleeping? && l.mode == Block(true) && g' == g && l' == Adjusting(l.mode, l.max)
    case LoadAgain =>
      l.Adjusting? && g' == g && l' == Adjusted(l.mode, l.max, g.count)
    case Adjust =>
      && l.Adjusted?
      && (if l.seen >= 0 && g.os > 0 then
            g' == g.(os := g.os - 1, acquired := g.acquired + 1) && l' == GotOne(l.mode, l.max)
          else if l.seen < 0 && g.count == l.seen then
            g' == g.(count := g.count + 1) && l' == Done(l.mode, l.max, 0)
          else
            g' == g && l' == Adjusting(l.mode, l.max))
    case Continue =>
      && l.GotOne? && g' == g
      && l' == if l.max > 1 then Trying(More, l.mode, l.max, 1) else Done(l.mode, l.max, 1)
    case Return =>
      l.Done? && g' == g && l' == if l.got == 0 then Idle else Dequeuing(l.got)
    case Dequeue =>
      && l.Dequeuing? && l.n > 0 && g.elements > 0 && g' == g.(elements := g.elements - 1)
      && l' == if l.n == 1 then Idle else Dequeuing(l.n - 1)
  }

  ghost predicate StepOf(s: State, t: nat, a: Action, s': State) {
    && t < |s.threads| == |s'.threads|
    && s'.threads == s.threads[t := s'.threads[t]]
    && Move(s.shared, s.threads[t], a, s'.shared, s'.threads[t])
  }

  ghost predicate Step(s: State, s': State) {
    exists t: nat, a :: StepOf(s, t, a, s')
  }

  ghost function Protocol(initial: nat): Runs.System<State> {
    Runs.System(s => Init(initial, s), (s, s') => Step(s, s'))
  }

  ghost predicate IsRun(initial: nat, run: seq<State>) {
    Runs.IsRun(Protocol(initial), run)
  }

  // ---- the invariant ----

  /** Threads whose decrement of m_count is still a registration. */
  function Registered(l: Local): int {
    if l.Sleeping? || l.Adjusting? || l.Adjusted? then 1 else 0
  }

  function Unposted(l: Local): int {
    if l.Posting? then l.r else 0
  }

  /** Permits a thread took and has not turned into an element. */
  function Owed(l: Local): int {
    match l
    case Trying(_, _, _, got) => got
    case Loaded(_, _, _, got, _) => got
    case GotOne(_, _) => 1
    case Done(_, _, got) => got
    case Dequeuing(n) => n
    case _ => 0
  }

  function Unsignalled(l: Local): int {
    if l.Enqueued? then l.n else 0
  }

  ghost predicate PhaseOk(phase: Phase, mode: Mode, max: nat, got: nat) {
    && got == (if phase == More then 1 else 0) && got <= max
    && (phase == More ==> mode.Block?) && (phase == Spin ==> mode.Block? && max > 0)
  }

  /** What a wait may return. */
  ghost predicate LocalOk(l: Local) {
    match l
    case Trying(phase, mode, max, got) => PhaseOk(phase, mode, max, got)
    case Loaded(phase, mode, max, got, seen) => PhaseOk(phase, mode, max, got)
    case Sleeping(mode, max) => mode.Block? && max > 0
    case Adjusting(mode, max) => mode == Block(true) && max > 0
    case Adjusted(mode, max, seen) => mode == Block(true) && max > 0
    case GotOne(mode, max) => mode.Block? && max > 0
    case Done(mode, max, got) => got <= max && (mode == Block(false) && max > 0 ==> got > 0)
    case Dequeuing(n) => n > 0
    case _ => true
  }

  ghost predicate PermitsOk(initial: nat, s: State) {
    initial + s.shared.signalled - s.shared.acquired == Pos(s.shared.count) + s.shared.os + Sum(Unposted, s.threads)
  }

  ghost predicate SleepersOk(s: State) {
    Sum(Registered, s.threads) == s.shared.os + Sum(Unposted, s.threads) + Pos(-s.shared.count)
  }

  ghost predicate ElementsOk(s: State) {
    s.shared.elements == s.shared.signalled - s.shared.acquired + Sum(Unsignalled, s.threads) + Sum(Owed, s.threads)
  }

  ghost predicate Inv(initial: nat, s: State) {
    && PermitsOk(initial, s) && SleepersOk(s) && ElementsOk(s)
    && forall t :: 0 <= t < |s.threads| ==> LocalOk(s.threads[t])
  }

  // ---- one step seen from the thread that takes it ----

  lemma CountsMove(g: Shared, l: Local, a: Action, g': Shared, l': Local)
    requires Move(g, l, a, g', l') && LocalOk(l)
    ensures g'.signalled - g'.acquired - Pos(g'.count) - g'.os - Unposted(l')
         == g.signalled - g.acquired - Pos(g.count) - g.os - Unposted(l)
    ensures Registered(l') - g'.os - Unposted(l') - Pos(-g'.count)
         == Registered(l) - g.os - Unposted(l) - Pos(-g.count)
  {
  }

  lemma ElementsMove(g: Shared, l: Local, a: Action, g': Shared, l': Local)
    requires Move(g, l, a, g', l') && LocalOk(l)
    ensures g'.elements - g'.signalled + g'.acquired - Unsignalled(l') - Owed(l')
         == g.elements - g.signalled + g.acquired - Unsignalled(l) - Owed(l)
    ensures LocalOk(l')
  {
  }

  lemma InvKept(initial: nat, s: State, t: nat, a: Action, s': State)
    requires Inv(initial, s) && StepOf(s, t, a, s')
    ensures Inv(initial, s')
  {
    var l, l' := s.threads[t], s'.threads[t];
    CountsMove(s.shared, l, a, s'.shared, l');
    ElementsMove(s.shared, l, a, s'.shared, l');
    SumUpdate(Registered, s.threads, t, l');
    SumUpdate(Unposted, s.threads, t, l');
    SumUpdate(Unsignalled, s.threads, t, l');
    SumUpdate(Owed, s.threads, t, l');
  }

  lemma InitHolds(initial: nat, s: State)
    requires Init(initial, s)
    ensures Inv(initial, s)
  {
    SumZero(Registered, s.threads);
    SumZero(Unposted, s.threads);
    SumZero(Unsignalled, s.threads);
    SumZero(Owed, s.threads);
  }

  lemma EveryStateOk(initial: nat, run: seq<State>, i: nat)
    requires IsRun(initial, run) && i < |run|
    ensures Inv(initial, run[i])
  {
    forall s | Init(initial, s) ensures Inv(initial, s) {
      InitHolds(initial, s);
    }
    forall s, s' | Inv(initial, s) && Step(s, s') ensures Inv(initial, s') {
      var t: nat, a :| StepOf(s, t, a, s');
      InvKept(initial, s, t, a, s');
    }
    Runs.Invariant(Protocol(initial), s => Inv(initial, s), run, i);
  }

  lemma WeightsPositive(threads: seq<Local>)
    ensures Positive(Registered, threads) && Positive(Unposted, threads)
    ensures Positive(Unsignalled, threads) && Positive(Owed, threads)
  {
  }

  // ---- what every run guarantees ----

  /** Permit conservation, through timeouts, bulk waits and delayed posts: what was signalled and
      not acquired is in m_count, in the OS semaphore or about to be posted. */
  lemma PermitsAreConserved(initial: nat, run: seq<State>, i: nat)
    requires IsRun(initial, run) && i < |run|
    ensures initial + run[i].shared.signalled ==
              run[i].shared.acquired + Pos(run[i].shared.count) + run[i].shared.os + Sum(Unposted, run[i].threads)
    ensures run[i].shared.acquired <= initial + run[i].shared.signalled
  {
    EveryStateOk(initial, run, i);
    WeightsPositive(run[i].threads);
    SumNonNegative(Unposted, run[i].threads);
  }

  /** No sleeping on an available permit: the registered waits are exactly the releases in the OS
      semaphore, those about to be posted, and the deficit of the count; so while a permit is to be
      had, every registered thread has a release of its own there or on its way. */
  lemma NobodySleepsOnAPermit(initial: nat, run: seq<State>, i: nat)
    requires IsRun(initial, run) && i < |run|
    ensures Sum(Registered, run[i].threads)
            == run[i].shared.os + Sum(Unposted, run[i].threads) + Pos(-run[i].shared.count)
    ensures run[i].shared.count >= 0 ==>
              Sum(Registered, run[i].threads) == run[i].shared.os + Sum(Unposted, run[i].threads)
    ensures run[i].shared.os == 0 && Sum(Unposted, run[i].threads) == 0 && Sum(Registered, run[i].threads) > 0 ==>
              run[i].shared.count < 0
              && initial + run[i].shared.signalled == run[i].shared.acquired
  {
    EveryStateOk(initial, run, i);
  }

  /** An untimed wait for at least one permit returns at least one, and no wait returns too many. */
  lemma WaitsReturnWhatWasAsked(initial: nat, run: seq<State>, i: nat, t: nat)
    requires IsRun(initial, run) && i < |run| && t < |run[i].threads| && run[i].threads[t].Done?
    ensures run[i].threads[t].got <= run[i].threads[t].max
    ensures run[i].threads[t].mode == Block(false) && run[i].threads[t].max > 0 ==> run[i].threads[t].got > 0
  {
    EveryStateOk(initial, run, i);
  }

  /** Whoever spins on the queue after a successful wait has an element there for each of its
      permits, and so have all of them together. */
  lemma SpinnersHaveElements(run: seq<State>, i: nat)
    requires IsRun(0, run) && i < |run|
    ensures Sum(Owed, run[i].threads) <= run[i].shared.elements
    ensures forall t :: 0 <= t < |run[i].threads| && run[i].threads[t].Dequeuing? ==>
              0 < run[i].threads[t].n <= run[i].shared.elements
  {
    EveryStateOk(0, run, i);
    WeightsPositive(run[i].threads);
    PermitsAreConserved(0, run, i);
    SumNonNegative(Unsignalled, run[i].threads);
    forall t | 0 <= t < |run[i].threads| && run[i].threads[t].Dequeuing?
      ensures 0 < run[i].threads[t].n <= run[i].shared.elements
    {
      SumAtLeast(Owed, run[i].threads, t);
    }
  }

  /** With nobody part-way through anything, the count is exactly the number of elements, so the next
      consumer gets one if there is one. */
  lemma QuietMeansCounted(run: seq<State>, i: nat)
    requires IsRun(0, run) && i < |run|
    requires forall t :: 0 <= t < |run[i].threads| ==> run[i].threads[t] == Idle
    ensures run[i].shared.count == run[i].shared.elements && run[i].shared.os == 0
  {
    EveryStateOk(0, run, i);
    SumZero(Registered, run[i].threads);
    SumZero(Unposted, run[i].threads);
    SumZero(Unsignalled, run[i].threads);
    SumZero(Owed, run[i].threads);
  }
}
