/** The bounded ring: any number of producers claim positions by CAS and publish them through
    the sequence number of their cell; one consumer releases them. */
module RingProtocol {
  import Modular
  import Runs

  type Value = nat

  datatype Cell = Cell(sequence: nat, data: Value)

  /** A producer inside Push. */
  datatype Local =
    | Idle
    | Started(v: Value)               // before (re)loading enqueue_pos_
    | Loaded(pos: nat, v: Value)      // before loading the cell's sequence
    | Ready(pos: nat, v: Value)       // the cell looked free, before the CAS
    | Claimed(pos: nat, v: Value)     // CAS won, before writing the data
    | Filled(pos: nat)                // data written, before the sequence store

  /** The consumer inside Pop. */
  datatype Reader =
    | Waiting
    | Saw                             // the sequence announced an element
    | Broken                          // the sequence was ahead: the check throws
    | Took                            // data moved out, before the sequence store
    | Released                        // sequence stored, before advancing dequeue_pos_

  datatype Shared = Shared(
    cells: seq<Cell>,
    enqueuePos: nat,
    dequeuePos: nat,
    // history: values in the order of the winning CASes, and values handed to the consumer
    claims: seq<Value>,
    taken: seq<Value>
  )

  datatype State = State(shared: Shared, reader: Reader, threads: seq<Local>)

  datatype Action = Start(v: Value) | Load | ReadSequence | Cas(spurious: bool) | Fill | Publish

  datatype ReaderAction = Look | Take | Release | Advance

  /** The smallest power of two that is at least n. */
  function BitCeil(n: nat): nat {
    BitCeilFrom(1, n)
  }

  function BitCeilFrom(p: nat, n: nat): nat
    requires p > 0
    decreases n - p
  {
    if n <= p then p else BitCeilFrom(2 * p, n)
  }

  /** The constructor's rounding: at least two cells, and a power of two. */
  function CapacityFor(requested: nat): nat {
    BitCeil(if requested < 2 then 2 else requested)
  }

  /** pos & mask_: the capacity is a power of two. */
  function Slot(pos: nat, n: nat): (i: nat)
    requires n > 0
    ensures i < n
  {
    Modular.Wrap(pos, n)
  }

  ghost predicate Init(n: nat, s: State) {
    && n >= 2 && |s.shared.cells| == n
    && (forall i :: 0 <= i < n ==> s.shared.cells[i].sequence == i)
    && s.shared.enqueuePos == 0 && s.shared.dequeuePos == 0
    && s.shared.claims == [] && s.shared.taken == []
    && s.reader == Waiting
    && forall t :: 0 <= t < |s.threads| ==> s.threads[t] == Idle
  }

  ghost predicate Move(n: nat, g: Shared, l: Local, a: Action, g': Shared, l': Local)
    requires n > 0 && |g.cells| == n
  {
    match a
    case Start(v) =>
      l.Idle? && g' == g && l' == Started(v)
    case Load =>
      l.Started? && g' == g && l' == Loaded(g.enqueuePos, l.v)
    case ReadSequence =>
      && l.Loaded? && g' == g
      && var sequence := g.cells[Slot(l.pos, n)].sequence;
         l' == if sequence == l.pos then Ready(l.pos, l.v)
               else if sequence < l.pos then Idle      // full: Push returns false
               else Started(l.v)
    case Cas(spurious) =>
      && l.Ready?
      && (if g.enqueuePos == l.pos && !spurious then
            && g' == g.(enqueuePos := l.pos + 1, claims := g.claims + [l.v])
            && l' == Claimed(l.pos, l.v)
          else
            g' == g && l' == Loaded(g.enqueuePos, l.v))
    case Fill =>
      && l.Claimed? && l' == Filled(l.pos)
      && var i := Slot(l.pos, n);
         g' == g.(cells := g.cells[i := g.cells[i].(data := l.v)])
    case Publish =>
      && l.Filled? && l' == Idle
      && var i := Slot(l.pos, n);
         g' == g.(cells := g.cells[i := g.cells[i].(sequence := l.pos + 1)])
  }

  ghost predicate ReaderMove(n: nat, g: Shared, k: Reader, a: ReaderAction, g': Shared, k': Reader)
    requires n > 0 && |g.cells| == n
  {
    var i := Slot(g.dequeuePos, n);
    match a
    case Look =>
      && k.Waiting? && g' == g
      && k' == (if g.cells[i].sequence < g.dequeuePos + 1 then Waiting   // empty: Pop returns false
                else if g.cells[i].sequence == g.dequeuePos + 1 then Saw
                else Broken)
    case Take =>
      k.Saw? && g' == g.(taken := g.taken + [g.cells[i].data]) && k' == Took
    case Release =>
      k.Took? && g' == g.(cells := g.cells[i := g.cells[i].(sequence := g.dequeuePos + n)]) && k' == Released
    case Advance =>
      k.Released? && g' == g.(dequeuePos := g.dequeuePos + 1) && k' == Waiting
  }

  ghost predicate ProducerStep(n: nat, s: State, t: nat, a: Action, s': State) {
    && n > 0 && |s.shared.cells| == n
    && t < |s.threads| == |s'.threads| && s'.reader == s.reader
    && s'.threads == s.threads[t := s'.threads[t]]
    && Move(n, s.shared, s.threads[t], a, s'.shared, s'.threads[t])
  }

  ghost predicate ConsumerStep(n: nat, s: State, a: ReaderAction, s': State) {
    && n > 0 && |s.shared.cells| == n && s'.threads == s.threads
    && ReaderMove(n, s.shared, s.reader, a, s'.shared, s'.reader)
  }

  ghost predicate Step(n: nat, s: State, s': State) {
    || (exists t: nat, a :: ProducerStep(n, s, t, a, s'))
    || (exists a :: ConsumerStep(n, s, a, s'))
  }

  ghost function Protocol(n: nat): Runs.System<State> {
    Runs.System(s => Init(n, s), (s, s') => Step(n, s, s'))
  }

  ghost predicate IsRun(n: nat, run: seq<State>) {
    Runs.IsRun(Protocol(n), run)
  }
}
