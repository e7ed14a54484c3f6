/** The activation protocol of an actor: any number of threads push messages, request
    destruction and run activations, one atomic access at a time. */
module ActorProtocol {
  import opened Mailbox
  import opened Numbers
  import Runs

  /** Messages are identified by the address that is pushed. */
  type Message = nat

  /** One call of a message's Execute: by which activation, from which mailbox, which message. */
  datatype Execution = Execution(activation: nat, box: nat, message: Message)

  /** Where a thread is between two atomic accesses. */
  datatype Local =
    | Idle
    // PushMessage
    | Claimed(box: nat, place: nat)   // a place is claimed, the message is not yet visible
    | Visible                         // visible, not yet counted
    // AsyncDestroy
    | Marked                          // the destroy flag is set, its credit is not yet counted
    // TryActivate
    | Trying                          // before the CAS on the activation flag
    | Won                             // CAS won, run not yet scheduled
    // PullMailboxAndRun
    | Entered                         // before the instance check
    | FoundAlive(act: nat)            // before reading the destroy flag
    | Doomed                          // destroy flag seen, before the reset
    | Wiped                           // instance reset, before lowering the activation flag
    | Lowered                         // flag lowered, before giving back the destroy credit
    | Limiting(act: nat)              // before reading the counter for the limit
    | Draining(act: nat, box: nat, done: nat, limit: nat)
    | Popped(act: nat, box: nat, done: nat, limit: nat, message: Message)
    | Executing(act: nat, box: nat, done: nat, limit: nat)
    | Drained(done: nat)              // before subtracting
    | Settled                         // before lowering the activation flag
    | Stored                          // flag lowered, before the second look at the counter

  datatype Config = Config(
    maxPerActivation: nat,
    capacities: seq<nat>              // one per mailbox, 0 for an unbounded one
  )

  /** What a run has done so far; no step reads it. */
  datatype History = History(
    activations: nat,                 // activations that found the instance alive
    deadEnds: nat,                    // activations that found it gone
    executed: seq<Execution>,
    resets: nat,
    credited: bool,                   // the destroy credit was added to the counter
    repaid: bool                      // ... and was subtracted again
  )

  datatype Shared = Shared(
    count: int,
    activated: bool,
    destroyRequested: bool,
    alive: bool,
    boxes: seq<Box<Message>>,
    scheduled: nat,
    past: History
  )

  datatype State = State(shared: Shared, threads: seq<Local>)

  datatype Action =
    | Claim(box: nat, message: Message)
    | Publish
    | Add
    | RequestDestroy
    | AddCredit
    | TryActivate
    | Schedule
    | Enter
    | CheckInstance
    | CheckDestroy
    | Reset
    | LowerDead
    | Repay
    | ReadLimit
    | TryPop
    | BeginExecute
    | EndExecute
    | Subtract
    | Lower
    | LookAgain

  // The counter is a size_t: only its value modulo 2^64 is stored, so a transiently negative
  // value reads as a huge one.
  const SIZE_T_RANGE: nat := 0x1_0000_0000_0000_0000

  function AsSizeT(c: int): nat {
    c % SIZE_T_RANGE
  }

  ghost predicate Init(c: Config, s: State) {
    var g := s.shared;
    && |c.capacities| == |g.boxes| >= 1
    && g.count == 0 && !g.activated && !g.destroyRequested && g.alive && g.scheduled == 0
    && (forall i :: 0 <= i < |g.boxes| ==> g.boxes[i] == Fresh())
    && g.past == History(0, 0, [], 0, false, false)
    && (forall t :: 0 <= t < |s.threads| ==> s.threads[t] == Idle)
  }

  /** A bounded mailbox refuses a push when it is full; the refusal throws and changes nothing. */
  predicate HasRoom(c: Config, g: Shared, box: nat) {
    box < |g.boxes| && box < |c.capacities|
    && (c.capacities[box] == 0 || Unpopped(g.boxes[box]) < c.capacities[box])
  }

  /** What one atomic access of a thread at program point l does to the shared state and to the thread. */
  ghost predicate Move(c: Config, g: Shared, l: Local, a: Action, g': Shared, l': Local) {
    match a
    case Claim(box, m) =>
      && l.Idle? && HasRoom(c, g, box)
      && g' == g.(boxes := g.boxes[box := Mailbox.Claim(g.boxes[box], m)])
      && l' == Claimed(box, |g.boxes[box].claimed|)
    case Publish =>
      && l.Claimed? && l.box < |g.boxes|
      && g' == g.(boxes := g.boxes[l.box := Mailbox.Publish(g.boxes[l.box], l.place)])
      && l' == Visible
    case Add =>
      l.Visible? && g' == g.(count := g.count + 1) && l' == Trying
    case RequestDestroy =>
      && l.Idle? && g' == g.(destroyRequested := true)
      && l' == (if g.destroyRequested then Idle else Marked)
    case AddCredit =>
      l.Marked? && g' == g.(count := g.count + 1, past := g.past.(credited := true)) && l' == Trying
    case TryActivate =>
      l.Trying? && g' == g.(activated := true) && l' == (if g.activated then Idle else Won)
    case Schedule =>
      l.Won? && g' == g.(scheduled := g.scheduled + 1) && l' == Idle
    case Enter =>
      l.Idle? && g.scheduled > 0 && g' == g.(scheduled := g.scheduled - 1) && l' == Entered
    case CheckInstance =>
      && l.Entered?
      && (if g.alive then
            && g' == g.(past := g.past.(activations := g.past.activations + 1))
            && l' == FoundAlive(g.past.activations + 1)
          else
            && g' == g.(past := g.past.(deadEnds := g.past.deadEnds + 1))
            && l' == Idle)
    case CheckDestroy =>
      l.FoundAlive? && g' == g && l' == (if g.destroyRequested then Doomed else Limiting(l.act))
    case Reset =>
      l.Doomed? && g' == g.(alive := false, past := g.past.(resets := g.past.resets + 1)) && l' == Wiped
    case LowerDead =>
      l.Wiped? && g' == g.(activated := false) && l' == Lowered
    case Repay =>
      l.Lowered? && g' == g.(count := g.count - 1, past := g.past.(repaid := true)) && l' == Idle
    case ReadLimit =>
      l.Limiting? && g' == g && l' == Draining(l.act, 0, 0, Min(c.maxPerActivation, AsSizeT(g.count)))
    case TryPop =>
      && l.Draining?
      && (if l.box >= |g.boxes| then
            g' == g && l' == Drained(l.done)
          else if HeadVisible(g.boxes[l.box]) then
            && g' == g.(boxes := g.boxes[l.box := Pop(g.boxes[l.box])])
            && l' == Popped(l.act, l.box, l.done, l.limit, g.boxes[l.box].claimed[g.boxes[l.box].popped])
          else
            g' == g && l' == Draining(l.act, l.box + 1, l.done, l.limit))
    case BeginExecute =>
      && l.Popped?
      && g' == g.(past := g.past.(executed := g.past.executed + [Execution(l.act, l.box, l.message)]))
      && l' == Executing(l.act, l.box, l.done, l.limit)
    case EndExecute =>
      && l.Executing? && g' == g
      && l' == (if l.done + 1 >= l.limit then Drained(l.done + 1)
                else Draining(l.act, l.box, l.done + 1, l.limit))
    case Subtract =>
      l.Drained? && g' == g.(count := g.count - l.done) && l' == Settled
    case Lower =>
      l.Settled? && g' == g.(activated := false) && l' == Stored
    case LookAgain =>
      l.Stored? && g' == g && l' == (if AsSizeT(g.count) != 0 then Trying else Idle)
  }

  /** Thread t takes one step; the others stay where they are. */
  ghost predicate StepOf(c: Config, s: State, t: nat, a: Action, s': State) {
    && t < |s.threads| == |s'.threads|
    && s'.threads == s.threads[t := s'.threads[t]]
    && Move(c, s.shared, s.threads[t], a, s'.shared, s'.threads[t])
  }

  ghost predicate Step(c: Config, s: State, s': State) {
    exists t: nat, a :: StepOf(c, s, t, a, s')
  }

  ghost function Protocol(c: Config): Runs.System<State> {
    Runs.System(s => Init(c, s), (s, s') => Step(c, s, s'))
  }

  /** A run: any interleaving of the threads' steps. */
  ghost predicate IsRun(c: Config, run: seq<State>) {
    Runs.IsRun(Protocol(c), run)
  }
}
