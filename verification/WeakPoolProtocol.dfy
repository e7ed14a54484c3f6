/** The weak-priority pool: operations are pushed to randomly chosen sub-queues, each a bitmap over
    64 stacks behind a lock; a worker that got a permit looks at two sub-queues until it pops one.
    The semaphore appears as the number of permits signalled and not acquired, which the lightweight
    semaphore conserves. */
module WeakPoolProtocol {
  import opened Options
  import Runs

  type Operation = nat

  const LEVELS: nat := 64

  datatype Task = Task(op: Operation, priority: nat)

  /** bits is the bitmap; slots[p] is a stack with its top at the end. */
  datatype SubQueue = SubQueue(bits: set<nat>, slots: seq<seq<Operation>>, locked: bool)

  datatype Pc =
    | Free
    // EnqueueOperation
    | Entering(task: Task, q: nat)         // before locking the sub-queue
    | Pushing(task: Task, q: nat)          // locked
    | Marking(q: nat, priority: nat)       // pushed, bit not set yet
    | Releasing(q: nat)
    | Signalling                           // unlocked, not signalled yet
    // TryDequeueOperation
    | Permitted                            // a permit is taken; the retry loop
    | SawFirst(a: nat, b: nat, bits: set<nat>)
    | Locking(q: nat, other: Option<nat>)
    | Looking(q: nat, other: Option<nat>)  // locked
    | Clearing(q: nat, priority: nat, op: Operation) // popped the last of its level, bit not cleared yet
    | Leaving(q: nat, found: Option<Operation>, other: Option<nat>)
    | Broken                               // the stack of the chosen level was empty

  /** current is the operation being executed; local is the thread's local slot. */
  datatype Local = Local(worker: bool, local: Option<Task>, current: Option<Operation>, pc: Pc)

  /** Operations are numbered as they are enqueued; executed is history. */
  datatype Shared = Shared(subs: seq<SubQueue>, permits: nat, enqueued: nat, executed: seq<Operation>)

  datatype State = State(shared: Shared, threads: seq<Local>)

  datatype Action =
    | Enqueue(priority: nat, q: nat) | Lock | Push | Mark | Unlock | Signal
    | Wait | PeekFirst(a: nat, b: nat) | PeekSecond | Look(priority: nat) | Clear | Leave
    | EndExecute

  /** The lowest-numbered set bit. */
  ghost predicate IsLowest(p: nat, bits: set<nat>) {
    p in bits && forall r :: r in bits ==> p <= r
  }

  /** Bitmap b is preferred to bitmap a: a is empty, or b's lowest bit is lower. */
  ghost predicate Prefers(a: set<nat>, b: set<nat>) {
    a == {} || exists p, r :: IsLowest(p, a) && IsLowest(r, b) && r < p
  }

  ghost predicate Init(s: State) {
    var g := s.shared;
    && |g.subs| >= 2 && g.permits == 0 && g.enqueued == 0 && g.executed == []
    && (forall q :: 0 <= q < |g.subs| ==>
          g.subs[q].bits == {} && !g.subs[q].locked && |g.subs[q].slots| == LEVELS
          && forall p :: 0 <= p < LEVELS ==> g.subs[q].slots[p] == [])
    && forall t :: 0 <= t < |s.threads| ==>
         s.threads[t].local == None && s.threads[t].current == None && s.threads[t].pc == Free
  }

  function Last(ops: seq<Operation>): Operation
    requires ops != []
  {
    ops[|ops| - 1]
  }

  /** The sub-queue at which a step happens, with its new value. */
  ghost predicate At(g: Shared, q: nat, sub: SubQueue, g': Shared) {
    q < |g.subs| && g' == g.(subs := g.subs[q := sub])
  }

  /** A new operation is put into the local slot, pushed, or evicts the one in the slot. */
  ghost predicate Enqueues(g: Shared, l: Local, priority: nat, q: nat, g': Shared, l': Local) {
    && l.pc.Free? && (l.worker ==> l.current.Some?) && q < |g.subs|
    && (if priority >= LEVELS then g' == g && l' == l             // throws
        else
          var task := Task(g.enqueued, priority);
          && g' == g.(enqueued := g.enqueued + 1)
          && l' == (if l.worker && l.local.None? then l.(local := Some(task))
                    else if l.worker && priority < l.local.value.priority then
                      l.(local := Some(task), pc := Entering(l.local.value, q))
                    else l.(pc := Entering(task, q))))
  }

  ghost predicate Looks(g: Shared, l: Local, pri: nat, g': Shared, l': Local) {
    && l.pc.Looking? && l.pc.q < |g.subs|
    && var sub, q := g.subs[l.pc.q], l.pc.q;
       if sub.bits == {} then g' == g && l' == l.(pc := Leaving(q, None, l.pc.other))
       else
         && IsLowest(pri, sub.bits)
         && (if pri >= |sub.slots| || sub.slots[pri] == [] then g' == g && l' == l.(pc := Broken)
             else
               var slot := sub.slots[pri];
               && At(g, q, sub.(slots := sub.slots[pri := slot[..|slot| - 1]]), g')
               && l' == l.(pc := if |slot| == 1 then Clearing(q, pri, Last(slot))
                                 else Leaving(q, Some(Last(slot)), None)))
  }

  /** The end of try_pop: unlock, then execute what was popped, try the other sub-queue, or retry. */
  ghost predicate Leaves(g: Shared, l: Local, g': Shared, l': Local) {
    && l.pc.Leaving? && l.pc.q < |g.subs|
    && var g1 := g.(subs := g.subs[l.pc.q := g.subs[l.pc.q].(locked := false)]);
       match l.pc.found
       case Some(op) => g' == g1.(executed := g.executed + [op]) && l' == l.(current := Some(op), pc := Free)
       case None =>
         && g' == g1
         && l' == l.(pc := match l.pc.other case Some(o) => Locking(o, None) case None => Permitted)
  }

  ghost predicate Move(g: Shared, l: Local, a: Action, g': Shared, l': Local) {
    match a
    case Enqueue(priority, q) => Enqueues(g, l, priority, q, g', l')
    case Lock =>
      && (l.pc.Entering? || l.pc.Locking?) && l.pc.q < |g.subs| && !g.subs[l.pc.q].locked
      && At(g, l.pc.q, g.subs[l.pc.q].(locked := true), g')
      && l' == l.(pc := if l.pc.Entering? then Pushing(l.pc.task, l.pc.q) else Looking(l.pc.q, l.pc.other))
    case Push =>
      && l.pc.Pushing? && l.pc.q < |g.subs| && l.pc.task.priority < |g.subs[l.pc.q].slots|
      && l' == l.(pc := Marking(l.pc.q, l.pc.task.priority))
      && var sub, p := g.subs[l.pc.q], l.pc.task.priority;
         At(g, l.pc.q, sub.(slots := sub.slots[p := sub.slots[p] + [l.pc.task.op]]), g')
    case Mark =>
      && l.pc.Marking? && l.pc.q < |g.subs|
      && At(g, l.pc.q, g.subs[l.pc.q].(bits := g.subs[l.pc.q].bits + {l.pc.priority}), g')
      && l' == l.(pc := Releasing(l.pc.q))
    case Unlock =>
      && l.pc.Releasing? && l.pc.q < |g.subs|
      && At(g, l.pc.q, g.subs[l.pc.q].(locked := false), g') && l' == l.(pc := Signalling)
    case Signal =>
      l.pc.Signalling? && g' == g.(permits := g.permits + 1) && l' == l.(pc := Free)
    case Wait =>
      && l.worker && l.current.None? && l.pc.Free? && g.permits > 0
      && g' == g.(permits := g.permits - 1) && l' == l.(pc := Permitted)
    case PeekFirst(a, b) =>
      && l.pc.Permitted? && a < |g.subs| && b < |g.subs| && a != b
      && g' == g && l' == l.(pc := SawFirst(a, b, g.subs[a].bits))
    case PeekSecond =>
      && l.pc.SawFirst? && l.pc.b < |g.subs| && g' == g
      && var bits := g.subs[l.pc.b].bits;
         l' == l.(pc := if l.pc.bits == {} && bits == {} then Permitted
                        else if Prefers(l.pc.bits, bits) then Locking(l.pc.b, Some(l.pc.a))
                        else Locking(l.pc.a, Some(l.pc.b)))
    case Look(priority) => Looks(g, l, priority, g', l')
    case Clear =>
      && l.pc.Clearing? && l.pc.q < |g.subs|
      && At(g, l.pc.q, g.subs[l.pc.q].(bits := g.subs[l.pc.q].bits - {l.pc.priority}), g')
      && l' == l.(pc := Leaving(l.pc.q, Some(l.pc.op), None))
    case Leave => Leaves(g, l, g', l')
    case EndExecute =>
      && l.worker && l.current.Some? && l.pc.Free?
      && (match l.local
          case Some(task) =>
            && g' == g.(executed := g.executed + [task.op])
            && l' == l.(local := None, current := Some(task.op))
          case None => g' == g && l' == l.(current := None))
  }

  ghost predicate StepOf(s: State, t: nat, a: Action, s': State) {
    && t < |s.threads| == |s'.threads|
    && s'.threads == s.threads[t := s'.threads[t]]
    && Move(s.shared, s.threads[t], a, s'.shared, s'.threads[t])
  }

  ghost predicate Step(s: State, s': State) {
    exists t: nat, a :: StepOf(s, t, a, s')
  }

  ghost function Protocol(): Runs.System<State> {
    Runs.System(s => Init(s), (s, s') => Step(s, s'))
  }

  ghost predicate IsRun(run: seq<State>) {
    Runs.IsRun(Protocol(), run)
  }
}
