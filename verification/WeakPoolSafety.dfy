/** The invariant of the weak-priority pool, and what every run guarantees. */
module WeakPoolSafety {
  import opened Counting
  import opened Numbers
  import opened Options
  import Runs
  import opened WeakPoolProtocol

  predicate Inside(pc: Pc) {
    pc.Pushing? || pc.Marking? || pc.Releasing? || pc.Looking? || pc.Clearing? || pc.Leaving?
  }

  /** Threads inside the critical section of sub-queue q. */
  function HoldsLock(q: nat): Local -> int {
    (l: Local) => Bit(Inside(l.pc) && l.pc.q == q)
  }

  /** Threads between the change of a stack and the change of its bit. */
  function Editing(q: nat, p: nat): Local -> int {
    (l: Local) => Bit((l.pc.Marking? || l.pc.Clearing?) && l.pc.q == q && l.pc.priority == p)
  }

  /** Workers that took a permit and have no operation for it yet. */
  function Seeking(l: Local): int {
    Bit(l.pc.Permitted? || l.pc.SawFirst? || l.pc.Locking? || l.pc.Looking? || (l.pc.Leaving? && l.pc.found.None?))
  }

  function Unsignalled(l: Local): int {
    Bit(l.pc.Marking? || l.pc.Releasing? || l.pc.Signalling?)
  }

  /** How often a thread holds an operation that is neither in a sub-queue nor executed. */
  function Holds(op: Operation): Local -> int {
    (l: Local) => InSlot(op, l.local) + InHand(op, l.pc)
  }

  function InSlot(op: Operation, slot: Option<Task>): int {
    Bit(slot.Some? && slot.value.op == op)
  }

  function InHand(op: Operation, pc: Pc): int {
    match pc
    case Entering(task, _) => Bit(task.op == op)
    case Pushing(task, _) => Bit(task.op == op)
    case Clearing(_, _, o) => Bit(o == op)
    case Leaving(_, found, _) => Bit(found == Some(op))
    case _ => 0
  }

  function Length(slot: seq<Operation>): int {
    |slot|
  }

  function Size(sub: SubQueue): int {
    Sum(Length, sub.slots)
  }

  function TimesIn(op: Operation): seq<Operation> -> int {
    (slot: seq<Operation>) => Times(op, slot)
  }

  function Stored(op: Operation): SubQueue -> int {
    (sub: SubQueue) => Sum(TimesIn(op), sub.slots)
  }

  // ---- the invariant ----

  predicate Agrees(sub: SubQueue, p: nat) {
    p in sub.bits <==> p < |sub.slots| && sub.slots[p] != []
  }

  ghost predicate LockAt(s: State, q: nat) {
    Sum(HoldsLock(q), s.threads) == Bit(q < |s.shared.subs| && s.shared.subs[q].locked)
  }

  ghost predicate BitAt(s: State, q: nat, p: nat) {
    q < |s.shared.subs| && !Agrees(s.shared.subs[q], p) ==> Sum(Editing(q, p), s.threads) > 0
  }

  ghost predicate PlaceAt(s: State, op: Operation) {
    Sum(Holds(op), s.threads) + Sum(Stored(op), s.shared.subs) + Times(op, s.shared.executed)
      == Bit(op < s.shared.enqueued)
  }

  ghost predicate SizesOk(s: State) {
    Sum(Size, s.shared.subs) == s.shared.permits + Sum(Seeking, s.threads) + Sum(Unsignalled, s.threads)
  }

  ghost predicate Shaped(g: Shared) {
    |g.subs| >= 2 && forall q :: 0 <= q < |g.subs| ==> |g.subs[q].slots| == LEVELS
  }

  /** The stack of a level; empty if there is none. */
  function StackAt(g: Shared, q: nat, p: nat): seq<Operation> {
    if q < |g.subs| && p < |g.subs[q].slots| then g.subs[q].slots[p] else []
  }

  ghost predicate LocalOk(g: Shared, l: Local) {
    && (l.local.Some? ==> l.worker && l.current.Some? && l.local.value.priority < LEVELS)
    && (Seeking(l) == 1 || l.pc.Clearing? || l.pc.Leaving? ==> l.worker && l.current.None?)
    && (l.pc.Entering? || l.pc.Pushing? ==> l.pc.task.priority < LEVELS)
    && (l.pc.Entering? || l.pc.Locking? || Inside(l.pc) ==> l.pc.q < |g.subs|)
    && (l.pc.SawFirst? ==> l.pc.a < |g.subs| && l.pc.b < |g.subs|)
    && (l.pc.Locking? || l.pc.Looking? || l.pc.Leaving? ==> (l.pc.other.Some? ==> l.pc.other.value < |g.subs|))
    && (l.pc.Marking? ==> l.pc.priority < LEVELS && StackAt(g, l.pc.q, l.pc.priority) != [])
    && (l.pc.Clearing? ==> l.pc.priority < LEVELS && StackAt(g, l.pc.q, l.pc.priority) == [])
    && !l.pc.Broken?
  }

  ghost predicate Inv(s: State) {
    && Shaped(s.shared) && SizesOk(s)
    && (forall q :: LockAt(s, q)) && (forall q, p :: BitAt(s, q, p)) && (forall op :: PlaceAt(s, op))
    && (forall t :: 0 <= t < |s.threads| ==> LocalOk(s.shared, s.threads[t]))
  }

  lemma WeightsPositive(threads: seq<Local>, q: nat, p: nat)
    ensures Positive(HoldsLock(q), threads) && Positive(Editing(q, p), threads)
    ensures Positive(Seeking, threads) && Positive(Unsignalled, threads)
  {
  }

  // ---- the lock excludes ----

  lemma OneInside(s: State, t: nat)
    requires Inv(s) && t < |s.threads| && Inside(s.threads[t].pc)
    ensures s.threads[t].pc.q < |s.shared.subs| && s.shared.subs[s.threads[t].pc.q].locked
    ensures forall u :: 0 <= u < |s.threads| && u != t && Inside(s.threads[u].pc) ==>
              s.threads[u].pc.q != s.threads[t].pc.q
  {
    var q := s.threads[t].pc.q;
    assert LockAt(s, q);
    WeightsPositive(s.threads, q, 0);
    SumAtLeast(HoldsLock(q), s.threads, t);
    forall u | 0 <= u < |s.threads| && u != t && Inside(s.threads[u].pc) ensures s.threads[u].pc.q != q {
      SumAtLeastTwo(HoldsLock(q), s.threads, if t < u then t else u, if t < u then u else t);
    }
  }

  /** Whoever looks at a sub-queue under its lock sees a bitmap that agrees with the stacks. */
  lemma LookerSeesTheTruth(s: State, t: nat, p: nat)
    requires Inv(s) && t < |s.threads| && s.threads[t].pc.Looking?
    ensures s.threads[t].pc.q < |s.shared.subs| && Agrees(s.shared.subs[s.threads[t].pc.q], p)
  {
    var q := s.threads[t].pc.q;
    OneInside(s, t);
    forall u | 0 <= u < |s.threads| ensures Editing(q, p)(s.threads[u]) == 0 {
    }
    SumZero(Editing(q, p), s.threads);
    assert BitAt(s, q, p);
  }

  // ---- one step seen from the thread that takes it ----

  /** Only a thread inside the critical section of q changes its stacks. */
  lemma StacksMove(g: Shared, l: Local, a: Action, g': Shared, l': Local, q: nat)
    requires Move(g, l, a, g', l') && Shaped(g)
    ensures Shaped(g') && |g'.subs| == |g.subs|
    ensures q < |g.subs| && !(Inside(l.pc) && l.pc.q == q) ==> g'.subs[q].slots == g.subs[q].slots
  {
  }

  lemma LockMove(g: Shared, l: Local, a: Action, g': Shared, l': Local, q: nat)
    requires Move(g, l, a, g', l') && (Inside(l.pc) ==> l.pc.q < |g.subs| && g.subs[l.pc.q].locked)
    requires !l'.pc.Broken?
    ensures HoldsLock(q)(l') - Bit(q < |g'.subs| && g'.subs[q].locked)
         == HoldsLock(q)(l) - Bit(q < |g.subs| && g.subs[q].locked)
  {
  }

  lemma BitMove(g: Shared, l: Local, a: Action, g': Shared, l': Local, q: nat, p: nat)
    requires Move(g, l, a, g', l') && LocalOk(g, l) && Shaped(g) && q < |g.subs|
    ensures |g'.subs| == |g.subs|
    ensures !Agrees(g'.subs[q], p) && Editing(q, p)(l') == 0 ==>
              !Agrees(g.subs[q], p) && Editing(q, p)(l) == 0
  {
  }

  lemma LocalMove(g: Shared, l: Local, a: Action, g': Shared, l': Local)
    requires Move(g, l, a, g', l') && LocalOk(g, l) && Shaped(g)
    requires l.pc.Looking? && a.Look? ==> Agrees(g.subs[l.pc.q], a.priority)
    ensures LocalOk(g', l')
  {
  }

  lemma OtherMove(g: Shared, l: Local, a: Action, g': Shared, l': Local, u: Local)
    requires Move(g, l, a, g', l') && Shaped(g) && LocalOk(g, u)
    requires Inside(l.pc) && Inside(u.pc) ==> l.pc.q != u.pc.q
    ensures LocalOk(g', u)
  {
    if Inside(u.pc) {
      StacksMove(g, l, a, g', l', u.pc.q);
    } else {
      StacksMove(g, l, a, g', l', 0);
    }
  }

  // ---- where operations are ----

  /** How many operations a step stores in the sub-queues. */
  function Pushed(a: Action, l': Local): int {
    Bit(a.Push?) - Bit(a.Look? && (l'.pc.Clearing? || (l'.pc.Leaving? && l'.pc.found.Some?)))
  }

  lemma SizeMove(g: Shared, l: Local, a: Action, g': Shared, l': Local)
    requires Move(g, l, a, g', l') && Shaped(g)
    ensures Sum(Size, g'.subs) == Sum(Size, g.subs) + Pushed(a, l')
  {
    if a.Push? || a.Look? || a.Lock? || a.Mark? || a.Unlock? || a.Clear? || a.Leave? {
      var q := l.pc.q;
      SumUpdate(Size, g.subs, q, g'.subs[q]);
      assert g'.subs == g.subs[q := g'.subs[q]];
      if a.Push? {
        SumUpdate(Length, g.subs[q].slots, l.pc.task.priority, g'.subs[q].slots[l.pc.task.priority]);
      } else if a.Look? && (l'.pc.Clearing? || (l'.pc.Leaving? && l'.pc.found.Some?)) {
        SumUpdate(Length, g.subs[q].slots, a.priority, g'.subs[q].slots[a.priority]);
      }
    }
  }

  lemma CountsMove(g: Shared, l: Local, a: Action, g': Shared, l': Local)
    requires Move(g, l, a, g', l') && LocalOk(g, l)
    ensures Pushed(a, l') - Seeking(l') - Unsignalled(l') - g'.permits == -Seeking(l) - Unsignalled(l) - g.permits
            || l'.pc.Broken?
  {
  }

  lemma PushStores(g: Shared, l: Local, g': Shared, l': Local, op: Operation)
    requires Move(g, l, Push, g', l') && Shaped(g)
    ensures Sum(Stored(op), g'.subs) == Sum(Stored(op), g.subs) + Bit(op == l.pc.task.op)
  {
    var q, p := l.pc.q, l.pc.task.priority;
    SumUpdate(Stored(op), g.subs, q, g'.subs[q]);
    SumUpdate(TimesIn(op), g.subs[q].slots, p, g'.subs[q].slots[p]);
    TimesAppend(op, g.subs[q].slots[p], l.pc.task.op);
  }

  lemma LookTakes(g: Shared, l: Local, priority: nat, g': Shared, l': Local, op: Operation)
    requires Move(g, l, Look(priority), g', l') && Shaped(g)
    ensures Sum(Stored(op), g'.subs) + InHand(op, l'.pc) == Sum(Stored(op), g.subs)
    ensures g'.executed == g.executed && g'.enqueued == g.enqueued && l'.local == l.local
  {
    if g'.subs != g.subs {
      var q := l.pc.q;
      SumUpdate(Stored(op), g.subs, q, g'.subs[q]);
      SumUpdate(TimesIn(op), g.subs[q].slots, priority, g'.subs[q].slots[priority]);
      TimesLast(op, g.subs[q].slots[priority]);
    }
  }

  /** Locking, unlocking and changing bits moves no operation. */
  lemma SameStacksSameStored(subs: seq<SubQueue>, q: nat, sub: SubQueue, op: Operation)
    requires q < |subs| && sub.slots == subs[q].slots
    ensures Sum(Stored(op), subs[q := sub]) == Sum(Stored(op), subs)
  {
    SumUpdate(Stored(op), subs, q, sub);
  }

  lemma BitStepsStore(g: Shared, l: Local, a: Action, g': Shared, l': Local, op: Operation)
    requires Move(g, l, a, g', l') && (a.Lock? || a.Mark? || a.Unlock? || a.Clear? || a.Leave?)
    ensures Sum(Stored(op), g'.subs) == Sum(Stored(op), g.subs)
  {
    SameStacksSameStored(g.subs, l.pc.q, g'.subs[l.pc.q], op);
  }

  /** Executing takes the operation out of the thread's hand or local slot. */
  lemma ExecuteMoves(g: Shared, l: Local, a: Action, g': Shared, l': Local, op: Operation)
    requires Move(g, l, a, g', l') && (a.Leave? || a.EndExecute?)
    ensures Holds(op)(l') + Times(op, g'.executed) == Holds(op)(l) + Times(op, g.executed)
    ensures g'.enqueued == g.enqueued
  {
    if a.Leave? && l.pc.found.Some? {
      TimesAppend(op, g.executed, l.pc.found.value);
    }
    if a.EndExecute? && l.local.Some? {
      TimesAppend(op, g.executed, l.local.value.op);
    }
  }

  /** Other steps keep an operation where it is, or move it between the thread's hand and slot. */
  lemma HandMoves(g: Shared, l: Local, a: Action, g': Shared, l': Local, op: Operation)
    requires Move(g, l, a, g', l') && !a.Push? && !a.Look? && !a.Leave? && !a.EndExecute?
    ensures Holds(op)(l') - Bit(op < g'.enqueued) == Holds(op)(l) - Bit(op < g.enqueued)
    ensures g'.executed == g.executed
    ensures a.Lock? || a.Mark? || a.Unlock? || a.Clear? || g'.subs == g.subs
  {
  }

  lemma PlaceMove(g: Shared, l: Local, a: Action, g': Shared, l': Local, op: Operation)
    requires Move(g, l, a, g', l') && Shaped(g)
    ensures Holds(op)(l') + Sum(Stored(op), g'.subs) + Times(op, g'.executed) - Bit(op < g'.enqueued)
         == Holds(op)(l) + Sum(Stored(op), g.subs) + Times(op, g.executed) - Bit(op < g.enqueued)
  {
    if a.Push? {
      PushStores(g, l, g', l', op);
    } else if a.Look? {
      LookTakes(g, l, a.priority, g', l', op);
    } else {
      if a.Leave? || a.EndExecute? {
        ExecuteMoves(g, l, a, g', l', op);
      } else {
        HandMoves(g, l, a, g', l', op);
      }
      if a.Lock? || a.Mark? || a.Unlock? || a.Clear? || a.Leave? {
        BitStepsStore(g, l, a, g', l', op);
      }
    }
  }

  // ---- the invariant is kept ----

  lemma LocalsKept(s: State, t: nat, a: Action, s': State)
    requires Inv(s) && StepOf(s, t, a, s')
    ensures Shaped(s'.shared)
    ensures forall u :: 0 <= u < |s'.threads| ==> LocalOk(s'.shared, s'.threads[u])
  {
    var g, l, g', l' := s.shared, s.threads[t], s'.shared, s'.threads[t];
    StacksMove(g, l, a, g', l', 0);
    if l.pc.Looking? && a.Look? {
      LookerSeesTheTruth(s, t, a.priority);
    }
    LocalMove(g, l, a, g', l');
    forall u | 0 <= u < |s'.threads| ensures LocalOk(g', s'.threads[u]) {
      if u != t {
        if Inside(l.pc) {
          OneInside(s, t);
        }
        OtherMove(g, l, a, g', l', s.threads[u]);
      }
    }
  }

  lemma BitKept(s: State, t: nat, a: Action, s': State, q: nat, p: nat)
    requires Inv(s) && StepOf(s, t, a, s')
    ensures BitAt(s', q, p)
  {
    if q < |s'.shared.subs| && !Agrees(s'.shared.subs[q], p) {
      StacksMove(s.shared, s.threads[t], a, s'.shared, s'.threads[t], 0);
      BitMove(s.shared, s.threads[t], a, s'.shared, s'.threads[t], q, p);
      assert BitAt(s, q, p);
      SumUpdate(Editing(q, p), s.threads, t, s'.threads[t]);
      WeightsPositive(s'.threads, q, p);
      SumAtLeast(Editing(q, p), s'.threads, t);
    }
  }

  lemma InvKept(s: State, t: nat, a: Action, s': State)
    requires Inv(s) && StepOf(s, t, a, s')
    ensures Inv(s')
  {
    var g, l, g', l' := s.shared, s.threads[t], s'.shared, s'.threads[t];
    LocalsKept(s, t, a, s');
    SizeMove(g, l, a, g', l');
    CountsMove(g, l, a, g', l');
    SumUpdate(Seeking, s.threads, t, l');
    SumUpdate(Unsignalled, s.threads, t, l');
    forall q ensures LockAt(s', q) {
      assert LockAt(s, q);
      if Inside(l.pc) {
        OneInside(s, t);
      }
      LockMove(g, l, a, g', l', q);
      SumUpdate(HoldsLock(q), s.threads, t, l');
    }
    forall q, p ensures BitAt(s', q, p) {
      BitKept(s, t, a, s', q, p);
    }
    forall op ensures PlaceAt(s', op) {
      assert PlaceAt(s, op);
      PlaceMove(g, l, a, g', l', op);
      SumUpdate(Holds(op), s.threads, t, l');
    }
  }

  lemma InitHolds(s: State)
    requires Init(s)
    ensures Inv(s)
  {
    SumZero(Seeking, s.threads);
    SumZero(Unsignalled, s.threads);
    forall q | 0 <= q < |s.shared.subs| ensures Size(s.shared.subs[q]) == 0 {
      SumZero(Length, s.shared.subs[q].slots);
    }
    SumZero(Size, s.shared.subs);
    forall q ensures LockAt(s, q) {
      SumZero(HoldsLock(q), s.threads);
    }
    forall op ensures PlaceAt(s, op) {
      SumZero(Holds(op), s.threads);
      forall q | 0 <= q < |s.shared.subs| ensures Stored(op)(s.shared.subs[q]) == 0 {
        SumZero(TimesIn(op), s.shared.subs[q].slots);
      }
      SumZero(Stored(op), s.shared.subs);
    }
  }

  lemma EveryStateOk(run: seq<State>, i: nat)
    requires IsRun(run) && i < |run|
    ensures Inv(run[i])
  {
    forall s | Init(s) ensures Inv(s) {
      InitHolds(s);
    }
    forall s, s' | Inv(s) && Step(s, s') ensures Inv(s') {
      var t: nat, a :| StepOf(s, t, a, s');
      InvKept(s, t, a, s');
    }
    Runs.Invariant(Protocol(), s => Inv(s), run, i);
  }

  // ---- what every run guarantees ----

  /** Whenever a sub-queue is unlocked, bit p of its bitmap is set exactly if stack p is not empty. */
  lemma BitmapIsExact(run: seq<State>, i: nat, q: nat, p: nat)
    requires IsRun(run) && i < |run| && q < |run[i].shared.subs| && !run[i].shared.subs[q].locked
    ensures p in run[i].shared.subs[q].bits <==>
              p < |run[i].shared.subs[q].slots| && run[i].shared.subs[q].slots[p] != []
  {
    var s := run[i];
    EveryStateOk(run, i);
    assert LockAt(s, q) && BitAt(s, q, p);
    WeightsPositive(s.threads, q, p);
    SumMonotone(Editing(q, p), HoldsLock(q), s.threads);
  }

  /** A pop takes the last operation of the lowest-numbered non-empty level, and finds one whenever
      the sub-queue is not empty; it never reads an empty stack. */
  lemma PopsTheLowestLevel(run: seq<State>, i: nat, t: nat, priority: nat, s': State)
    requires IsRun(run) && i < |run| && StepOf(run[i], t, Look(priority), s')
    ensures run[i].threads[t].pc.q < |run[i].shared.subs| == |s'.shared.subs|
    ensures !s'.threads[t].pc.Broken?
    ensures var sub, sub' := run[i].shared.subs[run[i].threads[t].pc.q], s'.shared.subs[run[i].threads[t].pc.q];
            if forall p :: 0 <= p < |sub.slots| ==> sub.slots[p] == [] then
              sub' == sub && s'.threads[t].pc.Leaving? && s'.threads[t].pc.found == None
            else
              && priority < |sub.slots| && sub.slots[priority] != []
              && (forall p :: 0 <= p < priority ==> sub.slots[p] == [])
              && sub'.slots == sub.slots[priority := sub.slots[priority][..|sub.slots[priority]| - 1]]
  {
    var s, q := run[i], run[i].threads[t].pc.q;
    EveryStateOk(run, i);
    LocalsKept(s, t, Look(priority), s');
    StacksMove(s.shared, s.threads[t], Look(priority), s'.shared, s'.threads[t], 0);
    var sub := s.shared.subs[q];
    LookerSeesTheTruth(s, t, priority);
    forall p | 0 <= p < |sub.slots| ensures p in sub.bits <==> sub.slots[p] != [] {
      LookerSeesTheTruth(s, t, p);
    }
    assert sub.bits == {} ==> forall p :: 0 <= p < |sub.slots| ==> p !in sub.bits && sub.slots[p] == [];
    assert sub.bits != {} ==> priority in sub.bits && sub.slots[priority] != [];
  }

  /** Every operation that was enqueued is in exactly one place: in one thread's local slot or hand, in
      one sub-queue, or executed, once. */
  lemma EachOperationIsInOnePlace(run: seq<State>, i: nat, op: Operation)
    requires IsRun(run) && i < |run|
    ensures Sum(Holds(op), run[i].threads) + Sum(Stored(op), run[i].shared.subs) + Times(op, run[i].shared.executed)
            == Bit(op < run[i].shared.enqueued)
    ensures Times(op, run[i].shared.executed) <= 1
    ensures op in run[i].shared.executed ==> op < run[i].shared.enqueued
    ensures op in run[i].shared.executed ==> Sum(Stored(op), run[i].shared.subs) == 0
  {
    var s := run[i];
    EveryStateOk(run, i);
    assert PlaceAt(s, op);
    assert Positive(Holds(op), s.threads);
    SumNonNegative(Holds(op), s.threads);
    StoredPositive(op, s.shared.subs);
    TimesAtLeast(op, s.shared.executed);
  }

  lemma StoredPositive(op: Operation, subs: seq<SubQueue>)
    ensures Sum(Stored(op), subs) >= 0
  {
    forall q | 0 <= q < |subs| ensures Stored(op)(subs[q]) >= 0 {
      forall p | 0 <= p < |subs[q].slots| ensures TimesIn(op)(subs[q].slots[p]) >= 0 {
        TimesAtLeast(op, subs[q].slots[p]);
      }
      SumNonNegative(TimesIn(op), subs[q].slots);
    }
    SumNonNegative(Stored(op), subs);
  }

  /** The sub-queues hold one operation for every permit, for every worker in the retry loop and for
      every push that is not signalled yet; so a worker in the retry loop has one to find. */
  lemma RetryingWorkersHaveWork(run: seq<State>, i: nat)
    requires IsRun(run) && i < |run|
    ensures Sum(Size, run[i].shared.subs)
            == run[i].shared.permits + Sum(Seeking, run[i].threads) + Sum(Unsignalled, run[i].threads)
    ensures forall t :: 0 <= t < |run[i].threads| && Seeking(run[i].threads[t]) == 1 ==>
              exists q, p :: StackAt(run[i].shared, q, p) != []
  {
    var s := run[i];
    EveryStateOk(run, i);
    WeightsPositive(s.threads, 0, 0);
    SumNonNegative(Unsignalled, s.threads);
    forall t | 0 <= t < |s.threads| && Seeking(s.threads[t]) == 1
      ensures exists q, p :: StackAt(s.shared, q, p) != []
    {
      SumAtLeast(Seeking, s.threads, t);
      var q := SumWitness(Size, s.shared.subs);
      var p := SumWitness(Length, s.shared.subs[q].slots);
      assert StackAt(s.shared, q, p) != [];
    }
  }

  /** Nothing is stranded: when no thread is part-way through anything and no permit is left, every
      operation that was enqueued has been executed exactly once. */
  lemma QuietMeansExecuted(run: seq<State>, i: nat, op: Operation)
    requires IsRun(run) && i < |run| && run[i].shared.permits == 0
    requires forall t :: 0 <= t < |run[i].threads| ==> run[i].threads[t].pc.Free? && run[i].threads[t].current.None?
    ensures Times(op, run[i].shared.executed) == Bit(op < run[i].shared.enqueued)
  {
    var s := run[i];
    EveryStateOk(run, i);
    assert PlaceAt(s, op);
    forall t | 0 <= t < |s.threads| ensures Holds(op)(s.threads[t]) == 0 {
      assert LocalOk(s.shared, s.threads[t]);
    }
    SumZero(Holds(op), s.threads);
    SumZero(Seeking, s.threads);
    SumZero(Unsignalled, s.threads);
    EmptyStoresNothing(op, s.shared.subs);
  }

  lemma EmptyStoresNothing(op: Operation, subs: seq<SubQueue>)
    requires Sum(Size, subs) == 0
    ensures Sum(Stored(op), subs) == 0
  {
    forall q | 0 <= q < |subs| ensures Size(subs[q]) >= 0 {
      SumNonNegative(Length, subs[q].slots);
    }
    forall q | 0 <= q < |subs| ensures Stored(op)(subs[q]) == 0 {
      SumAtLeast(Size, subs, q);
      forall p | 0 <= p < |subs[q].slots| ensures TimesIn(op)(subs[q].slots[p]) == 0 {
        SumAtLeast(Length, subs[q].slots, p);
      }
      SumZero(TimesIn(op), subs[q].slots);
    }
    SumZero(Stored(op), subs);
  }

  // ---- the local slot ----

  ghost predicate EnqueuesIn(s: State, t: nat, p: nat, s': State) {
    p < LEVELS && exists q: nat :: StepOf(s, t, Enqueue(p, q), s')
  }

  /** Thread t enqueues an operation of priority p, numbered run[k].shared.enqueued, in step k. */
  ghost predicate EnqueuesAt(run: seq<State>, t: nat, k: nat, p: nat) {
    k + 1 < |run| && EnqueuesIn(run[k], t, p, run[k + 1])
  }

  ghost predicate EndsAt(run: seq<State>, t: nat, k: nat) {
    k + 1 < |run| && StepOf(run[k], t, EndExecute, run[k + 1])
  }

  /** From state b, in which a worker's slot is empty, to state i the worker executes one operation. */
  ghost predicate OneExecution(run: seq<State>, t: nat, b: nat, i: nat) {
    && b <= i < |run| && t < |run[b].threads| && run[b].threads[t].worker && run[b].threads[t].current.Some?
    && run[b].threads[t].local.None? && forall k :: b <= k < i ==> !EndsAt(run, t, k)
  }

  predicate NoLater(a: Task, b: Task) {
    a.priority < b.priority || (a.priority == b.priority && a.op <= b.op)
  }

  ghost predicate FirstOfTheMostUrgent(run: seq<State>, t: nat, b: nat, i: nat, kept: Task) {
    && (exists k :: b <= k < i && EnqueuesAt(run, t, k, kept.priority) && run[k].shared.enqueued == kept.op)
    && forall k, p :: b <= k < i && EnqueuesAt(run, t, k, p) ==> NoLater(kept, Task(run[k].shared.enqueued, p))
  }

  /** One more step of the worker's execution: an enqueue, or the slot stays as it is. */
  lemma SlotMove(s: State, t: nat, s': State)
    requires Step(s, s') && t < |s.threads| && s.threads[t].worker && s.threads[t].current.Some?
    requires !StepOf(s, t, EndExecute, s') && LocalOk(s.shared, s.threads[t])
    ensures |s'.threads| == |s.threads| && s'.threads[t].worker && s'.threads[t].current.Some?
    ensures s'.shared.enqueued >= s.shared.enqueued
    ensures s'.threads[t].local == s.threads[t].local || exists p: nat :: EnqueuesIn(s, t, p, s')
  {
    var u: nat, a :| StepOf(s, u, a, s');
    if u == t && a.Enqueue? && a.priority < LEVELS {
      assert EnqueuesIn(s, t, a.priority, s');
    }
  }

  /** In step k of the run an executing worker enqueues, or its slot stays as it is. */
  ghost predicate SlotStepOk(run: seq<State>, t: nat, k: nat) {
    k + 1 < |run| && t < |run[k].threads| && run[k].threads[t].worker && run[k].threads[t].current.Some?
    && !EndsAt(run, t, k) ==>
      && |run[k + 1].threads| == |run[k].threads|
      && run[k + 1].threads[t].worker && run[k + 1].threads[t].current.Some?
      && run[k + 1].shared.enqueued >= run[k].shared.enqueued
      && (run[k + 1].threads[t].local == run[k].threads[t].local || exists p: nat :: EnqueuesAt(run, t, k, p))
  }

  lemma RunMovesSlot(run: seq<State>, t: nat, k: nat)
    requires IsRun(run)
    ensures SlotStepOk(run, t, k)
  {
    if k + 1 < |run| && t < |run[k].threads| && run[k].threads[t].worker && run[k].threads[t].current.Some?
       && !EndsAt(run, t, k)
    {
      var s, s' := run[k], run[k + 1];
      EveryStateOk(run, k);
      assert Protocol().next(s, s');
      SlotMove(s, t, s');
      if p: nat :| EnqueuesIn(s, t, p, s') {
        assert EnqueuesAt(run, t, k, p);
      }
    }
  }

  lemma EnqueueKeepsTheFirst(s: State, t: nat, p: nat, s': State)
    requires EnqueuesIn(s, t, p, s') && t < |s.threads| == |s'.threads| && s.threads[t].worker
    ensures s'.shared.enqueued == s.shared.enqueued + 1 && s'.threads[t].local.Some?
    ensures s.threads[t].local.Some? && s.threads[t].local.value.priority <= p ==>
              s'.threads[t].local == s.threads[t].local
    ensures s.threads[t].local.None? || p < s.threads[t].local.value.priority ==>
              s'.threads[t].local.value == Task(s.shared.enqueued, p)
    ensures forall r: nat :: EnqueuesIn(s, t, r, s') ==> r == p
  {
  }

  /** The slot is empty if the worker has enqueued nothing, and holds the first of the most urgent. */
  ghost predicate SlotOk(run: seq<State>, t: nat, b: nat, i: nat)
    requires i < |run| && t < |run[i].threads|
  {
    var slot := run[i].threads[t].local;
    && (slot.None? <==> forall k, p :: b <= k < i ==> !EnqueuesAt(run, t, k, p))
    && (slot.Some? ==> slot.value.op < run[i].shared.enqueued && FirstOfTheMostUrgent(run, t, b, i, slot.value))
  }

  lemma KeptOnEnqueue(run: seq<State>, t: nat, b: nat, k: nat, p: nat)
    requires b <= k < |run| - 1 && t < |run[k].threads| == |run[k + 1].threads| && run[k].threads[t].worker
    requires SlotOk(run, t, b, k) && EnqueuesIn(run[k], t, p, run[k + 1])
    ensures SlotOk(run, t, b, k + 1)
  {
    EnqueueKeepsTheFirst(run[k], t, p, run[k + 1]);
    assert EnqueuesAt(run, t, k, p);
    var before, now := run[k].threads[t].local, run[k + 1].threads[t].local.value;
    if before.None? || p < before.value.priority {
      assert now == Task(run[k].shared.enqueued, p);
    } else {
      var j :| b <= j < k && EnqueuesAt(run, t, j, before.value.priority) && run[j].shared.enqueued == before.value.op;
    }
    forall j, r | b <= j < k + 1 && EnqueuesAt(run, t, j, r)
      ensures NoLater(now, Task(run[j].shared.enqueued, r))
    {
      assert before.Some? && j < k ==> NoLater(before.value, Task(run[j].shared.enqueued, r));
    }
  }

  lemma KeptOtherwise(run: seq<State>, t: nat, b: nat, k: nat)
    requires b <= k < |run| - 1 && t < |run[k].threads| == |run[k + 1].threads| && SlotOk(run, t, b, k)
    requires run[k + 1].threads[t].local == run[k].threads[t].local
    requires run[k + 1].shared.enqueued >= run[k].shared.enqueued
    requires forall p: nat :: !EnqueuesAt(run, t, k, p)
    ensures SlotOk(run, t, b, k + 1)
  {
    var slot := run[k].threads[t].local;
    if slot.Some? {
      var kept := slot.value;
      var j :| b <= j < k && EnqueuesAt(run, t, j, kept.priority) && run[j].shared.enqueued == kept.op;
    }
  }

  lemma KeptInStep(run: seq<State>, t: nat, b: nat, k: nat)
    requires SlotStepOk(run, t, k) && b <= k < |run| - 1 && t < |run[k].threads| && !EndsAt(run, t, k)
    requires run[k].threads[t].worker && run[k].threads[t].current.Some? && SlotOk(run, t, b, k)
    ensures t < |run[k + 1].threads| && run[k + 1].threads[t].worker && run[k + 1].threads[t].current.Some?
    ensures SlotOk(run, t, b, k + 1)
  {
    if p: nat :| EnqueuesAt(run, t, k, p) {
      KeptOnEnqueue(run, t, b, k, p);
    } else {
      KeptOtherwise(run, t, b, k);
    }
  }

  lemma {:induction false} KeptThroughout(run: seq<State>, t: nat, b: nat, i: nat)
    requires OneExecution(run, t, b, i) && forall k :: SlotStepOk(run, t, k)
    ensures t < |run[i].threads| && run[i].threads[t].worker && run[i].threads[t].current.Some?
    ensures SlotOk(run, t, b, i)
    decreases i
  {
    if i > b {
      var k: nat := i - 1;
      assert SlotStepOk(run, t, k) && !EndsAt(run, t, k);
      KeptThroughout(run, t, b, k);
      KeptInStep(run, t, b, k);
    }
  }

  /** At every moment of an execution a worker's slot holds the first of the most urgent operations that
      were enqueued in it: all others were given away, and none is more urgent. */
  lemma KeepsTheMostUrgent(run: seq<State>, t: nat, b: nat, i: nat)
    requires IsRun(run) && OneExecution(run, t, b, i)
    ensures t < |run[i].threads| && run[i].threads[t].worker && run[i].threads[t].current.Some?
    ensures SlotOk(run, t, b, i)
  {
    forall k: nat ensures SlotStepOk(run, t, k) {
      RunMovesSlot(run, t, k);
    }
    KeptThroughout(run, t, b, i);
  }
}
