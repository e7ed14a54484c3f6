/** Lookups in the block index always find the block the element was written to. */
module BlockIndexSafety {
  import opened Counting
  import Modular
  import opened Options
  import Runs
  import opened BlockIndexProtocol
  import opened BlockIndexSlots
  import opened BlockIndexInvariant

  // ---- what a step leaves alone ----

  /** Nothing a consumer relies on is lost: header slots, keyed entries and the live published blocks. */
  ghost predicate Extends(g: Shared, g': Shared) {
    && |g.headers| <= |g'.headers| && |g.entries| <= |g'.entries| && g.published <= g'.published
    && (forall h :: 0 <= h < |g.headers| ==>
          g'.headers[h].slots == g.headers[h].slots && g'.headers[h].shift == g.headers[h].shift
          && g'.headers[h].capacity == g.headers[h].capacity)
    && (forall e :: 0 <= e < |g.entries| && g.entries[e].key.Some? ==> g'.entries[e].key.Some?)
  }

  ghost predicate KeepsLive(g: Shared, g': Shared, n: nat) {
    n in g.live && n in g.home && n <= g.published ==>
      n in g'.live && n in g'.home && g'.live[n] == g.live[n] && g'.home[n] == g.home[n]
  }

  lemma ExtendsKeepsLocal(g: Shared, g': Shared, l: Local)
    requires Shaped(g) && Shaped(g') && Extends(g, g') && LocalOk(g, l)
    requires !l.Idle? ==> KeepsLive(g, g', l.n)
    requires LivesOk(g)
    ensures LocalOk(g', l)
  {
    if l.Looking? {
      assert LiveAt(g, l.n);
    }
    if l.GotHeader? || l.GotTail? || l.GotBase? {
      assert g'.headers[l.h].slots == g.headers[l.h].slots;
      assert HeaderShaped(g.entries, g.headers[l.h]);
      assert SlotFor(g'.headers[l.h], l.n) == SlotFor(g.headers[l.h], l.n);
    }
  }

  lemma WriterExtends(g: Shared, w: Writer, a: WriterAction, g': Shared, w': Writer)
    requires IndexOk(g, w) && WriterMove(g, w, a, g', w')
    ensures Extends(g, g')
  {
    if a.Grow? {
      GrowShapes(g, g');
      forall h | 0 <= h < |g.headers| ensures g'.headers[h] == g.headers[h] {
        assert g'.headers[..|g.headers|][h] == g.headers[h];
      }
    }
  }

  lemma WriterKeepsLive(g: Shared, w: Writer, a: WriterAction, g': Shared, w': Writer, n: nat)
    requires IndexOk(g, w) && WriterMove(g, w, a, g', w')
    ensures KeepsLive(g, g', n)
    ensures g'.claimed == g.claimed && g'.consumed == g.consumed
    ensures n in g'.live ==> n in g.live || n > g.published
  {
  }

  // ---- the producer ----

  lemma NoConsumerAbove(s: State, n: nat)
    requires Shaped(s.shared) && forall t :: 0 <= t < |s.threads| ==> LocalOk(s.shared, s.threads[t])
    requires n > s.shared.published
    ensures Sum(Holds(n), s.threads) == 0 && Sum(Empties(n), s.threads) == 0
  {
    SumZero(Holds(n), s.threads);
    SumZero(Empties(n), s.threads);
  }

  lemma WriterKeepsThread(s: State, a: WriterAction, s': State, l: Local)
    requires IndexOk(s.shared, s.writer) && WriterStep(s, a, s') && LocalOk(s.shared, l)
    requires Shaped(s'.shared)
    ensures LocalOk(s'.shared, l)
  {
    WriterExtends(s.shared, s.writer, a, s'.shared, s'.writer);
    if !l.Idle? {
      WriterKeepsLive(s.shared, s.writer, a, s'.shared, s'.writer, l.n);
    }
    ExtendsKeepsLocal(s.shared, s'.shared, l);
  }

  lemma WriterKeepsElements(size: nat, s: State, a: WriterAction, s': State, n: nat)
    requires Inv(size, s) && WriterStep(s, a, s')
    ensures ElementsOk(size, s'.shared, s'.threads, n) && UntouchedAt(s'.shared, n) && GoneAt(size, s'.shared, n)
  {
    assert ElementsOk(size, s.shared, s.threads, n) && UntouchedAt(s.shared, n) && GoneAt(size, s.shared, n);
    assert LiveAt(s.shared, n);
    WriterExtends(s.shared, s.writer, a, s'.shared, s'.writer);
    WriterKeepsLive(s.shared, s.writer, a, s'.shared, s'.writer, n);
    if n > s.shared.published {
      NoConsumerAbove(s, n);
    }
  }

  lemma WriterKeeps(size: nat, s: State, a: WriterAction, s': State)
    requires Inv(size, s) && WriterStep(s, a, s')
    ensures Inv(size, s')
  {
    WriterKeepsIndex(s.shared, s.writer, a, s'.shared, s'.writer);
    forall t | 0 <= t < |s'.threads| ensures LocalOk(s'.shared, s'.threads[t]) {
      WriterKeepsThread(s, a, s', s.threads[t]);
    }
    forall n: nat
      ensures ElementsOk(size, s'.shared, s'.threads, n) && UntouchedAt(s'.shared, n) && GoneAt(size, s'.shared, n)
    {
      WriterKeepsElements(size, s, a, s', n);
    }
  }

  // ---- consumers ----

  /** A claim or a consumption changes only the element counters. */
  lemma CountersKeepIndex(g: Shared, w: Writer, g': Shared)
    requires IndexOk(g, w) && g' == g.(claimed := g'.claimed, consumed := g'.consumed)
    ensures IndexOk(g', w)
  {
    assert forall h :: 0 <= h < |g.headers| ==> HeaderShaped(g.entries, g.headers[h]);
    forall h ensures HeaderOk(g', h) {
      assert HeaderOk(g, h);
    }
    forall j ensures InRound(g', j) {
      assert InRound(g, j);
    }
    forall k ensures KeyedAt(g', k) == KeyedAt(g, k) {
    }
    forall n: nat ensures LiveAt(g', n) {
      assert LiveAt(g, n);
    }
    forall e ensures ValueAt(g', e) {
      assert ValueAt(g, e);
    }
  }

  lemma NullKeepsIndex(g: Shared, w: Writer, n: nat, g': Shared)
    requires IndexOk(g, w) && Nulled(g, n, g') && n <= g.published
    ensures IndexOk(g', w)
  {
    assert LiveAt(g, n);
    NullKeeps(g, n, g');
    ValueStoreKeepsHeaders(g, g.home[n], None, g');
  }

  /** What a consumer's own access gives it. */
  lemma LookupMove(size: nat, g: Shared, w: Writer, l: Local, a: Action, g': Shared, l': Local)
    requires IndexOk(g, w) && LocalOk(g, l) && Move(size, g, l, a, g', l')
    requires a.LoadHeader? || a.LoadTail? || a.LoadBase? || a.Resolve?
    ensures g' == g && LocalOk(g, l')
  {
    assert LiveAt(g, l.n);
    match a
    case LoadHeader =>
    case LoadTail =>
      assert HeaderOk(g, l.h);
      if l.h == |g.headers| - 1 {
        assert KeyedAt(g, g.last);
      }
    case LoadBase =>
      assert HeaderOk(g, l.h) && AlignedAt(g.entries, g.headers[l.h], l.t);
    case Resolve =>
      OffsetFinds(g.headers[l.h], l.t, l.base, l.n);
  }

  lemma ElementsMove(size: nat, g: Shared, threads: seq<Local>, t: nat, a: Action, g': Shared, l': Local, n: nat)
    requires Shaped(g) && t < |threads| && Move(size, g, threads[t], a, g', l')
    requires size > 0 && ElementsOk(size, g, threads, n) && UntouchedAt(g, n)
    requires LocalOk(g, threads[t])
    ensures ElementsOk(size, g', threads[t := l'], n) && UntouchedAt(g', n)
  {
    SumUpdate(Holds(n), threads, t, l');
    SumUpdate(Empties(n), threads, t, l');
    SumNonNegative(Holds(n), threads);
    SumNonNegative(Empties(n), threads);
    SumAtLeast(Holds(n), threads, t);
    SumAtLeast(Empties(n), threads, t);
  }

  /** What leaves the index is claimed and consumed to the last element; what is gone stays so. */
  lemma GoneMove(size: nat, s: State, t: nat, a: Action, s': State, n: nat)
    requires Inv(size, s) && ConsumerStep(size, s, t, a, s')
    ensures GoneAt(size, s'.shared, n)
  {
    var g, l := s.shared, s.threads[t];
    assert GoneAt(size, g, n) && ElementsOk(size, g, s.threads, n) && LocalOk(g, l);
    if a.NullValue? && l.n == n {
      SumAtLeast(Empties(n), s.threads, t);
      SumNonNegative(Holds(n), s.threads);
    }
  }

  /** When a consumer is about to null the value, nobody else is using the block. */
  lemma LastOneAlone(size: nat, s: State, t: nat, u: nat)
    requires Inv(size, s) && t < |s.threads| && u < |s.threads| && t != u && s.threads[t].Emptied?
    ensures !s.threads[u].Idle? ==> s.threads[u].n != s.threads[t].n
  {
    var n := s.threads[t].n;
    assert ElementsOk(size, s.shared, s.threads, n);
    SumAtLeast(Empties(n), s.threads, t);
    SumAtLeastTwo(Empties(n), s.threads, if t < u then t else u, if t < u then u else t);
    SumAtLeast(Holds(n), s.threads, u);
  }

  lemma ConsumerExtends(size: nat, g: Shared, l: Local, a: Action, g': Shared, l': Local)
    requires Shaped(g) && Move(size, g, l, a, g', l')
    ensures Extends(g, g')
    ensures forall n: nat :: (l.Emptied? ==> n != l.n) ==> KeepsLive(g, g', n)
  {
  }

  lemma ConsumerSelf(size: nat, g: Shared, w: Writer, l: Local, a: Action, g': Shared, l': Local)
    requires IndexOk(g, w) && LocalOk(g, l) && Move(size, g, l, a, g', l') && (a.Claim? ==> GoneAt(size, g, a.n))
    ensures IndexOk(g', w) && LocalOk(g', l')
  {
    match a
    case Claim(n) => CountersKeepIndex(g, w, g');
    case Consume => CountersKeepIndex(g, w, g');
    case NullValue =>
      assert Nulled(g, l.n, g');
      NullKeepsIndex(g, w, l.n, g');
    case _ => LookupMove(size, g, w, l, a, g', l');
  }

  lemma ConsumerKeeps(size: nat, s: State, t: nat, a: Action, s': State)
    requires Inv(size, s) && ConsumerStep(size, s, t, a, s')
    ensures Inv(size, s')
  {
    var g, g', l, l' := s.shared, s'.shared, s.threads[t], s'.threads[t];
    ConsumerSelf(size, g, s.writer, l, a, g', l');
    ConsumerExtends(size, g, l, a, g', l');
    forall u | 0 <= u < |s'.threads| ensures LocalOk(g', s'.threads[u]) {
      if u != t {
        if l.Emptied? {
          LastOneAlone(size, s, t, u);
        }
        ExtendsKeepsLocal(g, g', s.threads[u]);
      }
    }
    forall n: nat ensures ElementsOk(size, g', s'.threads, n) && UntouchedAt(g', n) && GoneAt(size, g', n) {
      ElementsMove(size, g, s.threads, t, a, g', l', n);
      GoneMove(size, s, t, a, s', n);
    }
  }

  // ---- every run ----

  lemma InitHolds(size: nat, s: State)
    requires size > 0 && Init(s)
    ensures Inv(size, s)
  {
    var g := s.shared;
    assert HeaderShaped(g.entries, Current(g));
    forall h ensures HeaderOk(g, h) {
    }
    forall j ensures InRound(g, j) {
    }
    assert Modular.Wrap(-1, Current(g).capacity) == Modular.Wrap(Current(g).capacity - 1, Current(g).capacity);
    assert SlotFor(Current(g), -1) == Current(g).capacity - 1;
  }

  lemma StepKeeps(size: nat, s: State, s': State)
    requires Inv(size, s) && Step(size, s, s')
    ensures Inv(size, s')
  {
    if a :| WriterStep(s, a, s') {
      WriterKeeps(size, s, a, s');
    } else {
      var t: nat, a :| ConsumerStep(size, s, t, a, s');
      ConsumerKeeps(size, s, t, a, s');
    }
  }

  lemma EveryStateOk(size: nat, run: seq<State>, i: nat)
    requires size > 0 && IsRun(size, run) && i < |run|
    ensures Inv(size, run[i])
  {
    forall s | Init(s) ensures Inv(size, s) {
      InitHolds(size, s);
    }
    forall s, s' | Inv(size, s) && Step(size, s, s') ensures Inv(size, s') {
      StepKeeps(size, s, s');
    }
    Runs.Invariant(Protocol(size), s => Inv(size, s), run, i);
  }

  // ---- what the index promises ----

  /** The lookup agrees with the simple map from block numbers to blocks, through wrap-around,
      rewinding, growth and stale snapshots: the entry it returns has the block's key and the block
      its elements were written to. */
  lemma LookupAgreesWithMap(size: nat, run: seq<State>, i: nat, t: nat)
    requires size > 0 && IsRun(size, run) && i < |run| && t < |run[i].threads| && run[i].threads[t].Found?
    ensures var g, l := run[i].shared, run[i].threads[t];
            && l.n in g.live && l.block == Some(g.live[l.n])
            && l.entry < |g.entries| && g.entries[l.entry] == Entry(Some(l.n), Some(g.live[l.n]))
  {
    EveryStateOk(size, run, i);
    assert LocalOk(run[i].shared, run[i].threads[t]);
    assert LiveAt(run[i].shared, run[i].threads[t].n);
  }

  /** The key a consumer reads at its tail slot is never the invalid one, however old its snapshot. */
  lemma TailKeyIsValid(size: nat, run: seq<State>, i: nat, t: nat)
    requires size > 0 && IsRun(size, run) && i < |run| && t < |run[i].threads| && run[i].threads[t].GotTail?
    ensures var g, l := run[i].shared, run[i].threads[t];
            && l.h < |g.headers| && l.t < |g.headers[l.h].slots| && g.headers[l.h].slots[l.t] < |g.entries|
            && g.entries[g.headers[l.h].slots[l.t]].key.Some?
  {
    EveryStateOk(size, run, i);
    assert LocalOk(run[i].shared, run[i].threads[t]);
  }

  /** A published block stays in the index, with its entry and its value, until its last element is
      consumed, and leaves it only by the hands of the consumer that took that element; elements claimed
      and not consumed are in consumers' hands. */
  lemma LiveUntilEmptied(size: nat, run: seq<State>, i: nat, n: nat)
    requires size > 0 && IsRun(size, run) && i < |run| && n <= run[i].shared.published
    ensures var g := run[i].shared;
            && (n in g.live <==>
                  || Count(g.consumed, n) < size
                  || exists t :: 0 <= t < |run[i].threads| && run[i].threads[t].Emptied? && run[i].threads[t].n == n)
            && (n in g.live ==>
                  n in g.home && g.home[n] < |g.entries| && g.entries[g.home[n]] == Entry(Some(n), Some(g.live[n])))
            && (n in g.live ==> Count(g.claimed, n) - Count(g.consumed, n) == Sum(Holds(n), run[i].threads))
  {
    var s := run[i];
    EveryStateOk(size, run, i);
    assert LiveAt(s.shared, n) && ElementsOk(size, s.shared, s.threads, n) && GoneAt(size, s.shared, n);
    if n in s.shared.live && Count(s.shared.consumed, n) >= size {
      SumNonNegative(Holds(n), s.threads);
      var t := SumWitness(Empties(n), s.threads);
    }
  }

  // ---- bulk dequeues: several blocks through one snapshot ----

  /** A bulk dequeue that spans several blocks appears as one consumer per block; this one is looking
      for block n. */
  ghost predicate Seeks(s: State, t: nat, n: nat) {
    t < |s.threads| && Holds(n)(s.threads[t]) == 1
  }

  lemma SeenStays(size: nat, s: State, s': State, u: nat, m: nat, h: nat)
    requires Inv(size, s) && Inv(size, s') && Step(size, s, s') && Seeks(s, u, m) && SeenIn(s.shared, m, h)
    ensures SeenIn(s'.shared, m, h)
  {
    var g, g' := s.shared, s'.shared;
    if a :| WriterStep(s, a, s') {
      WriterExtends(g, s.writer, a, g', s'.writer);
      WriterKeepsLive(g, s.writer, a, g', s'.writer, m);
    } else {
      var t: nat, a :| ConsumerStep(size, s, t, a, s');
      ConsumerExtends(size, g, s.threads[t], a, g', s'.threads[t]);
      if s.threads[t].Emptied? {
        LastOneAlone(size, s, t, u);
      }
      assert KeepsLive(g, g', m);
    }
    assert HeaderShaped(g.entries, g.headers[h]);
    assert SlotFor(g'.headers[h], m) == SlotFor(g.headers[h], m);
  }

  lemma {:induction false} SeenFromTheLoadOn(size: nat, run: seq<State>, i: nat, j: nat, u: nat, m: nat, h: nat)
    requires size > 0 && IsRun(size, run) && i <= j < |run| && Shaped(run[i].shared)
    requires |run[i].shared.headers| == h + 1 && forall k :: i <= k <= j ==> Seeks(run[k], u, m)
    ensures Shaped(run[j].shared) && SeenIn(run[j].shared, m, h)
    decreases j
  {
    EveryStateOk(size, run, j);
    assert Seeks(run[j], u, m) && LocalOk(run[j].shared, run[j].threads[u]);
    if i == j {
      assert LiveAt(run[i].shared, m);
    } else {
      SeenFromTheLoadOn(size, run, i, j - 1, u, m, h);
      EveryStateOk(size, run, j - 1);
      assert Protocol(size).next(run[j - 1], run[j]);
      SeenStays(size, run[j - 1], run[j], u, m, h);
    }
  }

  /** Adding one to the slot modulo the capacity leads to the slot of the next block. */
  lemma NextBlockNextSlot(hdr: Header, n: nat)
    requires hdr.capacity > 0
    ensures SlotFor(hdr, n + 1) == Modular.Wrap(SlotFor(hdr, n) + 1, hdr.capacity)
  {
    Modular.ReduceFirst(n - hdr.shift, 1, hdr.capacity);
  }

  /** The slots that a bulk dequeue visits: the one found for its first block, and then each time the
      next one. */
  function Visited(hdr: Header, n: nat, steps: nat): (j: nat)
    requires hdr.capacity > 0
    ensures j < hdr.capacity
  {
    if steps == 0 then SlotFor(hdr, n) else Modular.Wrap(Visited(hdr, n, steps - 1) + 1, hdr.capacity)
  }

  lemma {:induction false} VisitedIs(hdr: Header, n: nat, steps: nat)
    requires hdr.capacity > 0
    ensures Visited(hdr, n, steps) == SlotFor(hdr, n + steps)
  {
    if steps > 0 {
      VisitedIs(hdr, n, steps - 1);
      NextBlockNextSlot(hdr, n + steps - 1);
    }
  }

  /** A bulk dequeue finds every later block it claimed through the one header it loaded: however long
      ago that was, and whatever the producer inserted, rewound or grew since, the slot that it reaches
      by adding one per block holds that block's key and the block its elements were written to. */
  lemma BulkFindsEveryBlock(size: nat, run: seq<State>, i: nat, j: nat, n: nat, steps: nat, u: nat)
    requires size > 0 && IsRun(size, run) && i <= j < |run| && Shaped(run[i].shared) && Shaped(run[j].shared)
    requires forall k :: i <= k <= j ==> Seeks(run[k], u, n + steps)
    ensures var g, h := run[j].shared, |run[i].shared.headers| - 1;
            && h < |g.headers| && n + steps in g.live
            && g.entries[g.headers[h].slots[Visited(g.headers[h], n, steps)]]
               == Entry(Some(n + steps), Some(g.live[n + steps]))
  {
    var h := |run[i].shared.headers| - 1;
    SeenFromTheLoadOn(size, run, i, j, u, n + steps, h);
    EveryStateOk(size, run, j);
    VisitedIs(run[j].shared.headers[h], n, steps);
    assert LiveAt(run[j].shared, n + steps);
  }

  // ---- no access is blocked ----

  /** What a consumer that claimed an element does next. */
  lemma NextLook(size: nat, g: Shared, l: Local) returns (a: Action, g': Shared, l': Local)
    requires Shaped(g) && LivesOk(g) && LocalOk(g, l) && l != Idle
    ensures Move(size, g, l, a, g', l')
  {
    g' := g;
    match l
    case Looking(n) => a, l' := LoadHeader, GotHeader(n, |g.headers| - 1);
    case GotHeader(n, h) => a, l' := LoadTail, GotTail(n, h, g.headers[h].tail);
    case GotTail(n, h, t) =>
      a, l' := LoadBase, GotBase(n, h, t, g.entries[g.headers[h].slots[t]].key.value);
    case GotBase(n, h, t, base) =>
      var e := g.headers[h].slots[Offset(g.headers[h], t, base, n)];
      a, l' := Resolve, Found(n, e, g.entries[e].value);
    case Found(n, e, block) =>
      a, l' := Consume, if Count(g.consumed, n) + 1 == size then Emptied(n, e) else Idle;
      g' := g.(consumed := g.consumed[n := Count(g.consumed, n) + 1]);
    case Emptied(n, e) =>
      assert LiveAt(g, n);
      a, l' := NullValue, Idle;
      g' := g.(entries := g.entries[e := g.entries[e].(value := None)], live := g.live - {n}, home := g.home - {n});
  }

  /** What the producer does next; block is the one it gets if it needs one. */
  lemma NextWrite(g: Shared, w: Writer, block: Block) returns (a: WriterAction, g': Shared, w': Writer)
    requires IndexOk(g, w)
    ensures WriterMove(g, w, a, g', w') && !a.FailRewind? && !a.Publish? && !a.BeginUndo?
  {
    var hdr := Current(g);
    var next := hdr.slots[NextSlot(hdr)];
    match w
    case Ready =>
      if Free(g.entries[next]) {
        a, w' := InsertKey, Keyed(g.last + 1);
        g' := g.(entries := g.entries[next := g.entries[next].(key := Some(g.last + 1))],
                 high := if g.high > g.last then g.high else g.last + 1);
      } else {
        a, g', w' := Grow, Grown(g), w;
      }
    case Keyed(n) => a, g', w' := InsertTail, SetTail(g, NextSlot(hdr)).(last := g.last + 1), Tailed(n);
    case Tailed(n) =>
      var e := hdr.slots[hdr.tail];
      a, w' := StoreValue(block), Ready;
      g' := g.(entries := g.entries[e := g.entries[e].(value := Some(block))],
               live := g.live[n := block], home := g.home[n := e]);
    case Rewound(n) =>
      a, g', w' := FailClear, g.(entries := g.entries[next := g.entries[next].(value := None)]), Ready;
    case Undoing(m, hi) =>
      UndoFinds(g, w);
      var e := hdr.slots[Offset(hdr, hdr.tail, g.entries[hdr.slots[hdr.tail]].key.value, m)];
      a, w' := UndoClear, Cleared(m, hi);
      g' := g.(entries := g.entries[e := g.entries[e].(value := None)], live := g.live - {m}, home := g.home - {m});
    case Cleared(m, hi) =>
      a, g' := UndoRewind, SetTail(g, PreviousSlot(hdr)).(last := g.last - 1);
      w' := if m == hi then Ready else Undoing(m + 1, hi);
  }

  /** Nobody is ever blocked: neither the producer, nor a consumer that claimed an element. In particular
      no lookup meets the invalid key. */
  lemma NeverStuck(size: nat, run: seq<State>, i: nat, t: nat)
    requires size > 0 && IsRun(size, run) && i < |run| && t < |run[i].threads| && run[i].threads[t] != Idle
    ensures exists a, s' :: ConsumerStep(size, run[i], t, a, s')
    ensures exists a, s' :: WriterStep(run[i], a, s')
  {
    var s := run[i];
    EveryStateOk(size, run, i);
    var a, g', l' := NextLook(size, s.shared, s.threads[t]);
    assert ConsumerStep(size, s, t, a, State(g', s.writer, s.threads[t := l']));
    var b, h, w' := NextWrite(s.shared, s.writer, 0);
    assert WriterStep(s, b, State(h, w', s.threads));
  }
}
