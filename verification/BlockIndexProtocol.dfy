/** The block index of an implicit producer: one writer inserts blocks into a ring of entries,
    rewinds and grows it, while any number of consumers look blocks up through snapshots that may
    be stale. Keys are block numbers: the base of a block divided by the block size. */
module BlockIndexProtocol {
  import Modular
  import opened Options
  import Runs

  type Block = nat

  /** key is None while it holds INVALID_BLOCK_BASE, value is None while it is null. */
  datatype Entry = Entry(key: Option<nat>, value: Option<Block>)

  /** slots are the pointers to entries; headers share entries. A header is published once, and only
      the tail of the latest one still changes. shift is history: the number of the block that slot
      zero stands for, up to whole rounds. */
  datatype Header = Header(capacity: nat, tail: nat, slots: seq<nat>, shift: int)

  /** The producer's thread. */
  datatype Writer =
    | Ready
    | Keyed(n: nat)                 // key stored, tail not yet
    | Tailed(n: nat)                // tail stored, waiting for a block
    | Rewound(n: nat)               // no block: tail rewound, value not yet nulled
    | Undoing(m: nat, hi: nat)      // a failed bulk enqueue takes back blocks m .. hi
    | Cleared(m: nat, hi: nat)      // value of m nulled, tail not yet rewound

  /** A consumer that claimed an index in block n. */
  datatype Local =
    | Idle
    | Looking(n: nat)                               // before loading the header
    | GotHeader(n: nat, h: nat)
    | GotTail(n: nat, h: nat, t: nat)
    | GotBase(n: nat, h: nat, t: nat, base: nat)
    | Found(n: nat, entry: nat, block: Option<Block>)
    | Emptied(n: nat, entry: nat)                   // took the block's last element, before nulling the value

  datatype Shared = Shared(
    headers: seq<Header>,
    entries: seq<Entry>,
    published: int,                 // number of the block that holds the last published element
    last: int,                      // number of the block at the tail, -1 before the first
    // history
    high: int,                      // largest number ever keyed and not rekeyed
    live: map<nat, Block>,          // blocks stored in the index and not emptied
    home: map<nat, nat>,            // the entry of every live block
    // elements of each block: below the head index, and counted as completely dequeued
    claimed: map<nat, nat>,
    consumed: map<nat, nat>
  )

  datatype State = State(shared: Shared, writer: Writer, threads: seq<Local>)

  datatype WriterAction =
    | InsertKey | Grow | InsertTail | StoreValue(block: Block) | FailRewind | FailClear
    | Publish | BeginUndo | UndoClear | UndoRewind

  datatype Action = Claim(n: nat) | LoadHeader | LoadTail | LoadBase | Resolve | Consume | NullValue

  function Count(m: map<nat, nat>, n: nat): nat {
    if n in m then m[n] else 0
  }

  function Current(g: Shared): Header
    requires |g.headers| > 0
  {
    g.headers[|g.headers| - 1]
  }

  function SetTail(g: Shared, t: nat): Shared
    requires |g.headers| > 0
  {
    g.(headers := g.headers[|g.headers| - 1 := Current(g).(tail := t)])
  }

  ghost predicate HeaderShaped(entries: seq<Entry>, hdr: Header) {
    && 0 < hdr.capacity == |hdr.slots| && hdr.tail < hdr.capacity
    && forall j :: 0 <= j < |hdr.slots| ==> hdr.slots[j] < |entries|
  }

  ghost predicate Shaped(g: Shared) {
    && |g.headers| > 0
    && forall h :: 0 <= h < |g.headers| ==> HeaderShaped(g.entries, g.headers[h])
  }

  /** The slot of the block numbered n, computed from a tail slot and the key found there. */
  function Offset(hdr: Header, t: nat, base: nat, n: nat): (j: nat)
    requires hdr.capacity > 0
    ensures j < hdr.capacity
  {
    Modular.Wrap(t + (n - base), hdr.capacity)
  }

  /** new_block_index: the old slots from the one after the tail round to the tail, then fresh ones. */
  function GrownSlots(hdr: Header, firstFresh: nat): (r: seq<nat>)
    requires 0 < hdr.capacity == |hdr.slots| && hdr.tail < hdr.capacity
    ensures |r| == 2 * hdr.capacity
  {
    seq(2 * hdr.capacity, (i: nat) => GrownSlotAt(hdr, firstFresh, i))
  }

  function GrownSlotAt(hdr: Header, firstFresh: nat, i: nat): nat
    requires 0 < hdr.capacity == |hdr.slots| && hdr.tail < hdr.capacity
  {
    if i < hdr.capacity then hdr.slots[OldSlot(hdr, i)] else firstFresh + (i - hdr.capacity)
  }

  /** Slot i of the grown ring holds what slot OldSlot(hdr, i) of the old ring held. */
  function OldSlot(hdr: Header, i: nat): (j: nat)
    requires hdr.capacity > 0
    ensures j < hdr.capacity
  {
    Modular.Wrap(hdr.tail + 1 + i, hdr.capacity)
  }

  function Grown(g: Shared): Shared
    requires |g.headers| > 0
    requires 0 < Current(g).capacity == |Current(g).slots| && Current(g).tail < Current(g).capacity
  {
    var hdr := Current(g);
    g.(headers := g.headers + [Header(2 * hdr.capacity, hdr.capacity - 1, GrownSlots(hdr, |g.entries|),
                                      g.last - hdr.capacity + 1)],
       entries := g.entries + seq(hdr.capacity, i => Entry(None, None)))
  }

  ghost predicate Init(s: State) {
    var g := s.shared;
    && |g.headers| == 1 && Current(g).capacity > 0
    && Current(g).tail == Current(g).capacity - 1 && Current(g).shift == 0
    && Current(g).slots == seq(Current(g).capacity, (i: nat) => i)
    && g.entries == seq(Current(g).capacity, i => Entry(None, None))
    && g.last == -1 && g.high == -1 && g.published == -1
    && g.live == map[] && g.home == map[] && g.claimed == map[] && g.consumed == map[]
    && s.writer == Ready
    && forall t :: 0 <= t < |s.threads| ==> s.threads[t] == Idle
  }

  function NextSlot(hdr: Header): (j: nat)
    requires hdr.capacity > 0
    ensures j < hdr.capacity
  {
    Modular.Wrap(hdr.tail + 1, hdr.capacity)
  }

  function PreviousSlot(hdr: Header): (j: nat)
    requires hdr.capacity > 0
    ensures j < hdr.capacity
  {
    Modular.Wrap(hdr.tail - 1, hdr.capacity)
  }

  predicate Free(e: Entry) {
    e.key == None || e.value == None
  }

  /** One access of the producer. */
  ghost predicate WriterMove(g: Shared, w: Writer, a: WriterAction, g': Shared, w': Writer)
    requires Shaped(g)
  {
    var hdr := Current(g);
    var next := hdr.slots[NextSlot(hdr)];
    match a
    case InsertKey =>
      && w.Ready? && g.last + 1 >= 0 && Free(g.entries[next])
      && g' == g.(entries := g.entries[next := g.entries[next].(key := Some(g.last + 1))],
                  high := if g.high > g.last then g.high else g.last + 1)
      && w' == Keyed(g.last + 1)
    case Grow =>
      && w.Ready? && !Free(g.entries[next])
      && g' == Grown(g) && w' == w
    case InsertTail =>
      && w.Keyed? && g' == SetTail(g, NextSlot(hdr)).(last := g.last + 1) && w' == Tailed(w.n)
    case StoreValue(b) =>
      && w.Tailed? && w' == Ready
      && var e := hdr.slots[hdr.tail];
         g' == g.(entries := g.entries[e := g.entries[e].(value := Some(b))],
                  live := g.live[w.n := b], home := g.home[w.n := e])
    case FailRewind =>
      w.Tailed? && g' == SetTail(g, PreviousSlot(hdr)).(last := g.last - 1) && w' == Rewound(w.n)
    case FailClear =>
      && w.Rewound?
      && g' == g.(entries := g.entries[next := g.entries[next].(value := None)]) && w' == Ready
    case Publish =>
      w.Ready? && g' == g.(published := g.last) && w' == w
    case BeginUndo =>
      && w.Ready? && -1 <= g.published < g.last && g' == g && w' == Undoing(g.published + 1, g.last)
    case UndoClear =>
      && w.Undoing? && g.entries[hdr.slots[hdr.tail]].key.Some? && w' == Cleared(w.m, w.hi)
      && var e := hdr.slots[Offset(hdr, hdr.tail, g.entries[hdr.slots[hdr.tail]].key.value, w.m)];
         g' == g.(entries := g.entries[e := g.entries[e].(value := None)],
                  live := g.live - {w.m}, home := g.home - {w.m})
    case UndoRewind =>
      && w.Cleared?
      && g' == SetTail(g, PreviousSlot(hdr)).(last := g.last - 1)
      && w' == if w.m == w.hi then Ready else Undoing(w.m + 1, w.hi)
  }

  /** One access of a consumer; size is the number of elements of a block. */
  ghost predicate Move(size: nat, g: Shared, l: Local, a: Action, g': Shared, l': Local)
    requires Shaped(g)
  {
    match a
    case Claim(n) =>
      && l.Idle? && n <= g.published && Count(g.claimed, n) < size
      && g' == g.(claimed := g.claimed[n := Count(g.claimed, n) + 1]) && l' == Looking(n)
    case LoadHeader =>
      l.Looking? && g' == g && l' == GotHeader(l.n, |g.headers| - 1)
    case LoadTail =>
      l.GotHeader? && l.h < |g.headers| && g' == g && l' == GotTail(l.n, l.h, g.headers[l.h].tail)
    case LoadBase =>
      && l.GotTail? && l.h < |g.headers| && l.t < |g.headers[l.h].slots|
      && g.entries[g.headers[l.h].slots[l.t]].key.Some?
      && g' == g && l' == GotBase(l.n, l.h, l.t, g.entries[g.headers[l.h].slots[l.t]].key.value)
    case Resolve =>
      && l.GotBase? && l.h < |g.headers| && g' == g
      && var e := g.headers[l.h].slots[Offset(g.headers[l.h], l.t, l.base, l.n)];
         l' == Found(l.n, e, g.entries[e].value)
    case Consume =>
      && l.Found?
      && g' == g.(consumed := g.consumed[l.n := Count(g.consumed, l.n) + 1])
      && l' == if Count(g.consumed, l.n) + 1 == size then Emptied(l.n, l.entry) else Idle
    case NullValue =>
      && l.Emptied? && l.entry < |g.entries|
      && g' == g.(entries := g.entries[l.entry := g.entries[l.entry].(value := None)],
                  live := g.live - {l.n}, home := g.home - {l.n})
      && l' == Idle
  }

  ghost predicate WriterStep(s: State, a: WriterAction, s': State) {
    && Shaped(s.shared) && s'.threads == s.threads
    && WriterMove(s.shared, s.writer, a, s'.shared, s'.writer)
  }

  ghost predicate ConsumerStep(size: nat, s: State, t: nat, a: Action, s': State) {
    && Shaped(s.shared) && s'.writer == s.writer
    && t < |s.threads| == |s'.threads| && s'.threads == s.threads[t := s'.threads[t]]
    && Move(size, s.shared, s.threads[t], a, s'.shared, s'.threads[t])
  }

  ghost predicate Step(size: nat, s: State, s': State) {
    || (exists a :: WriterStep(s, a, s'))
    || (exists t: nat, a :: ConsumerStep(size, s, t, a, s'))
  }

  ghost function Protocol(size: nat): Runs.System<State> {
    Runs.System(s => Init(s), (s, s') => Step(size, s, s'))
  }

  ghost predicate IsRun(size: nat, run: seq<State>) {
    Runs.IsRun(Protocol(size), run)
  }
}
