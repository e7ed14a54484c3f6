/** The ring refines the abstract mailbox, and hands out every claimed value once and in order. */
module RingSafety {
  import Mailbox
  import Modular
  import Runs
  import opened RingProtocol

  lemma SlotsDiffer(p: nat, q: nat, n: nat)
    requires 0 < n && p != q && p < q + n && q < p + n
    ensures Slot(p, n) != Slot(q, n)
  {
    Modular.NeighboursDiffer(if p < q then p else q, if p < q then q else p, n);
  }

  // ---- the invariant ----

  /** Positions the consumer has given back. */
  function ReleasedCount(g: Shared, k: Reader): nat {
    g.dequeuePos + if k.Released? then 1 else 0
  }

  ghost predicate Sized(n: nat, g: Shared, rel: nat) {
    && 2 <= n == |g.cells| && |g.claims| == g.enqueuePos
    && rel <= g.enqueuePos <= rel + n
  }

  /** In the current window, position p's cell is free, claimed but unpublished, or holds p's value. */
  ghost predicate CellOk(n: nat, g: Shared, p: nat)
    requires 0 < n == |g.cells| && |g.claims| == g.enqueuePos
  {
    var cell := g.cells[Slot(p, n)];
    cell.sequence == p || (cell.sequence == p + 1 && p < g.enqueuePos && cell.data == g.claims[p])
  }

  ghost predicate WindowOk(n: nat, g: Shared, rel: nat) {
    && Sized(n, g, rel)
    && forall p: nat :: rel <= p < rel + n ==> CellOk(n, g, p)
  }

  ghost predicate LocalOk(n: nat, g: Shared, rel: nat, l: Local)
    requires Sized(n, g, rel)
  {
    match l
    case Loaded(pos, v) => pos <= g.enqueuePos
    case Ready(pos, v) => pos < g.enqueuePos || (pos < rel + n && g.cells[Slot(pos, n)].sequence == pos)
    case Claimed(pos, v) =>
      && rel <= pos < g.enqueuePos && g.claims[pos] == v
      && g.cells[Slot(pos, n)].sequence == pos
    case Filled(pos) =>
      && rel <= pos < g.enqueuePos
      && g.cells[Slot(pos, n)] == Cell(pos, g.claims[pos])
    case _ => true
  }

  ghost predicate ReaderOk(n: nat, g: Shared, k: Reader)
    requires 0 < n == |g.cells|
  {
    && !k.Broken?
    && g.dequeuePos + (if k.Waiting? then 0 else 1) <= |g.claims|
    && (k.Saw? || k.Took? ==> g.cells[Slot(g.dequeuePos, n)].sequence == g.dequeuePos + 1)
    && g.taken == g.claims[..g.dequeuePos + if k.Took? || k.Released? then 1 else 0]
  }

  /** The producer owns a position from its CAS to its sequence store. */
  predicate Owner(l: Local) {
    l.Claimed? || l.Filled?
  }

  predicate Apart(l: Local, u: Local) {
    Owner(l) && Owner(u) ==> l.pos != u.pos
  }

  ghost predicate Inv(n: nat, s: State) {
    var rel := ReleasedCount(s.shared, s.reader);
    && WindowOk(n, s.shared, rel)
    && ReaderOk(n, s.shared, s.reader)
    && (forall t :: 0 <= t < |s.threads| ==> LocalOk(n, s.shared, rel, s.threads[t]))
    && (forall t, u :: 0 <= t < u < |s.threads| ==> Apart(s.threads[t], s.threads[u]))
  }

  // ---- producers ----

  /** A free cell at a position of the window belongs to that very position. */
  lemma FreeMeansInWindow(n: nat, g: Shared, rel: nat, pos: nat)
    requires WindowOk(n, g, rel) && pos <= g.enqueuePos
    ensures g.cells[Slot(pos, n)].sequence == pos && pos >= rel ==> pos < rel + n
    ensures g.cells[Slot(pos, n)].sequence < pos ==> pos == g.enqueuePos == rel + n
  {
    if pos == rel + n {
      Modular.OneRoundLater(rel, n);
      assert CellOk(n, g, rel);
    } else if rel <= pos {
      assert CellOk(n, g, pos);
    } else {
      var p := Representative(n, rel, pos);
      assert CellOk(n, g, p);
    }
  }

  /** The position of the window that shares pos's cell. */
  lemma {:induction false} Representative(n: nat, rel: nat, pos: nat) returns (p: nat)
    requires 0 < n && pos < rel
    ensures rel <= p < rel + n && Slot(p, n) == Slot(pos, n)
    decreases rel - pos
  {
    Modular.OneRoundLater(pos, n);
    if pos + n < rel {
      p := Representative(n, rel, pos + n);
    } else {
      p := pos + n;
    }
  }

  lemma ProducerCell(n: nat, g: Shared, rel: nat, l: Local, a: Action, g': Shared, l': Local, p: nat)
    requires WindowOk(n, g, rel) && LocalOk(n, g, rel, l) && Move(n, g, l, a, g', l')
    requires rel <= p < rel + n && CellOk(n, g, p) && Sized(n, g', rel)
    ensures CellOk(n, g', p)
  {
    if Owner(l) && p != l.pos {
      SlotsDiffer(p, l.pos, n);
    }
  }

  lemma ProducerWindow(n: nat, g: Shared, rel: nat, l: Local, a: Action, g': Shared, l': Local)
    requires WindowOk(n, g, rel) && LocalOk(n, g, rel, l) && Move(n, g, l, a, g', l')
    ensures WindowOk(n, g', rel)
  {
    assert Sized(n, g', rel);
    forall p: nat | rel <= p < rel + n ensures CellOk(n, g', p) {
      ProducerCell(n, g, rel, l, a, g', l', p);
    }
  }

  lemma ProducerLocal(n: nat, g: Shared, rel: nat, l: Local, a: Action, g': Shared, l': Local)
    requires WindowOk(n, g, rel) && LocalOk(n, g, rel, l) && Move(n, g, l, a, g', l')
    requires Sized(n, g', rel)
    ensures LocalOk(n, g', rel, l')
  {
    if a.ReadSequence? {
      FreeMeansInWindow(n, g, rel, l.pos);
    }
  }

  /** Two distinct positions a producer may be relying on have distinct cells. */
  lemma ProducerOther(n: nat, g: Shared, rel: nat, l: Local, a: Action, g': Shared, l': Local, u: Local)
    requires WindowOk(n, g, rel) && LocalOk(n, g, rel, l) && Move(n, g, l, a, g', l')
    requires LocalOk(n, g, rel, u) && Apart(l, u) && Sized(n, g', rel)
    ensures LocalOk(n, g', rel, u) && Apart(l', u)
  {
    if (l.Claimed? || l.Filled?) && (u.Claimed? || u.Filled?) {
      SlotsDiffer(l.pos, u.pos, n);
    }
    if (l.Claimed? || l.Filled?) && u.Ready? && u.pos >= g.enqueuePos {
      SlotsDiffer(l.pos, u.pos, n);
    }
  }

  lemma ProducerReader(n: nat, g: Shared, k: Reader, l: Local, a: Action, g': Shared, l': Local)
    requires WindowOk(n, g, ReleasedCount(g, k)) && ReaderOk(n, g, k)
    requires LocalOk(n, g, ReleasedCount(g, k), l) && Move(n, g, l, a, g', l')
    ensures ReaderOk(n, g', k)
  {
    if k.Saw? || k.Took? {
      if Owner(l) && l.pos != g.dequeuePos {
        SlotsDiffer(l.pos, g.dequeuePos, n);
      }
    }
  }

  lemma ProducerKeeps(n: nat, s: State, t: nat, a: Action, s': State)
    requires Inv(n, s) && ProducerStep(n, s, t, a, s')
    ensures Inv(n, s')
  {
    var g, g', l, l' := s.shared, s'.shared, s.threads[t], s'.threads[t];
    var rel := ReleasedCount(g, s.reader);
    assert g'.dequeuePos == g.dequeuePos;
    ProducerWindow(n, g, rel, l, a, g', l');
    ProducerLocal(n, g, rel, l, a, g', l');
    ProducerReader(n, g, s.reader, l, a, g', l');
    forall u | 0 <= u < |s.threads| && u != t
      ensures LocalOk(n, g', rel, s.threads[u]) && Apart(l', s.threads[u])
    {
      assert Apart(s.threads[if t < u then t else u], s.threads[if t < u then u else t]);
      ProducerOther(n, g, rel, l, a, g', l', s.threads[u]);
    }
  }

  // ---- the consumer ----

  lemma ReaderKeepsWindow(n: nat, g: Shared, k: Reader, a: ReaderAction, g': Shared, k': Reader)
    requires WindowOk(n, g, ReleasedCount(g, k)) && ReaderOk(n, g, k) && ReaderMove(n, g, k, a, g', k')
    ensures WindowOk(n, g', ReleasedCount(g', k')) && ReaderOk(n, g', k')
  {
    var rel := ReleasedCount(g, k);
    assert CellOk(n, g, rel);
    if a.Release? {
      Modular.OneRoundLater(g.dequeuePos, n);
      forall p: nat | rel + 1 <= p < rel + 1 + n ensures CellOk(n, g', p) {
        if p < rel + n {
          assert CellOk(n, g, p);
          SlotsDiffer(p, rel, n);
        }
      }
    } else {
      forall p: nat | rel <= p < rel + n ensures CellOk(n, g', p) {
        assert CellOk(n, g, p);
      }
    }
  }

  lemma ReaderKeepsLocal(n: nat, g: Shared, k: Reader, a: ReaderAction, g': Shared, k': Reader, l: Local)
    requires WindowOk(n, g, ReleasedCount(g, k)) && ReaderOk(n, g, k) && ReaderMove(n, g, k, a, g', k')
    requires LocalOk(n, g, ReleasedCount(g, k), l) && Sized(n, g', ReleasedCount(g', k'))
    ensures LocalOk(n, g', ReleasedCount(g', k'), l)
  {
    if a.Release? {
      var rel := g.dequeuePos;
      if (Owner(l) || (l.Ready? && l.pos >= g.enqueuePos)) && l.pos != rel {
        SlotsDiffer(l.pos, rel, n);
      }
    }
  }

  lemma ConsumerKeeps(n: nat, s: State, a: ReaderAction, s': State)
    requires Inv(n, s) && ConsumerStep(n, s, a, s')
    ensures Inv(n, s')
  {
    ReaderKeepsWindow(n, s.shared, s.reader, a, s'.shared, s'.reader);
    forall t | 0 <= t < |s.threads|
      ensures LocalOk(n, s'.shared, ReleasedCount(s'.shared, s'.reader), s'.threads[t])
    {
      ReaderKeepsLocal(n, s.shared, s.reader, a, s'.shared, s'.reader, s.threads[t]);
    }
  }

  // ---- the capacity ----

  ghost predicate PowerOfTwo(p: nat) {
    p == 1 || (p > 1 && p % 2 == 0 && PowerOfTwo(p / 2))
  }

  lemma {:induction false} BitCeilFromIsLeast(p: nat, n: nat)
    requires PowerOfTwo(p) && (p == 1 || p / 2 < n)
    ensures PowerOfTwo(BitCeilFrom(p, n)) && BitCeilFrom(p, n) >= n
    ensures BitCeilFrom(p, n) == 1 || BitCeilFrom(p, n) / 2 < n
    decreases n - p
  {
    if p < n {
      assert (2 * p) / 2 == p;
      BitCeilFromIsLeast(2 * p, n);
    }
  }

  /** The capacity is the least power of two that is at least the request and at least two. */
  lemma CapacityIsRounded(requested: nat)
    ensures PowerOfTwo(CapacityFor(requested))
    ensures CapacityFor(requested) >= 2 && CapacityFor(requested) >= requested
    ensures CapacityFor(requested) / 2 < 2 || CapacityFor(requested) / 2 < requested
  {
    BitCeilFromIsLeast(1, if requested < 2 then 2 else requested);
  }

  // ---- every run ----

  lemma InitHolds(n: nat, s: State)
    requires Init(n, s)
    ensures Inv(n, s)
  {
    forall p: nat | 0 <= p < n ensures CellOk(n, s.shared, p) {
      assert Slot(p, n) == p;
    }
  }

  lemma StepKeeps(n: nat, s: State, s': State)
    requires Inv(n, s) && Step(n, s, s')
    ensures Inv(n, s')
  {
    if t: nat, a :| ProducerStep(n, s, t, a, s') {
      ProducerKeeps(n, s, t, a, s');
    } else {
      var a :| ConsumerStep(n, s, a, s');
      ConsumerKeeps(n, s, a, s');
    }
  }

  lemma EveryStateOk(n: nat, run: seq<State>, i: nat)
    requires IsRun(n, run) && i < |run|
    ensures Inv(n, run[i])
  {
    forall s | Init(n, s) ensures Inv(n, s) {
      InitHolds(n, s);
    }
    forall s, s' | Inv(n, s) && Step(n, s, s') ensures Inv(n, s') {
      StepKeeps(n, s, s');
    }
    Runs.Invariant(Protocol(n), s => Inv(n, s), run, i);
  }

  // ---- what the ring promises ----

  /** The values handed to the consumer are a prefix of the values in CAS order: each claimed value
      comes out once, and in that order. */
  lemma InCasOrder(n: nat, run: seq<State>, i: nat)
    requires IsRun(n, run) && i < |run|
    ensures run[i].shared.taken <= run[i].shared.claims
    ensures |run[i].shared.claims| == run[i].shared.enqueuePos
    ensures run[i].shared.dequeuePos <= |run[i].shared.taken| <= run[i].shared.dequeuePos + 1
  {
    EveryStateOk(n, run, i);
  }

  /** The check inside Pop never throws. */
  lemma PopNeverThrows(n: nat, run: seq<State>, i: nat)
    requires IsRun(n, run) && i < |run|
    ensures !run[i].reader.Broken?
  {
    EveryStateOk(n, run, i);
  }

  /** Size, read by the consumer between two pops, lies between zero and the capacity. */
  lemma SizeInRange(n: nat, run: seq<State>, i: nat)
    requires IsRun(n, run) && i < |run| && run[i].reader.Waiting?
    ensures 0 <= run[i].shared.enqueuePos - run[i].shared.dequeuePos <= n
  {
    EveryStateOk(n, run, i);
  }

  /** Push reports full only at a moment when exactly capacity positions are claimed and unreleased. */
  lemma FullMeansFull(n: nat, run: seq<State>, i: nat, t: nat)
    requires IsRun(n, run) && i + 1 < |run|
    requires ProducerStep(n, run[i], t, ReadSequence, run[i + 1]) && run[i + 1].threads[t].Idle?
    ensures run[i].shared.enqueuePos == ReleasedCount(run[i].shared, run[i].reader) + n
  {
    EveryStateOk(n, run, i);
    FreeMeansInWindow(n, run[i].shared, ReleasedCount(run[i].shared, run[i].reader), run[i].threads[t].pos);
  }

  lemma OwnersApart(n: nat, s: State, t: nat, u: nat)
    requires Inv(n, s) && t < u < |s.threads| && Owner(s.threads[t]) && Owner(s.threads[u])
    ensures Slot(s.threads[u].pos, n) != Slot(s.threads[t].pos, n)
  {
    var rel := ReleasedCount(s.shared, s.reader);
    assert LocalOk(n, s.shared, rel, s.threads[t]) && LocalOk(n, s.shared, rel, s.threads[u]);
    assert Apart(s.threads[t], s.threads[u]);
    SlotsDiffer(s.threads[u].pos, s.threads[t].pos, n);
  }

  lemma OwnerWritesFreely(n: nat, s: State, t: nat)
    requires Inv(n, s) && t < |s.threads| && Owner(s.threads[t])
    ensures s.threads[t].pos < |s.shared.taken| + n
    ensures s.reader.Saw? || s.reader.Took? ==> Slot(s.threads[t].pos, n) != Slot(s.shared.dequeuePos, n)
  {
    assert LocalOk(n, s.shared, ReleasedCount(s.shared, s.reader), s.threads[t]);
    SlotsDiffer(s.shared.dequeuePos + 1, s.shared.dequeuePos, n);
  }

  /** A producer that writes its cell overwrites nothing unread: the previous value of that cell
      was taken and the consumer is not reading it. */
  lemma NoOverwrite(n: nat, run: seq<State>, i: nat, t: nat)
    requires IsRun(n, run) && i < |run| && t < |run[i].threads| && Owner(run[i].threads[t])
    ensures run[i].threads[t].pos < |run[i].shared.taken| + n
    ensures run[i].reader.Saw? || run[i].reader.Took? ==>
              Slot(run[i].threads[t].pos, n) != Slot(run[i].shared.dequeuePos, n)
  {
    EveryStateOk(n, run, i);
    OwnerWritesFreely(n, run[i], t);
  }

  /** No two producers ever own the same cell. */
  lemma OneWriterPerCell(n: nat, run: seq<State>, i: nat, t: nat, u: nat)
    requires IsRun(n, run) && i < |run| && t < u < |run[i].threads|
    requires Owner(run[i].threads[t]) && Owner(run[i].threads[u])
    ensures Slot(run[i].threads[u].pos, n) != Slot(run[i].threads[t].pos, n)
  {
    EveryStateOk(n, run, i);
    OwnersApart(n, run[i], t, u);
  }

  // ---- refinement of the abstract mailbox ----

  predicate PublishedAt(n: nat, g: Shared, rel: nat, p: nat)
    requires 0 < n == |g.cells|
  {
    p < g.enqueuePos && (p < rel || g.cells[Slot(p, n)].sequence == p + 1)
  }

  /** The mailbox a ring stands for. */
  ghost function Abs(n: nat, s: State): Mailbox.Box<Value>
    requires 0 < n == |s.shared.cells|
  {
    var rel := ReleasedCount(s.shared, s.reader);
    Mailbox.Box(s.shared.claims,
                set p: nat | p < s.shared.enqueuePos && PublishedAt(n, s.shared, rel, p),
                |s.shared.taken|)
  }

  lemma PublishedKept(n: nat, g: Shared, rel: nat, l: Local, a: Action, g': Shared, l': Local, p: nat)
    requires WindowOk(n, g, rel) && LocalOk(n, g, rel, l) && Move(n, g, l, a, g', l')
    ensures |g'.cells| == n
    ensures PublishedAt(n, g', rel, p) <==> PublishedAt(n, g, rel, p) || (a.Publish? && p == l.pos)
  {
    if rel <= p < rel + n {
      assert CellOk(n, g, p);
      if (a.Publish? || a.Fill?) && p != l.pos {
        SlotsDiffer(p, l.pos, n);
      }
    }
  }

  /** Every step of a producer is a step of the abstract mailbox: the winning CAS claims a place,
      the sequence store makes it visible, and nothing else shows. */
  lemma ProducerRefines(n: nat, s: State, t: nat, a: Action, s': State)
    requires Inv(n, s) && ProducerStep(n, s, t, a, s')
    ensures Inv(n, s')
    ensures Abs(n, s') ==
              if a.Cas? && s'.threads[t].Claimed? then Mailbox.Claim(Abs(n, s), s.threads[t].v)
              else if a.Publish? then Mailbox.Publish(Abs(n, s), s.threads[t].pos)
              else Abs(n, s)
  {
    ProducerKeeps(n, s, t, a, s');
    var rel := ReleasedCount(s.shared, s.reader);
    forall p: nat
      ensures PublishedAt(n, s'.shared, rel, p) <==>
              PublishedAt(n, s.shared, rel, p) || (a.Publish? && p == s.threads[t].pos)
    {
      PublishedKept(n, s.shared, rel, s.threads[t], a, s'.shared, s'.threads[t], p);
    }
  }

  /** Every step of the consumer is a step of the abstract mailbox: moving the data out pops. */
  lemma ConsumerRefines(n: nat, s: State, a: ReaderAction, s': State)
    requires Inv(n, s) && ConsumerStep(n, s, a, s')
    ensures Inv(n, s')
    ensures a.Take? ==> Mailbox.HeadVisible(Abs(n, s))
                        && s'.shared.taken == s.shared.taken + [Abs(n, s).claimed[Abs(n, s).popped]]
    ensures a.Look? && s'.reader.Waiting? ==> !Mailbox.HeadVisible(Abs(n, s))
    ensures Abs(n, s') == if a.Take? then Mailbox.Pop(Abs(n, s)) else Abs(n, s)
  {
    ConsumerKeeps(n, s, a, s');
    var g, g' := s.shared, s'.shared;
    var rel, rel' := ReleasedCount(g, s.reader), ReleasedCount(g', s'.reader);
    assert CellOk(n, g, rel);
    forall p: nat | p < g.enqueuePos ensures PublishedAt(n, g', rel', p) <==> PublishedAt(n, g, rel, p) {
      if a.Release? && p > rel {
        SlotsDiffer(p, rel, n);
      }
    }
  }

  /** The ring is a mailbox: along every run the abstraction takes mailbox steps or stands still. */
  lemma RingIsAMailbox(n: nat, run: seq<State>, i: nat)
    requires IsRun(n, run) && i + 1 < |run|
    ensures Inv(n, run[i]) && Inv(n, run[i + 1])
    ensures Mailbox.Valid(Abs(n, run[i])) && Mailbox.Next(Abs(n, run[i]), Abs(n, run[i + 1]))
  {
    var s, s' := run[i], run[i + 1];
    EveryStateOk(n, run, i);
    EveryStateOk(n, run, i + 1);
    AbsValid(n, s);
    assert Step(n, s, s') by {
      assert Protocol(n).next(run[i], run[i + 1]);
    }
    if t: nat, a :| ProducerStep(n, s, t, a, s') {
      ProducerRefines(n, s, t, a, s');
    } else {
      var a :| ConsumerStep(n, s, a, s');
      ConsumerRefines(n, s, a, s');
    }
  }

  lemma AbsValid(n: nat, s: State)
    requires Inv(n, s)
    ensures Mailbox.Valid(Abs(n, s))
  {
    assert CellOk(n, s.shared, ReleasedCount(s.shared, s.reader));
  }
}
