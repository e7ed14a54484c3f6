/** What the producer and the consumers of a block index can do by themselves, whatever the others are in the
    middle of. */
module BlockIndexCalls {
  import opened BlockIndexInvariant
  import opened BlockIndexProtocol
  import opened BlockIndexSafety
  import opened Options
  import Runs

  /** A continuation in which only the producer steps. */
  ghost predicate Writes(size: nat, run: seq<State>, more: seq<State>, g: Shared, w: Writer) {
    && run != []
    && Runs.Leads(Protocol(size), run, more, Runs.Last(run).(shared := g, writer := w))
  }

  lemma WritesOne(size: nat, run: seq<State>, a: WriterAction, g: Shared, w: Writer) returns (more: seq<State>)
    requires IsRun(size, run) && Shaped(Runs.Last(run).shared)
    requires WriterMove(Runs.Last(run).shared, Runs.Last(run).writer, a, g, w)
    ensures Writes(size, run, more, g, w)
  {
    var s' := Runs.Last(run).(shared := g, writer := w);
    assert WriterStep(Runs.Last(run), a, s');
    Runs.OneMore(Protocol(size), run, s');
    more := [s'];
  }

  lemma WritesThen(size: nat, run: seq<State>, first: seq<State>, g1: Shared, w1: Writer,
                   a: WriterAction, g: Shared, w: Writer) returns (more: seq<State>)
    requires Writes(size, run, first, g1, w1) && Shaped(g1) && WriterMove(g1, w1, a, g, w)
    ensures Writes(size, run, more, g, w)
  {
    var s1, s2 := Runs.Last(run).(shared := g1, writer := w1), Runs.Last(run).(shared := g, writer := w);
    assert WriterStep(s1, a, s2);
    more := Runs.GoOn(Protocol(size), run, first, s1, s2);
  }

  /** What a continuation leads to is reachable, and so satisfies the invariant. */
  lemma LedTo(size: nat, run: seq<State>, more: seq<State>, g: Shared, w: Writer)
    requires size > 0 && Writes(size, run, more, g, w)
    ensures IndexOk(g, w)
  {
    EveryStateOk(size, run + more, |run + more| - 1);
    assert Runs.Last(run + more) == Runs.Last(more);
  }

  // ---- the producer ----

  /** The entry behind the tail keyed with the next number. */
  function KeyOf(g: Shared): Shared
    requires Shaped(g) && g.last + 1 >= 0
  {
    var e := Current(g).slots[NextSlot(Current(g))];
    g.(entries := g.entries[e := g.entries[e].(key := Some(g.last + 1))],
       high := if g.high > g.last then g.high else g.last + 1)
  }

  /** After growing there is a free entry behind the tail. */
  lemma GrownHasRoom(g: Shared, g': Shared)
    requires IndexOk(g, Ready) && WriterMove(g, Ready, Grow, g', Ready)
    ensures IndexOk(g', Ready) && Free(g'.entries[Current(g').slots[NextSlot(Current(g'))]])
  {
    GrowKeeps(g, g');
    GrowShapes(g, g');
    var cap := Current(g).capacity;
    assert NextSlot(Current(g')) == cap;
    assert Current(g').slots[cap] == |g.entries|;
  }

  lemma KeyedStores(size: nat, run: seq<State>, keyed: seq<State>, g1: Shared, n: nat, b: Block)
    returns (more: seq<State>, g': Shared)
    requires size > 0 && Writes(size, run, keyed, g1, Keyed(n))
    ensures Writes(size, run, more, g', Ready)
    ensures n == g1.last + 1 && g'.last == n && g'.live == g1.live[n := b]
    ensures g'.published == g1.published && g'.claimed == g1.claimed && g'.consumed == g1.consumed
  {
    LedTo(size, run, keyed, g1, Keyed(n));
    var g2 := SetTail(g1, NextSlot(Current(g1))).(last := g1.last + 1);
    var tailed := WritesThen(size, run, keyed, g1, Keyed(n), InsertTail, g2, Tailed(n));
    LedTo(size, run, tailed, g2, Tailed(n));
    var home := Current(g2).slots[Current(g2).tail];
    g' := g2.(entries := g2.entries[home := g2.entries[home].(value := Some(b))],
              live := g2.live[n := b], home := g2.home[n := home]);
    more := WritesThen(size, run, tailed, g2, Tailed(n), StoreValue(b), g', Ready);
  }

  /** From every reachable state between two insertions the producer can insert a block by itself under the
      next number, growing the index if the next entry is in use; nothing else about live blocks changes. */
  lemma InsertAlone(size: nat, run: seq<State>, b: Block) returns (more: seq<State>, g': Shared)
    requires size > 0 && IsRun(size, run) && Runs.Last(run).writer == Ready
    ensures Writes(size, run, more, g', Ready)
    ensures var g := Runs.Last(run).shared;
            && g.last + 1 >= 0 && g'.last == g.last + 1 && g'.live == g.live[g.last + 1 := b]
            && g'.published == g.published && g'.claimed == g.claimed && g'.consumed == g.consumed
  {
    var g := Runs.Last(run).shared;
    EveryStateOk(size, run, |run| - 1);
    if Free(g.entries[Current(g).slots[NextSlot(Current(g))]]) {
      var keyed := WritesOne(size, run, InsertKey, KeyOf(g), Keyed(g.last + 1));
      more, g' := KeyedStores(size, run, keyed, KeyOf(g), g.last + 1, b);
    } else {
      var grown := WritesOne(size, run, Grow, Grown(g), Ready);
      GrownHasRoom(g, Grown(g));
      var g1, n := KeyOf(Grown(g)), g.last + 1;
      var keyed := WritesThen(size, run, grown, Grown(g), Ready, InsertKey, g1, Keyed(n));
      more, g' := KeyedStores(size, run, keyed, g1, n, b);
    }
  }

  /** Without a block the producer can take the entry back: everything about live blocks is as before. */
  lemma FailsAlone(size: nat, run: seq<State>) returns (more: seq<State>, g': Shared)
    requires size > 0 && IsRun(size, run) && Runs.Last(run).writer.Tailed?
    ensures Writes(size, run, more, g', Ready)
    ensures var g := Runs.Last(run).shared; g'.last == g.last - 1 && g'.live == g.live && g'.published == g.published
  {
    var g, n := Runs.Last(run).shared, Runs.Last(run).writer.n;
    EveryStateOk(size, run, |run| - 1);
    var g1 := SetTail(g, PreviousSlot(Current(g))).(last := g.last - 1);
    var rewound := WritesOne(size, run, FailRewind, g1, Rewound(n));
    LedTo(size, run, rewound, g1, Rewound(n));
    var e := Current(g1).slots[NextSlot(Current(g1))];
    g' := g1.(entries := g1.entries[e := g1.entries[e].(value := None)]);
    more := WritesThen(size, run, rewound, g1, Rewound(n), FailClear, g', Ready);
  }

  lemma {:induction false} UndoesFrom(size: nat, run: seq<State>, first: seq<State>, g: Shared, m: nat, hi: nat)
    returns (more: seq<State>, g': Shared)
    requires size > 0 && Writes(size, run, first, g, Undoing(m, hi))
    ensures Writes(size, run, more, g', Ready)
    ensures g'.last == g'.published == g.published
    ensures forall n: nat ::
              && (n in g'.live <==> n in g.live && n <= g.published)
              && (n in g'.live ==> g'.live[n] == g.live[n])
    decreases hi - m
  {
    LedTo(size, run, first, g, Undoing(m, hi));
    UndoFinds(g, Undoing(m, hi));
    var tail := Current(g).slots[Current(g).tail];
    var e := Current(g).slots[Offset(Current(g), Current(g).tail, g.entries[tail].key.value, m)];
    var g1 := g.(entries := g.entries[e := g.entries[e].(value := None)], live := g.live - {m}, home := g.home - {m});
    var cleared := WritesThen(size, run, first, g, Undoing(m, hi), UndoClear, g1, Cleared(m, hi));
    LedTo(size, run, cleared, g1, Cleared(m, hi));
    var g2 := SetTail(g1, PreviousSlot(Current(g1))).(last := g1.last - 1);
    if m == hi {
      more := WritesThen(size, run, cleared, g1, Cleared(m, hi), UndoRewind, g2, Ready);
      g' := g2;
      LedTo(size, run, more, g', Ready);
    } else {
      var next := WritesThen(size, run, cleared, g1, Cleared(m, hi), UndoRewind, g2, Undoing(m + 1, hi));
      more, g' := UndoesFrom(size, run, next, g2, m + 1, hi);
    }
  }

  /** A bulk enqueue that has no block for the rest of its elements can take back, by itself, every block it
      put into the index and none that was published, the very first one included. */
  lemma UndoAlone(size: nat, run: seq<State>) returns (more: seq<State>, g': Shared)
    requires size > 0 && IsRun(size, run) && Runs.Last(run).writer == Ready
    requires Runs.Last(run).shared.published < Runs.Last(run).shared.last
    ensures Writes(size, run, more, g', Ready)
    ensures var g := Runs.Last(run).shared;
            && g'.last == g'.published == g.published
            && forall n: nat ::
                 && (n in g'.live <==> n in g.live && n <= g.published)
                 && (n in g'.live ==> g'.live[n] == g.live[n])
  {
    var g := Runs.Last(run).shared;
    EveryStateOk(size, run, |run| - 1);
    var first := WritesOne(size, run, BeginUndo, g, Undoing(g.published + 1, g.last));
    more, g' := UndoesFrom(size, run, first, g, g.published + 1, g.last);
  }

  // ---- a consumer ----

  ghost predicate Reads(size: nat, run: seq<State>, more: seq<State>, t: nat, g: Shared, l: Local) {
    && run != [] && t < |Runs.Last(run).threads|
    && Runs.Leads(Protocol(size), run, more,
                  Runs.Last(run).(shared := g, threads := Runs.Last(run).threads[t := l]))
  }

  lemma ReadsOne(size: nat, run: seq<State>, t: nat, a: Action, g: Shared, l: Local) returns (more: seq<State>)
    requires IsRun(size, run) && t < |Runs.Last(run).threads| && Shaped(Runs.Last(run).shared)
    requires Move(size, Runs.Last(run).shared, Runs.Last(run).threads[t], a, g, l)
    ensures Reads(size, run, more, t, g, l)
  {
    var s' := Runs.Last(run).(shared := g, threads := Runs.Last(run).threads[t := l]);
    assert ConsumerStep(size, Runs.Last(run), t, a, s');
    Runs.OneMore(Protocol(size), run, s');
    more := [s'];
  }

  lemma ReadsThen(size: nat, run: seq<State>, first: seq<State>, t: nat, g1: Shared, l1: Local,
                  a: Action, g: Shared, l: Local) returns (more: seq<State>)
    requires Reads(size, run, first, t, g1, l1) && Shaped(g1) && Move(size, g1, l1, a, g, l)
    ensures Reads(size, run, more, t, g, l)
  {
    var s := Runs.Last(run);
    var s1, s2 := s.(shared := g1, threads := s.threads[t := l1]), s.(shared := g, threads := s.threads[t := l]);
    assert s1.threads[t := l] == s2.threads;
    assert ConsumerStep(size, s1, t, a, s2);
    more := Runs.GoOn(Protocol(size), run, first, s1, s2);
  }

  lemma ReadTo(size: nat, run: seq<State>, more: seq<State>, t: nat, g: Shared, l: Local)
    requires size > 0 && Reads(size, run, more, t, g, l)
    ensures Shaped(g) && LivesOk(g) && BlockIndexInvariant.LocalOk(g, l)
  {
    EveryStateOk(size, run + more, |run + more| - 1);
    assert Runs.Last(run + more) == Runs.Last(more);
    assert BlockIndexInvariant.LocalOk(Runs.Last(more).shared, Runs.Last(more).threads[t]);
  }

  /** From every reachable state an idle consumer can find, by itself, the block of any element that is
      published and not claimed, and consume the element. */
  lemma ConsumeAlone(size: nat, run: seq<State>, t: nat, n: nat) returns (more: seq<State>, e: nat)
    requires size > 0 && IsRun(size, run) && t < |Runs.Last(run).threads| && Runs.Last(run).threads[t] == Idle
    requires n <= Runs.Last(run).shared.published && Count(Runs.Last(run).shared.claimed, n) < size
    ensures var g := Runs.Last(run).shared;
            && n in g.live
            && Reads(size, run, more, t, g.(claimed := g.claimed[n := Count(g.claimed, n) + 1]),
                     Found(n, e, Some(g.live[n])))
  {
    var s := Runs.Last(run);
    var g := s.shared;
    EveryStateOk(size, run, |run| - 1);
    assert GoneAt(size, g, n) && LiveAt(g, n);
    var g1 := g.(claimed := g.claimed[n := Count(g.claimed, n) + 1]);
    var claimed := ReadsOne(size, run, t, Claim(n), g1, Looking(n));
    ReadTo(size, run, claimed, t, g1, Looking(n));
    var h := |g1.headers| - 1;
    var headed := ReadsThen(size, run, claimed, t, g1, Looking(n), LoadHeader, g1, GotHeader(n, h));
    ReadTo(size, run, headed, t, g1, GotHeader(n, h));
    var tail := g1.headers[h].tail;
    var tailed := ReadsThen(size, run, headed, t, g1, GotHeader(n, h), LoadTail, g1, GotTail(n, h, tail));
    ReadTo(size, run, tailed, t, g1, GotTail(n, h, tail));
    var base := g1.entries[g1.headers[h].slots[tail]].key.value;
    var based := ReadsThen(size, run, tailed, t, g1, GotTail(n, h, tail), LoadBase, g1, GotBase(n, h, tail, base));
    e := g1.headers[h].slots[Offset(g1.headers[h], tail, base, n)];
    var found := Found(n, e, g1.entries[e].value);
    more := ReadsThen(size, run, based, t, g1, GotBase(n, h, tail, base), Resolve, g1, found);
    ReadTo(size, run, more, t, g1, found);
  }

  /** A consumer that found its block can count its element by itself; the one that takes the last element
      takes the block out of the index. */
  lemma CountAlone(size: nat, run: seq<State>, t: nat) returns (more: seq<State>, g': Shared)
    requires size > 0 && IsRun(size, run) && t < |Runs.Last(run).threads| && Runs.Last(run).threads[t].Found?
    ensures Reads(size, run, more, t, g', Idle)
    ensures var g, n := Runs.Last(run).shared, Runs.Last(run).threads[t].n;
            && g'.consumed == g.consumed[n := Count(g.consumed, n) + 1] && g'.claimed == g.claimed
            && g'.live == if Count(g.consumed, n) + 1 == size then g.live - {n} else g.live
  {
    var g, l := Runs.Last(run).shared, Runs.Last(run).threads[t];
    EveryStateOk(size, run, |run| - 1);
    assert BlockIndexInvariant.LocalOk(g, l) && LiveAt(g, l.n);
    var g1 := g.(consumed := g.consumed[l.n := Count(g.consumed, l.n) + 1]);
    if Count(g.consumed, l.n) + 1 == size {
      var emptied := ReadsOne(size, run, t, Consume, g1, Emptied(l.n, l.entry));
      ReadTo(size, run, emptied, t, g1, Emptied(l.n, l.entry));
      g' := g1.(entries := g1.entries[l.entry := g1.entries[l.entry].(value := None)],
                live := g1.live - {l.n}, home := g1.home - {l.n});
      more := ReadsThen(size, run, emptied, t, g1, Emptied(l.n, l.entry), NullValue, g', Idle);
    } else {
      more := ReadsOne(size, run, t, Consume, g1, Idle);
      g' := g1;
    }
  }
}
