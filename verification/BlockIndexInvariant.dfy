/** The inductive invariant of the block index. */
module BlockIndexInvariant {
  import opened Counting
  import opened Options
  import opened BlockIndexProtocol
  import opened BlockIndexSlots

  /** A key a header can see sits in the slot reserved for it. */
  ghost predicate AlignedAt(entries: seq<Entry>, hdr: Header, j: int)
    requires HeaderShaped(entries, hdr)
  {
    0 <= j < |hdr.slots| && entries[hdr.slots[j]].key.Some? ==>
      SlotFor(hdr, entries[hdr.slots[j]].key.value) == j
  }

  /** An entry the latest header reserves for n is, in an older header that shares it, reserved for n too. */
  ghost predicate LinkedAt(hdr: Header, cur: Header, j: int, n: int)
    requires 0 < hdr.capacity == |hdr.slots| && 0 < cur.capacity == |cur.slots|
  {
    0 <= j < |hdr.slots| && hdr.slots[j] == cur.slots[SlotFor(cur, n)] ==> SlotFor(hdr, n) == j
  }

  ghost predicate HeaderOk(g: Shared, h: int)
    requires Shaped(g)
  {
    0 <= h < |g.headers| ==>
      && (forall j :: AlignedAt(g.entries, g.headers[h], j))
      && (forall j, n :: LinkedAt(g.headers[h], Current(g), j, n))
      && (h < |g.headers| - 1 ==> g.entries[g.headers[h].slots[g.headers[h].tail]].key.Some?)
  }

  ghost predicate HeadersOk(g: Shared) {
    Shaped(g) && forall h :: HeaderOk(g, h)
  }

  predicate KeyedAt(g: Shared, k: int)
    requires Shaped(g)
  {
    g.entries[Current(g).slots[SlotFor(Current(g), k)]].key.Some?
  }

  /** Keys the latest header sees lie within one round below the highest number. */
  ghost predicate InRound(g: Shared, j: int)
    requires Shaped(g)
  {
    0 <= j < |Current(g).slots| && g.entries[Current(g).slots[j]].key.Some? ==>
      g.high - Current(g).capacity < g.entries[Current(g).slots[j]].key.value <= g.high
  }

  /** The tail slot is the last number's, and every slot from the first number still needed up to
      the highest is keyed. */
  ghost predicate RoundOk(g: Shared)
    requires Shaped(g)
  {
    && SlotFor(Current(g), g.last) == Current(g).tail
    && -1 <= g.published <= g.last <= g.high <= g.published + Current(g).capacity
    && (forall j :: InRound(g, j))
    && (forall k :: g.published < k <= g.high ==> KeyedAt(g, k))
    && (forall n, k :: n in g.live && n <= k <= g.high ==> KeyedAt(g, k))
  }

  /** A live block is in the latest header, with its number and its value. */
  ghost predicate LiveAt(g: Shared, n: nat)
    requires Shaped(g)
  {
    n in g.live ==>
      && n in g.home
      && g.home[n] == Current(g).slots[SlotFor(Current(g), n)]
      && g.entries[g.home[n]] == Entry(Some(n), Some(g.live[n]))
  }

  /** An entry with a value is the home of a live block. */
  ghost predicate ValueAt(g: Shared, e: int) {
    0 <= e < |g.entries| && g.entries[e].value.Some? ==>
      g.entries[e].key.Some? && g.entries[e].key.value in g.live && g.entries[e].key.value in g.home
      && g.home[g.entries[e].key.value] == e
  }

  ghost predicate LivesOk(g: Shared)
    requires Shaped(g)
  {
    && (forall n :: LiveAt(g, n))
    && (forall e :: ValueAt(g, e))
  }

  /** The blocks above the last published one that are in the index. */
  ghost predicate UnpublishedAre(g: Shared, lo: int, hi: int) {
    forall n: nat :: n > g.published ==> (n in g.live <==> lo <= n <= hi)
  }

  ghost predicate Blank(g: Shared, n: nat)
    requires Shaped(g)
  {
    g.entries[Current(g).slots[SlotFor(Current(g), n)]] == Entry(Some(n), None)
  }

  ghost predicate WriterOk(g: Shared, w: Writer)
    requires Shaped(g)
  {
    match w
    case Ready => UnpublishedAre(g, g.published + 1, g.last)
    case Keyed(n) =>
      n == g.last + 1 && n <= g.high && UnpublishedAre(g, g.published + 1, g.last) && Blank(g, n)
    case Tailed(n) =>
      n == g.last && g.published < n && UnpublishedAre(g, g.published + 1, g.last - 1) && Blank(g, n)
    case Rewound(n) =>
      n == g.last + 1 && n <= g.high && UnpublishedAre(g, g.published + 1, g.last) && Blank(g, n)
    case Undoing(m, hi) =>
      g.published < m <= hi <= g.high && g.last == hi - (m - g.published - 1) && UnpublishedAre(g, m, hi)
    case Cleared(m, hi) =>
      g.published < m <= hi <= g.high && g.last == hi - (m - g.published - 1) && UnpublishedAre(g, m + 1, hi)
  }

  /** Header h, however old, has live block n's entry in the slot it reserves for n. */
  ghost predicate SeenIn(g: Shared, n: nat, h: nat)
    requires Shaped(g)
  {
    && n in g.live && n <= g.published && n in g.home
    && h < |g.headers| && g.headers[h].slots[SlotFor(g.headers[h], n)] == g.home[n]
  }

  ghost predicate LocalOk(g: Shared, l: Local)
    requires Shaped(g)
  {
    match l
    case Idle => true
    case Looking(n) => n in g.live && n <= g.published
    case GotHeader(n, h) => SeenIn(g, n, h)
    case GotTail(n, h, t) =>
      SeenIn(g, n, h) && t < |g.headers[h].slots| && g.entries[g.headers[h].slots[t]].key.Some?
    case GotBase(n, h, t, base) => SeenIn(g, n, h) && SlotFor(g.headers[h], base) == t
    case Found(n, e, b) => n in g.live && n <= g.published && n in g.home && e == g.home[n] && b == Some(g.live[n])
    case Emptied(n, e) => n in g.live && n <= g.published && n in g.home && e == g.home[n]
  }

  function Holds(n: nat): Local -> int {
    (l: Local) => if (l.Looking? || l.GotHeader? || l.GotTail? || l.GotBase? || l.Found?) && l.n == n then 1 else 0
  }

  function Empties(n: nat): Local -> int {
    (l: Local) => if l.Emptied? && l.n == n then 1 else 0
  }

  /** Elements of block n: those claimed and not consumed are in consumers' hands, and exactly one
      consumer takes the last one. */
  ghost predicate ElementsOk(size: nat, g: Shared, threads: seq<Local>, n: nat) {
    n in g.live ==>
      && Count(g.claimed, n) <= size
      && Count(g.claimed, n) - Count(g.consumed, n) == Sum(Holds(n), threads)
      && Sum(Empties(n), threads) == (if Count(g.consumed, n) == size then 1 else 0)
  }

  ghost predicate UntouchedAt(g: Shared, n: nat) {
    n > g.published ==> Count(g.claimed, n) == Count(g.consumed, n) == 0
  }

  /** A published block that is not in the index has been claimed and consumed to the last element. */
  ghost predicate GoneAt(size: nat, g: Shared, n: nat) {
    n <= g.published && n !in g.live ==> Count(g.claimed, n) == Count(g.consumed, n) == size
  }

  ghost predicate IndexOk(g: Shared, w: Writer) {
    HeadersOk(g) && RoundOk(g) && LivesOk(g) && WriterOk(g, w)
  }

  ghost predicate Inv(size: nat, s: State) {
    && size > 0
    && IndexOk(s.shared, s.writer)
    && (forall t :: 0 <= t < |s.threads| ==> LocalOk(s.shared, s.threads[t]))
    && (forall n :: ElementsOk(size, s.shared, s.threads, n))
    && (forall n :: UntouchedAt(s.shared, n)) && (forall n :: GoneAt(size, s.shared, n))
  }

  // ---- InsertKey ----

  /** The slot after the tail belongs to no unpublished block, so they all fit in one round. */
  lemma RoomForNext(g: Shared)
    requires IndexOk(g, Ready)
    requires Free(g.entries[Current(g).slots[NextSlot(Current(g))]])
    ensures g.last + 1 <= g.published + Current(g).capacity
  {
    var n := g.last + 1 - Current(g).capacity;
    NextSlotIs(Current(g), g.last);
    SlotsRepeat(Current(g), g.last + 1);
    assert n > g.published ==> LiveAt(g, n);
  }

  /** Storing key n in the entry reserved for n keeps every header aligned. */
  lemma KeyStoreKeepsHeader(g: Shared, g': Shared, n: nat, h: int)
    requires HeadersOk(g)
    requires g'.headers == g.headers
    requires var e := Current(g).slots[SlotFor(Current(g), n)];
             g'.entries == g.entries[e := g.entries[e].(key := Some(n))]
    ensures Shaped(g') && HeaderOk(g', h)
  {
    assert forall i :: 0 <= i < |g'.headers| ==> HeaderShaped(g.entries, g.headers[i]);
    assert forall i :: 0 <= i < |g'.headers| ==> HeaderShaped(g'.entries, g'.headers[i]);
    assert HeaderOk(g, h);
    if 0 <= h < |g.headers| {
      forall j ensures AlignedAt(g'.entries, g'.headers[h], j) {
        assert AlignedAt(g.entries, g.headers[h], j);
        assert LinkedAt(g.headers[h], Current(g), j, n);
      }
      forall j, k ensures LinkedAt(g'.headers[h], Current(g'), j, k) {
        assert LinkedAt(g.headers[h], Current(g), j, k);
      }
    }
  }

  lemma InsertKeyInRound(g: Shared, g': Shared, j: int)
    requires IndexOk(g, Ready) && WriterMove(g, Ready, InsertKey, g', Keyed(g.last + 1)) && Shaped(g')
    ensures InRound(g', j)
  {
    NextSlotIs(Current(g), g.last);
    SlotsRepeat(Current(g), g.last + 1);
    assert HeaderOk(g, |g.headers| - 1);
    assert InRound(g, j) && AlignedAt(g.entries, Current(g), j);
  }

  lemma InsertKeyRound(g: Shared, g': Shared)
    requires IndexOk(g, Ready) && WriterMove(g, Ready, InsertKey, g', Keyed(g.last + 1)) && Shaped(g')
    ensures RoundOk(g')
  {
    RoomForNext(g);
    NextSlotIs(Current(g), g.last);
    forall j ensures InRound(g', j) {
      InsertKeyInRound(g, g', j);
    }
    forall k | KeyedAt(g, k) ensures KeyedAt(g', k) {
    }
    assert KeyedAt(g', g.last + 1);
  }

  lemma InsertKeyLives(g: Shared, g': Shared)
    requires IndexOk(g, Ready) && WriterMove(g, Ready, InsertKey, g', Keyed(g.last + 1)) && Shaped(g')
    ensures LivesOk(g') && WriterOk(g', Keyed(g.last + 1))
  {
    var e := Current(g).slots[NextSlot(Current(g))];
    NextSlotIs(Current(g), g.last);
    assert ValueAt(g, e);
    forall n ensures LiveAt(g', n) {
      assert LiveAt(g, n);
    }
    forall i ensures ValueAt(g', i) {
      assert ValueAt(g, i);
    }
  }

  lemma InsertKeyKeeps(g: Shared, g': Shared)
    requires IndexOk(g, Ready) && WriterMove(g, Ready, InsertKey, g', Keyed(g.last + 1))
    ensures IndexOk(g', Keyed(g.last + 1))
  {
    NextSlotIs(Current(g), g.last);
    forall h ensures Shaped(g') && HeaderOk(g', h) {
      KeyStoreKeepsHeader(g, g', g.last + 1, h);
    }
    assert HeaderOk(g', 0);
    InsertKeyRound(g, g');
    InsertKeyLives(g, g');
  }

  // ---- moving the tail ----

  /** Headers that differ at most in the tail of the latest one. */
  ghost predicate TailMove(g: Shared, t: nat, last: int, g': Shared)
    requires Shaped(g)
  {
    t < Current(g).capacity && g' == SetTail(g, t).(last := last)
  }

  lemma TailMoveShapes(g: Shared, t: nat, last: int, g': Shared)
    requires HeadersOk(g) && TailMove(g, t, last, g')
    ensures Shaped(g') && Current(g') == Current(g).(tail := t)
    ensures forall n: int :: SlotFor(Current(g'), n) == SlotFor(Current(g), n)
  {
    forall h | 0 <= h < |g'.headers| ensures HeaderShaped(g'.entries, g'.headers[h]) {
      assert HeaderShaped(g.entries, g.headers[h]);
    }
  }

  lemma TailMoveKeeps(g: Shared, t: nat, last: int, g': Shared)
    requires HeadersOk(g) && LivesOk(g) && TailMove(g, t, last, g')
    ensures HeadersOk(g') && LivesOk(g')
  {
    TailMoveShapes(g, t, last, g');
    forall h ensures HeaderOk(g', h) {
      assert HeaderOk(g, h);
      if 0 <= h < |g.headers| {
        forall j ensures AlignedAt(g'.entries, g'.headers[h], j) {
          assert AlignedAt(g.entries, g.headers[h], j);
        }
        forall j, n ensures LinkedAt(g'.headers[h], Current(g'), j, n) {
          assert LinkedAt(g.headers[h], Current(g), j, n);
        }
      }
    }
    forall n ensures LiveAt(g', n) {
      assert LiveAt(g, n);
    }
    forall e ensures ValueAt(g', e) {
      assert ValueAt(g, e);
    }
  }

  lemma TailMoveRound(g: Shared, t: nat, last: int, g': Shared)
    requires HeadersOk(g) && RoundOk(g) && TailMove(g, t, last, g') && Shaped(g')
    requires SlotFor(Current(g), last) == t && g.published <= last <= g.high
    ensures RoundOk(g')
    ensures forall n: nat :: Blank(g', n) == Blank(g, n)
  {
    TailMoveShapes(g, t, last, g');
    forall j ensures InRound(g', j) {
      assert InRound(g, j);
    }
    forall k ensures KeyedAt(g', k) == KeyedAt(g, k) {
    }
  }

  lemma TailStepKeeps(g: Shared, w: Writer, a: WriterAction, g': Shared, w': Writer)
    requires IndexOk(g, w) && WriterMove(g, w, a, g', w')
    requires a.InsertTail? || a.FailRewind? || a.UndoRewind?
    ensures IndexOk(g', w')
  {
    NextSlotIs(Current(g), g.last);
    var t := if a.InsertTail? then NextSlot(Current(g)) else PreviousSlot(Current(g));
    var last := if a.InsertTail? then g.last + 1 else g.last - 1;
    assert TailMove(g, t, last, g');
    TailMoveKeeps(g, t, last, g');
    TailMoveRound(g, t, last, g');
  }

  // ---- values ----

  /** Storing a value leaves keys, and so headers and rounds, as they were. */
  ghost predicate ValueStore(g: Shared, e: nat, v: Option<Block>, g': Shared) {
    && e < |g.entries|
    && g'.entries == g.entries[e := g.entries[e].(value := v)]
    && g'.headers == g.headers && g'.last == g.last && g'.high == g.high && g'.published == g.published
  }

  lemma ValueStoreKeepsHeaders(g: Shared, e: nat, v: Option<Block>, g': Shared)
    requires HeadersOk(g) && ValueStore(g, e, v, g')
    ensures HeadersOk(g') && Current(g') == Current(g)
    ensures forall i :: 0 <= i < |g.entries| ==> g'.entries[i].key == g.entries[i].key
  {
    assert forall h :: 0 <= h < |g.headers| ==> HeaderShaped(g.entries, g.headers[h]);
    assert forall h :: 0 <= h < |g'.headers| ==> HeaderShaped(g'.entries, g'.headers[h]);
    forall h ensures HeaderOk(g', h) {
      assert HeaderOk(g, h);
      if 0 <= h < |g.headers| {
        forall j ensures AlignedAt(g'.entries, g'.headers[h], j) {
          assert AlignedAt(g.entries, g.headers[h], j);
        }
        forall j, n ensures LinkedAt(g'.headers[h], Current(g'), j, n) {
          assert LinkedAt(g.headers[h], Current(g), j, n);
        }
      }
    }
  }

  lemma ValueStoreKeepsRound(g: Shared, e: nat, v: Option<Block>, g': Shared)
    requires HeadersOk(g) && HeadersOk(g') && RoundOk(g) && ValueStore(g, e, v, g')
    requires forall n :: n in g'.live ==> n in g.live || n > g.published
    ensures RoundOk(g')
  {
    ValueStoreKeepsHeaders(g, e, v, g');
    forall j ensures InRound(g', j) {
      assert InRound(g, j);
    }
    forall k ensures KeyedAt(g', k) == KeyedAt(g, k) {
    }
  }

  lemma StoreValueKeeps(g: Shared, w: Writer, b: Block, g': Shared, w': Writer)
    requires IndexOk(g, w) && WriterMove(g, w, StoreValue(b), g', w')
    ensures IndexOk(g', w')
  {
    var e := Current(g).slots[Current(g).tail];
    assert ValueStore(g, e, Some(b), g');
    ValueStoreKeepsHeaders(g, e, Some(b), g');
    ValueStoreKeepsRound(g, e, Some(b), g');
    forall n ensures LiveAt(g', n) {
      assert LiveAt(g, n);
    }
    forall i ensures ValueAt(g', i) {
      assert ValueAt(g, i);
    }
  }

  /** The state after the value of live block n is nulled. */
  ghost predicate Nulled(g: Shared, n: nat, g': Shared) {
    && n in g.live && n in g.home && ValueStore(g, g.home[n], None, g')
    && g'.live == g.live - {n} && g'.home == g.home - {n}
    && g'.claimed == g.claimed && g'.consumed == g.consumed
  }

  /** Nulling the value of a live block takes that block, and only it, out of the index. */
  lemma NullKeeps(g: Shared, n: nat, g': Shared)
    requires HeadersOk(g) && RoundOk(g) && LivesOk(g) && Nulled(g, n, g')
    ensures HeadersOk(g') && RoundOk(g') && LivesOk(g')
  {
    ValueStoreKeepsHeaders(g, g.home[n], None, g');
    ValueStoreKeepsRound(g, g.home[n], None, g');
    assert LiveAt(g, n);
    forall k ensures LiveAt(g', k) {
      assert LiveAt(g, k);
    }
    forall e ensures ValueAt(g', e) {
      assert ValueAt(g, e);
    }
  }

  lemma FailClearKeeps(g: Shared, w: Writer, g': Shared, w': Writer)
    requires IndexOk(g, w) && WriterMove(g, w, FailClear, g', w')
    ensures g' == g && IndexOk(g', w')
  {
    NextSlotIs(Current(g), g.last);
    var e := Current(g).slots[NextSlot(Current(g))];
    assert g.entries[e] == g.entries[e].(value := None);
    assert g'.entries == g.entries;
  }

  /** The producer finds the blocks it takes back the way consumers find theirs. */
  lemma UndoFinds(g: Shared, w: Writer)
    requires IndexOk(g, w) && w.Undoing?
    ensures w.m in g.live && w.m in g.home && g.home[w.m] < |g.entries|
    ensures var tailEntry := Current(g).slots[Current(g).tail];
            g.entries[tailEntry].key.Some?
            && Current(g).slots[Offset(Current(g), Current(g).tail, g.entries[tailEntry].key.value, w.m)] == g.home[w.m]
  {
    var cur := Current(g);
    assert HeaderOk(g, |g.headers| - 1) && LiveAt(g, w.m) && KeyedAt(g, g.last);
    assert AlignedAt(g.entries, cur, cur.tail);
    OffsetFinds(cur, cur.tail, g.entries[cur.slots[cur.tail]].key.value, w.m);
  }

  lemma UndoClearKeeps(g: Shared, w: Writer, g': Shared, w': Writer)
    requires IndexOk(g, w) && WriterMove(g, w, UndoClear, g', w')
    ensures IndexOk(g', w') && Nulled(g, w.m, g')
  {
    UndoFinds(g, w);
    assert Nulled(g, w.m, g');
    NullKeeps(g, w.m, g');
  }

  // ---- growing ----

  /** The index grows only when the slot after the tail holds the oldest block of a full round. */
  lemma GrowsWhenFull(g: Shared)
    requires IndexOk(g, Ready)
    requires !Free(g.entries[Current(g).slots[NextSlot(Current(g))]])
    ensures g.high == g.last && g.last + 1 - Current(g).capacity >= 0
    ensures g.last + 1 - Current(g).capacity in g.live
  {
    var cur := Current(g);
    var j := NextSlot(cur);
    var k: nat := g.entries[cur.slots[j]].key.value;
    NextSlotIs(cur, g.last);
    assert HeaderOk(g, |g.headers| - 1) && AlignedAt(g.entries, cur, j) && InRound(g, j);
    assert ValueAt(g, cur.slots[j]) && LiveAt(g, k);
    assert k <= g.last;
    SlotsRepeat(cur, g.last + 1);
    if k != g.last + 1 - cur.capacity {
      SlotsDiffer(cur, k, if k > g.last + 1 - cur.capacity then g.last + 1 else g.last + 1 - cur.capacity);
    }
  }

  lemma GrowShapes(g: Shared, g': Shared)
    requires IndexOk(g, Ready) && WriterMove(g, Ready, Grow, g', Ready)
    ensures Shaped(g')
    ensures Current(g') == GrownHeader(Current(g), g.last, |g.entries|)
    ensures |g'.headers| == |g.headers| + 1 && g'.headers[..|g.headers|] == g.headers
    ensures g.entries <= g'.entries
    ensures forall e :: |g.entries| <= e < |g'.entries| ==> g'.entries[e] == Entry(None, None)
    ensures forall i :: 0 <= i < Current(g).capacity ==>
              Current(g').slots[i] == Current(g).slots[OldSlot(Current(g), i)]
    ensures forall i :: Current(g).capacity <= i < Current(g').capacity ==>
              Current(g').slots[i] == |g.entries| + (i - Current(g).capacity)
  {
    var cur := Current(g);
    assert HeaderShaped(g.entries, cur);
    forall i | 0 <= i < cur.capacity
      ensures Current(g').slots[i] == cur.slots[OldSlot(cur, i)] < |g.entries|
    {
    }
    forall h | 0 <= h < |g'.headers| ensures HeaderShaped(g'.entries, g'.headers[h]) {
      if h < |g.headers| {
        assert g'.headers[h] == g.headers[h] && HeaderShaped(g.entries, g.headers[h]);
      } else {
        var hdr' := g'.headers[h];
        forall j | 0 <= j < |hdr'.slots| ensures hdr'.slots[j] < |g'.entries| {
          assert hdr'.slots[j] == GrownSlotAt(cur, |g.entries|, j);
        }
      }
    }
  }

  /** A number of the last round keeps its entry when the index grows. */
  lemma GrowKeepsEntry(g: Shared, g': Shared, n: int)
    requires IndexOk(g, Ready) && WriterMove(g, Ready, Grow, g', Ready)
    requires g.last - Current(g).capacity < n <= g.last
    ensures Shaped(g') && Current(g').slots[SlotFor(Current(g'), n)] == Current(g).slots[SlotFor(Current(g), n)]
    ensures KeyedAt(g, n) ==> KeyedAt(g', n)
  {
    GrowShapes(g, g');
    GrownSlot(Current(g), g.last, |g.entries|, n);
    GrownAgrees(Current(g), g.last, |g.entries|, n);
  }

  lemma GrowKeepsOldHeader(g: Shared, g': Shared, h: int)
    requires IndexOk(g, Ready) && WriterMove(g, Ready, Grow, g', Ready) && 0 <= h < |g.headers|
    ensures Shaped(g') && HeaderOk(g', h)
  {
    var cur := Current(g);
    GrowShapes(g, g');
    GrowsWhenFull(g);
    assert HeaderOk(g, h) && KeyedAt(g, g.last);
    assert g'.headers[h] == g.headers[h];
    forall j ensures AlignedAt(g'.entries, g'.headers[h], j) {
      assert AlignedAt(g.entries, g.headers[h], j);
    }
    forall j, n ensures LinkedAt(g'.headers[h], Current(g'), j, n) {
      assert LinkedAt(g.headers[h], cur, j, n);
      if SlotFor(Current(g'), n) < cur.capacity {
        GrownAgrees(cur, g.last, |g.entries|, n);
      }
    }
  }

  lemma GrowMakesHeader(g: Shared, g': Shared)
    requires IndexOk(g, Ready) && WriterMove(g, Ready, Grow, g', Ready)
    ensures Shaped(g') && HeaderOk(g', |g.headers|)
  {
    var cur := Current(g);
    GrowShapes(g, g');
    GrowsWhenFull(g);
    assert HeaderOk(g, |g.headers| - 1);
    forall i ensures AlignedAt(g'.entries, Current(g'), i) {
      if 0 <= i < cur.capacity {
        GrownAligned(g, g', i);
      }
    }
    forall j, n ensures LinkedAt(Current(g'), Current(g'), j, n) {
      GrownLinked(g, g', j, n);
    }
  }

  lemma GrownAligned(g: Shared, g': Shared, i: nat)
    requires IndexOk(g, Ready) && WriterMove(g, Ready, Grow, g', Ready) && i < Current(g).capacity
    ensures Shaped(g') && AlignedAt(g'.entries, Current(g'), i)
  {
    var cur := Current(g);
    var j := OldSlot(cur, i);
    GrowShapes(g, g');
    GrowsWhenFull(g);
    assert HeaderOk(g, |g.headers| - 1) && AlignedAt(g.entries, cur, j) && InRound(g, j);
    if g.entries[cur.slots[j]].key.Some? {
      var k := g.entries[cur.slots[j]].key.value;
      GrownSlot(cur, g.last, |g.entries|, k);
      GrownAgrees(cur, g.last, |g.entries|, k);
      if SlotFor(Current(g'), k) != i {
        OldSlotInjective(cur, SlotFor(Current(g'), k), i);
      }
    }
  }

  lemma GrownLinked(g: Shared, g': Shared, j: int, n: int)
    requires IndexOk(g, Ready) && WriterMove(g, Ready, Grow, g', Ready)
    ensures Shaped(g') && LinkedAt(Current(g'), Current(g'), j, n)
  {
    var cur := Current(g);
    GrowShapes(g, g');
    var i := SlotFor(Current(g'), n);
    if 0 <= j < cur.capacity && i < cur.capacity {
      GrownAgrees(cur, g.last, |g.entries|, n);
      assert HeaderOk(g, |g.headers| - 1) && LinkedAt(cur, cur, OldSlot(cur, j), n);
      if j != i {
        OldSlotInjective(cur, j, i);
      }
    }
  }

  lemma GrowKeepsRound(g: Shared, g': Shared)
    requires IndexOk(g, Ready) && WriterMove(g, Ready, Grow, g', Ready)
    ensures Shaped(g') && RoundOk(g')
  {
    var cur := Current(g);
    GrowShapes(g, g');
    GrowsWhenFull(g);
    GrownSlot(cur, g.last, |g.entries|, g.last);
    forall i ensures InRound(g', i) {
      if 0 <= i < cur.capacity {
        assert InRound(g, OldSlot(cur, i));
      }
    }
    forall n | n in g.live ensures n > g.last - cur.capacity {
      assert LiveAt(g, n) && InRound(g, SlotFor(cur, n));
    }
    forall k | g.published < k <= g.high ensures KeyedAt(g', k) {
      GrowKeepsEntry(g, g', k);
    }
    forall n, k | n in g.live && n <= k <= g.high ensures KeyedAt(g', k) {
      GrowKeepsEntry(g, g', k);
    }
  }

  lemma GrowKeepsLives(g: Shared, g': Shared)
    requires IndexOk(g, Ready) && WriterMove(g, Ready, Grow, g', Ready)
    ensures Shaped(g') && LivesOk(g') && WriterOk(g', Ready)
  {
    GrowShapes(g, g');
    GrowsWhenFull(g);
    forall n: nat ensures LiveAt(g', n) {
      assert LiveAt(g, n);
      if n in g.live {
        assert InRound(g, SlotFor(Current(g), n));
        GrowKeepsEntry(g, g', n);
      }
    }
    forall e ensures ValueAt(g', e) {
      assert ValueAt(g, e);
    }
  }

  lemma GrowKeeps(g: Shared, g': Shared)
    requires IndexOk(g, Ready) && WriterMove(g, Ready, Grow, g', Ready)
    ensures IndexOk(g', Ready)
  {
    GrowShapes(g, g');
    forall h ensures HeaderOk(g', h) {
      if 0 <= h < |g.headers| {
        GrowKeepsOldHeader(g, g', h);
      } else if h == |g.headers| {
        GrowMakesHeader(g, g');
      }
    }
    GrowKeepsRound(g, g');
    GrowKeepsLives(g, g');
  }

  lemma PublishKeeps(g: Shared, w: Writer, a: WriterAction, g': Shared, w': Writer)
    requires IndexOk(g, w) && WriterMove(g, w, a, g', w') && (a.Publish? || a.BeginUndo?)
    ensures IndexOk(g', w')
  {
    assert forall h :: 0 <= h < |g.headers| ==> HeaderShaped(g.entries, g.headers[h]);
    forall h ensures HeaderOk(g', h) {
      assert HeaderOk(g, h);
    }
    forall j ensures InRound(g', j) {
      assert InRound(g, j);
    }
    forall k ensures KeyedAt(g', k) == KeyedAt(g, k) {
    }
    forall n ensures LiveAt(g', n) {
      assert LiveAt(g, n);
    }
    forall e ensures ValueAt(g', e) {
      assert ValueAt(g, e);
    }
  }

  // ---- every access of the producer ----

  lemma WriterKeepsIndex(g: Shared, w: Writer, a: WriterAction, g': Shared, w': Writer)
    requires IndexOk(g, w) && WriterMove(g, w, a, g', w')
    ensures IndexOk(g', w')
  {
    match a
    case InsertKey => InsertKeyKeeps(g, g');
    case Grow => GrowKeeps(g, g');
    case InsertTail => TailStepKeeps(g, w, a, g', w');
    case StoreValue(b) => StoreValueKeeps(g, w, b, g', w');
    case FailRewind => TailStepKeeps(g, w, a, g', w');
    case FailClear => FailClearKeeps(g, w, g', w');
    case Publish => PublishKeeps(g, w, a, g', w');
    case BeginUndo => PublishKeeps(g, w, a, g', w');
    case UndoClear => UndoClearKeeps(g, w, g', w');
    case UndoRewind => TailStepKeeps(g, w, a, g', w');
  }
}
