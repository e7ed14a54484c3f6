/** The block index as its producer updates it: entries written in place, the copying loop of a growing
    index, and the lookup. Every method takes the steps of the protocol one after another, so what is
    proved of the protocol holds of this object. */
module BlockIndexClass {
  import opened Options
  import opened BlockIndexProtocol
  import opened BlockIndexSlots
  import opened BlockIndexInvariant
  import BlockIndexSafety
  import Modular

  /** Going round from the tail, the tail is met again after exactly one round. */
  lemma BackAtTheTail(tail: nat, n: nat, capacity: nat)
    requires tail < capacity && 0 < n <= capacity
    ensures Modular.Wrap(tail + n, capacity) == tail <==> n == capacity
  {
    if n < capacity {
      Modular.NeighboursDiffer(tail, tail + n, capacity);
    } else {
      Modular.OneRoundLater(tail, capacity);
    }
  }

  /** The pointers from the one after the tail round to the tail. */
  method CopySlots(prev: Header) returns (slots: seq<nat>)
    requires 0 < prev.capacity == |prev.slots| && prev.tail < prev.capacity
    ensures |slots| == prev.capacity
    ensures forall i :: 0 <= i < |slots| ==> slots[i] == prev.slots[Modular.Wrap(prev.tail + 1 + i, prev.capacity)]
  {
    slots := [];
    var pos, more := prev.tail, true;
    while more
      invariant |slots| <= prev.capacity && (more <==> |slots| < prev.capacity)
      invariant pos == Modular.Wrap(prev.tail + |slots|, prev.capacity)
      invariant forall i :: 0 <= i < |slots| ==> slots[i] == prev.slots[Modular.Wrap(prev.tail + 1 + i, prev.capacity)]
      decreases prev.capacity - |slots|
    {
      Modular.ReduceFirst(prev.tail + |slots|, 1, prev.capacity);
      pos := Modular.Wrap(pos + 1, prev.capacity);
      slots := slots + [prev.slots[pos]];
      BackAtTheTail(prev.tail, |slots|, prev.capacity);
      more := pos != prev.tail;
    }
  }

  /** The copied pointers and, behind them, pointers to as many fresh entries. */
  method DoubleSlots(prev: Header, firstFresh: nat) returns (slots: seq<nat>)
    requires 0 < prev.capacity == |prev.slots| && prev.tail < prev.capacity
    ensures slots == GrownSlots(prev, firstFresh)
  {
    var copied := CopySlots(prev);
    slots := copied;
    for i := 0 to prev.capacity
      invariant |slots| == prev.capacity + i && slots[..prev.capacity] == copied
      invariant forall j :: prev.capacity <= j < |slots| ==> slots[j] == firstFresh + (j - prev.capacity)
    {
      slots := slots + [firstFresh + i];
    }
    assert forall j :: 0 <= j < prev.capacity ==> slots[j] == slots[..prev.capacity][j];
  }

  /** In a doubled index the slot after the tail points to a fresh entry. */
  lemma RoomAfterGrowth(g: Shared)
    requires |g.headers| > 0 && HeaderShaped(g.entries, Current(g))
    ensures var g', c := Grown(g), Current(g).capacity;
            NextSlot(Current(g')) == c && Current(g').slots[c] == |g.entries|
            && g'.entries[|g.entries|] == Entry(None, None)
  {
    var c := Current(g).capacity;
    assert Modular.Wrap(c, 2 * c) == c;
  }

  class BlockIndex {
    var headers: seq<Header>
    var entries: seq<Entry>
    var last: int                 // number of the block at the tail, which the producer's tail index tells
    ghost var past: Shared        // the history that the protocol keeps

    ghost function Model(): Shared
      reads this
    {
      past.(headers := headers, entries := entries, last := last)
    }

    /** The index agrees with the map of live blocks, and its producer is between two operations. */
    ghost predicate Valid()
      reads this
    {
      IndexOk(Model(), Ready)
    }

    ghost function Live(): map<nat, Block>
      reads this
    {
      past.live
    }

    constructor (capacity: nat)
      requires capacity > 0
      ensures Valid() && Live() == map[] && last == -1 && past.published == -1
    {
      headers := [Header(capacity, capacity - 1, seq(capacity, (i: nat) => i), 0)];
      entries := seq(capacity, _ => Entry(None, None));
      last := -1;
      past := Shared([], [], -1, -1, -1, map[], map[], map[], map[]);
      new;
      assert Init(State(Model(), Ready, []));
      BlockIndexSafety.InitHolds(1, State(Model(), Ready, []));
    }

    /** new_block_index: twice the pointers, the same live blocks, and room after the tail. */
    method NewBlockIndex()
      requires Valid() && !Free(entries[Current(Model()).slots[NextSlot(Current(Model()))]])
      modifies this`headers, this`entries
      ensures Valid() && Model() == Grown(old(Model()))
      ensures WriterMove(old(Model()), Ready, Grow, Model(), Ready)
      ensures Free(entries[Current(Model()).slots[NextSlot(Current(Model()))]])
    {
      ghost var before := Model();
      var prev := headers[|headers| - 1];
      assert HeaderShaped(entries, prev);
      var slots := DoubleSlots(prev, |entries|);
      headers := headers + [Header(2 * prev.capacity, prev.capacity - 1, slots, last - prev.capacity + 1)];
      entries := entries + seq(prev.capacity, _ => Entry(None, None));
      assert Model() == Grown(before);
      WriterKeepsIndex(before, Ready, Grow, Model(), Ready);
      RoomAfterGrowth(before);
    }

    /** insert_block_index_entry: key the entry after the tail, in a larger index if need be, and move
        the tail there. */
    method InsertEntry() returns (e: nat)
      requires Valid()
      modifies this
      ensures IndexOk(Model(), Tailed(old(last) + 1)) && last == old(last) + 1 >= 0
      ensures e == Current(Model()).slots[Current(Model()).tail]
      ensures Live() == old(Live()) && past.published == old(past.published)
    {
      var hdr := headers[|headers| - 1];
      assert HeaderShaped(entries, hdr);
      e := hdr.slots[NextSlot(hdr)];
      if entries[e].key.Some? && entries[e].value.Some? {
        NewBlockIndex();
        hdr := headers[|headers| - 1];
        assert HeaderShaped(entries, hdr);
        e := hdr.slots[NextSlot(hdr)];
      }
      KeyEntry(e);
      MoveTail();
    }

    method KeyEntry(e: nat)
      requires Valid() && e == Current(Model()).slots[NextSlot(Current(Model()))] && Free(entries[e])
      modifies this`entries, this`past
      ensures WriterMove(old(Model()), Ready, InsertKey, Model(), Keyed(last + 1)) && IndexOk(Model(), Keyed(last + 1))
      ensures Live() == old(Live()) && past.published == old(past.published)
    {
      ghost var before := Model();
      entries := entries[e := entries[e].(key := Some(last + 1))];
      past := past.(high := if past.high > last then past.high else last + 1);
      assert WriterMove(before, Ready, InsertKey, Model(), Keyed(last + 1));
      WriterKeepsIndex(before, Ready, InsertKey, Model(), Keyed(last + 1));
    }

    method MoveTail()
      requires last + 1 >= 0 && IndexOk(Model(), Keyed(last + 1))
      modifies this`headers, this`last
      ensures last == old(last) + 1 && IndexOk(Model(), Tailed(last))
      ensures |headers| == |old(headers)|
      ensures headers[|headers| - 1].slots == old(headers)[|headers| - 1].slots
      ensures headers[|headers| - 1].tail == NextSlot(old(headers)[|headers| - 1])
    {
      ghost var before := Model();
      var hdr := headers[|headers| - 1];
      headers := headers[|headers| - 1 := hdr.(tail := NextSlot(hdr))];
      last := last + 1;
      assert WriterMove(before, Keyed(last), InsertTail, Model(), Tailed(last));
      WriterKeepsIndex(before, Keyed(last), InsertTail, Model(), Tailed(last));
    }

    /** The beginning of a block: with a block to be had it is in the index afterwards under the next
        number; without one the index is as before, but for a free entry's stale key. */
    method BeginBlock(block: Option<Block>) returns (ok: bool)
      requires Valid()
      modifies this
      ensures Valid() && ok == block.Some? && past.published == old(past.published)
      ensures ok ==> last == old(last) + 1 >= 0 && Live() == old(Live())[last := block.value]
      ensures !ok ==> last == old(last) && Live() == old(Live())
    {
      var e := InsertEntry();
      if block.None? {
        RewindTail();
        NullEntry(e);
        return false;
      }
      ghost var before := Model();
      entries := entries[e := entries[e].(value := block)];
      past := past.(live := past.live[last := block.value], home := past.home[last := e]);
      assert WriterMove(before, Tailed(last), StoreValue(block.value), Model(), Ready);
      WriterKeepsIndex(before, Tailed(last), StoreValue(block.value), Model(), Ready);
      return true;
    }

    /** rewind_block_index_tail */
    method RewindTail()
      requires last >= 0 && IndexOk(Model(), Tailed(last))
      modifies this`headers, this`last
      ensures last == old(last) - 1 && IndexOk(Model(), Rewound(last + 1))
      ensures Current(Model()).slots[NextSlot(Current(Model()))] == old(Current(Model()).slots[Current(Model()).tail])
    {
      ghost var before := Model();
      var hdr := headers[|headers| - 1];
      NextSlotIs(hdr, last);
      headers := headers[|headers| - 1 := hdr.(tail := PreviousSlot(hdr))];
      last := last - 1;
      assert WriterMove(before, Tailed(last + 1), FailRewind, Model(), Rewound(last + 1));
      WriterKeepsIndex(before, Tailed(last + 1), FailRewind, Model(), Rewound(last + 1));
      NextSlotIs(Current(Model()), last);
    }

    method NullEntry(e: nat)
      requires last + 1 >= 0 && IndexOk(Model(), Rewound(last + 1))
      requires e == Current(Model()).slots[NextSlot(Current(Model()))]
      modifies this`entries
      ensures Valid()
    {
      ghost var before := Model();
      assert HeaderShaped(entries, Current(before));
      entries := entries[e := entries[e].(value := None)];
      assert WriterMove(before, Rewound(last + 1), FailClear, Model(), Ready);
      WriterKeepsIndex(before, Rewound(last + 1), FailClear, Model(), Ready);
    }

    /** get_block_index_entry_for_index: for every live block the entry found has that block. */
    method Lookup(n: nat) returns (e: nat)
      requires Valid() && n in Live()
      ensures e < |entries| && entries[e] == Entry(Some(n), Some(Live()[n]))
    {
      var hdr := headers[|headers| - 1];
      assert HeaderShaped(entries, hdr) && HeaderOk(Model(), |headers| - 1);
      assert LiveAt(Model(), n) && KeyedAt(Model(), last) && AlignedAt(entries, hdr, hdr.tail);
      var base := entries[hdr.slots[hdr.tail]].key.value;
      OffsetFinds(hdr, hdr.tail, base, n);
      e := hdr.slots[Offset(hdr, hdr.tail, base, n)];
    }
  }
}
