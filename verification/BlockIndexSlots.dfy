/** Where block numbers live in the rings of the block index. */
module BlockIndexSlots {
  import Division
  import Modular
  import opened BlockIndexProtocol

  /** The slot a header reserves for block number n. */
  function SlotFor(hdr: Header, n: int): (j: nat)
    requires hdr.capacity > 0
    ensures j < hdr.capacity
  {
    Modular.Wrap(n - hdr.shift, hdr.capacity)
  }

  /** The consumer's computation, from a tail slot and the key it holds, lands on the right slot,
      whatever round of the ring that key belongs to. */
  lemma OffsetFinds(hdr: Header, t: nat, base: nat, n: nat)
    requires hdr.capacity > 0 && SlotFor(hdr, base) == t
    ensures Offset(hdr, t, base, n) == SlotFor(hdr, n)
  {
    Modular.ReduceFirst(base - hdr.shift, n - base, hdr.capacity);
  }

  lemma NextSlotIs(hdr: Header, n: int)
    requires hdr.capacity > 0 && SlotFor(hdr, n) == hdr.tail
    ensures NextSlot(hdr) == SlotFor(hdr, n + 1) && PreviousSlot(hdr) == SlotFor(hdr, n - 1)
  {
    Modular.ReduceFirst(n - hdr.shift, 1, hdr.capacity);
    Modular.ReduceFirst(n - hdr.shift, -1, hdr.capacity);
  }

  lemma SlotsDiffer(hdr: Header, a: int, b: int)
    requires hdr.capacity > 0 && a != b && a < b + hdr.capacity && b < a + hdr.capacity
    ensures SlotFor(hdr, a) != SlotFor(hdr, b)
  {
    Modular.NeighboursDiffer((if a < b then a else b) - hdr.shift, (if a < b then b else a) - hdr.shift, hdr.capacity);
  }

  lemma SlotsRepeat(hdr: Header, a: int)
    requires hdr.capacity > 0
    ensures SlotFor(hdr, a - hdr.capacity) == SlotFor(hdr, a)
  {
    Modular.OneRoundLater(a - hdr.capacity - hdr.shift, hdr.capacity);
  }

  // ---- growing ----

  function GrownHeader(hdr: Header, last: int, firstFresh: nat): Header
    requires 0 < hdr.capacity == |hdr.slots| && hdr.tail < hdr.capacity
  {
    Header(2 * hdr.capacity, hdr.capacity - 1, GrownSlots(hdr, firstFresh), last - hdr.capacity + 1)
  }

  /** The two rings agree on where a number lives, when the new ring puts it in its old half. */
  lemma GrownAgrees(hdr: Header, last: int, firstFresh: nat, n: int)
    requires 0 < hdr.capacity == |hdr.slots| && hdr.tail < hdr.capacity && SlotFor(hdr, last) == hdr.tail
    requires SlotFor(GrownHeader(hdr, last, firstFresh), n) < hdr.capacity
    ensures OldSlot(hdr, SlotFor(GrownHeader(hdr, last, firstFresh), n)) == SlotFor(hdr, n)
  {
    var c := hdr.capacity;
    var x := n - (last - c + 1);
    var d := last - hdr.shift + 1;
    var i := Modular.Wrap(x, 2 * c);
    Modular.CoarserModulus(x, c);
    Modular.ReduceFirst(x, d, c);
    Modular.ReduceFirst(i, d, c);
    Modular.ReduceFirst(last - hdr.shift, 1 + i, c);
    Modular.OneRoundLater(x + d - c, c);
  }

  /** Numbers of the last round keep their order in the old half of the grown ring. */
  lemma GrownSlot(hdr: Header, last: int, firstFresh: nat, n: int)
    requires 0 < hdr.capacity == |hdr.slots| && hdr.tail < hdr.capacity
    requires last - hdr.capacity < n <= last
    ensures SlotFor(GrownHeader(hdr, last, firstFresh), n) == n - last + hdr.capacity - 1
  {
  }

  lemma OldSlotInjective(hdr: Header, i: nat, j: nat)
    requires hdr.capacity > 0 && i < hdr.capacity && j < hdr.capacity && i != j
    ensures OldSlot(hdr, i) != OldSlot(hdr, j)
  {
    Modular.NeighboursDiffer(hdr.tail + 1 + (if i < j then i else j), hdr.tail + 1 + (if i < j then j else i),
                             hdr.capacity);
  }

  // ---- block numbers ----

  /** The source computes with bases: index & ~(BLOCK_SIZE - 1), and an exact signed division. */
  lemma BasesAreNumbers(index: nat, tailNumber: nat, size: nat)
    requires size > 0
    ensures (index - index % size - tailNumber * size) % size == 0
    ensures (index - index % size - tailNumber * size) / size == index / size - tailNumber
  {
    Division.Distribute(index / size, tailNumber, size);
    Division.QuotientUnique(index - index % size - tailNumber * size, index / size - tailNumber, 0, size);
  }
}
