/** The in-place queues as they are written: the array ring and the one-slot queue. */
module SequentialQueues {
  import Modular
  import opened Options
  import RingProtocol
  import RingSafety

  /** The cell of position p: pos & mask_, where the capacity is a power of two. */
  ghost predicate CellOk<T>(sequences: seq<nat>, data: seq<T>, contents: seq<T>, dequeuePos: nat, p: nat)
    requires |sequences| == |data| > 0
  {
    var i, enqueuePos := RingProtocol.Slot(p, |sequences|), dequeuePos + |contents|;
    && (dequeuePos <= p < enqueuePos ==> sequences[i] == p + 1 && data[i] == contents[p - dequeuePos])
    && (enqueuePos <= p < dequeuePos + |sequences| ==> sequences[i] == p)
  }

  ghost predicate CellsOk<T>(sequences: seq<nat>, data: seq<T>, contents: seq<T>, dequeuePos: nat)
    requires |sequences| == |data| > 0
  {
    forall p: nat :: CellOk(sequences, data, contents, dequeuePos, p)
  }

  lemma PushedOk<T>(sequences: seq<nat>, data: seq<T>, contents: seq<T>, dequeuePos: nat, v: T)
    requires |sequences| == |data| > |contents| && CellsOk(sequences, data, contents, dequeuePos)
    ensures var pos := dequeuePos + |contents|;
            var i := RingProtocol.Slot(pos, |sequences|);
            CellsOk(sequences[i := pos + 1], data[i := v], contents + [v], dequeuePos)
  {
    var n, pos := |sequences|, dequeuePos + |contents|;
    var i := RingProtocol.Slot(pos, n);
    var sequences', data', contents' := sequences[i := pos + 1], data[i := v], contents + [v];
    forall p: nat ensures CellOk(sequences', data', contents', dequeuePos, p) {
      assert CellOk(sequences, data, contents, dequeuePos, p);
      if dequeuePos <= p < dequeuePos + n && p != pos {
        RingSafety.SlotsDiffer(p, pos, n);
      }
    }
  }

  lemma PoppedOk<T>(sequences: seq<nat>, data: seq<T>, contents: seq<T>, pos: nat)
    requires 0 < |contents| <= |sequences| == |data| && CellsOk(sequences, data, contents, pos)
    ensures var i := RingProtocol.Slot(pos, |sequences|);
            CellsOk(sequences[i := pos + |sequences|], data, contents[1..], pos + 1)
  {
    var n := |sequences|;
    var i := RingProtocol.Slot(pos, n);
    Modular.OneRoundLater(pos, n);
    var sequences', contents', next := sequences[i := pos + n], contents[1..], pos + 1;
    forall p: nat ensures CellOk(sequences', data, contents', next, p) {
      assert CellOk(sequences, data, contents, pos, p);
      if pos < p < pos + n {
        RingSafety.SlotsDiffer(p, pos, n);
      }
    }
  }

  class BoundedMpscQueue<T(0)> {
    const sequences: array<nat>
    const data: array<T>
    var enqueuePos: nat
    var dequeuePos: nat
    ghost var contents: seq<T>

    ghost predicate Valid()
      reads this, sequences, data
    {
      && |contents| <= sequences.Length == data.Length && sequences.Length >= 2
      && sequences as object != data as object
      && enqueuePos == dequeuePos + |contents|
      && CellsOk(sequences[..], data[..], contents, dequeuePos)
    }

    constructor (requested: nat)
      ensures Valid() && fresh(sequences) && fresh(data)
      ensures sequences.Length == RingProtocol.CapacityFor(requested) && contents == []
    {
      var n := RingProtocol.CapacityFor(requested);
      RingSafety.CapacityIsRounded(requested);
      enqueuePos, dequeuePos, contents := 0, 0, [];
      sequences, data := new nat[n], new T[n];
      new;
      for i := 0 to n
        invariant sequences.Length == n && enqueuePos == 0 && dequeuePos == 0 && contents == []
        invariant forall j :: 0 <= j < i ==> sequences[j] == j
      {
        sequences[i] := i;
      }
      forall p: nat ensures CellOk(sequences[..], data[..], contents, 0, p) {
        if p < n {
          assert RingProtocol.Slot(p, n) == p;
        }
      }
    }

    method Size() returns (n: nat)
      requires Valid()
      ensures n == |contents| <= sequences.Length
    {
      n := enqueuePos - dequeuePos;
    }

    /** The weak CAS may fail without reason a number of times. */
    method Push(v: T, spurious: nat) returns (ok: bool)
      requires Valid()
      modifies this`enqueuePos, this`contents, sequences, data
      ensures Valid()
      ensures ok == (old(|contents|) < sequences.Length)
      ensures contents == if ok then old(contents) + [v] else old(contents)
    {
      var pos, failures := enqueuePos, spurious;
      assert CellOk(sequences[..], data[..], contents, dequeuePos, pos);
      OldestIfFull(pos);
      var claimed := false;
      while !claimed
        invariant pos == old(enqueuePos) && unchanged(this`contents) && unchanged(sequences) && unchanged(data)
        invariant enqueuePos == (if claimed then pos + 1 else pos)
        invariant CellsOk(sequences[..], data[..], contents, dequeuePos)
        invariant claimed ==> |contents| < sequences.Length
        decreases !claimed, failures
      {
        var i := RingProtocol.Slot(pos, sequences.Length);
        if sequences[i] == pos {
          if failures == 0 {
            enqueuePos, claimed := pos + 1, true;
          } else {
            failures := failures - 1;
          }
        } else if sequences[i] < pos {
          return false;
        } else {
          assert false;
        }
      }
      var i := RingProtocol.Slot(pos, sequences.Length);
      PushedOk(sequences[..], data[..], contents, dequeuePos, v);
      data[i] := v;
      sequences[i] := pos + 1;
      contents := contents + [v];
      return true;
    }

    /** In a full ring the next position shares the cell of the oldest one. */
    lemma OldestIfFull(pos: nat)
      requires Valid() && pos == enqueuePos
      ensures var s := sequences[RingProtocol.Slot(pos, sequences.Length)];
              if |contents| < sequences.Length then s == pos else s < pos
    {
      assert CellOk(sequences[..], data[..], contents, dequeuePos, pos);
      assert CellOk(sequences[..], data[..], contents, dequeuePos, dequeuePos);
      Modular.OneRoundLater(dequeuePos, sequences.Length);
    }

    method TryPop() returns (r: Option<T>)
      requires Valid()
      modifies this`dequeuePos, this`contents, sequences
      ensures Valid()
      ensures r == if old(contents) == [] then None else Some(old(contents)[0])
      ensures contents == if old(contents) == [] then [] else old(contents)[1..]
    {
      assert CellOk(sequences[..], data[..], contents, dequeuePos, dequeuePos);
      var i := RingProtocol.Slot(dequeuePos, sequences.Length);
      if sequences[i] < dequeuePos + 1 {
        return None;
      }
      PoppedOk(sequences[..], data[..], contents, dequeuePos);
      r := Some(data[i]);
      sequences[i] := dequeuePos + sequences.Length;
      dequeuePos := dequeuePos + 1;
      contents := contents[1..];
    }
  }

  /** A single slot; the caller must have exclusive access. */
  class OneSlotUnsafeQueue<T(0)> {
    var slot: T
    var hasValue: bool

    ghost function Contents(): seq<T>
      reads this
    {
      if hasValue then [slot] else []
    }

    constructor ()
      ensures Contents() == []
    {
      hasValue := false;
    }

    method Push(v: T) returns (ok: bool)
      modifies this
      ensures ok == (|old(Contents())| < 1)
      ensures Contents() == if ok then old(Contents()) + [v] else old(Contents())
    {
      if hasValue {
        return false;
      }
      slot := v;
      hasValue := true;
      return true;
    }

    method TryPop() returns (r: Option<T>)
      modifies this
      ensures r == if old(Contents()) == [] then None else Some(old(Contents())[0])
      ensures Contents() == if old(Contents()) == [] then [] else old(Contents())[1..]
    {
      if !hasValue {
        return None;
      }
      hasValue := false;
      return Some(slot);
    }
  }
}
