/** The free list as one thread after another uses it: links and reference words updated in place. */
module FreeListClass {
  import opened LinkedMemory
  import opened Options

  const SHOULD_BE_ON_FREELIST: nat := 0x8000_0000

  class FreeList {
    var head: Option<nat>
    var next: seq<Option<nat>>
    var refs: seq<nat>
    ghost var list: seq<nat>      // from the head on

    /** Every listed block has the list's reference and no flag; nobody is part-way through anything. */
    ghost predicate Valid()
      reads this
    {
      && |next| == |refs| && Linked(next, list) && Distinct(list) && head == First(list)
      && forall x :: 0 <= x < |refs| ==> refs[x] == if x in list then 1 else 0
    }

    constructor (blocks: nat)
      ensures Valid() && list == [] && |refs| == blocks
    {
      head, list := None, [];
      next, refs := seq(blocks, _ => None), seq(blocks, _ => 0);
    }

    /** The caller owns the block: it is not on the list. */
    method Add(x: nat)
      requires Valid() && x < |refs| && x !in list
      modifies this
      ensures Valid() && list == [x] + old(list) && |refs| == |old(refs)|
    {
      var before := refs[x];
      refs := refs[x := before + SHOULD_BE_ON_FREELIST];
      if before == 0 {
        AddKnowingRefcountIsZero(x);
      }
    }

    method AddKnowingRefcountIsZero(x: nat)
      requires |next| == |refs| && Linked(next, list) && Distinct(list) && head == First(list)
      requires x < |refs| && x !in list
      requires forall y :: 0 <= y < |refs| && y != x ==> refs[y] == if y in list then 1 else 0
      modifies this
      ensures Valid() && list == [x] + old(list) && |refs| == |old(refs)|
    {
      LinkFront(next, list, x);
      next := next[x := head];
      refs := refs[x := 1];
      head := Some(x);
      list := [x] + list;
    }

    /** What comes off is the head of the list, and it has no reference left. */
    method TryGet() returns (r: Option<nat>)
      requires Valid()
      modifies this
      ensures Valid() && r == First(old(list)) && |refs| == |old(refs)|
      ensures list == if old(list) == [] then [] else old(list)[1..]
      ensures r.Some? ==> r.value < |refs| && refs[r.value] == 0 && r.value !in list
    {
      if head == None {
        return None;
      }
      var x := head.value;
      Unlink(next, list);
      assert x in list;
      refs := refs[x := refs[x] + 1];
      head := next[x];
      refs := refs[x := refs[x] - 2];
      list := list[1..];
      return Some(x);
    }
  }
}
