/** The linked queue as one thread after another uses it: links updated in place, nodes taken from
    and given back to the thread's free list. A node is its index in the memory of the pool. */
module MpscQueueClass {
  import opened LinkedMemory
  import opened Numbers
  import opened Options

  type Value = nat

  /** Node i of the list carries value i; the values of the first skip nodes do not matter. */
  ghost predicate CarriesAt(value: seq<Value>, nodes: seq<nat>, skip: nat, values: seq<Value>, i: int) {
    skip <= i < |nodes| && i - skip < |values| ==> nodes[i] < |value| && value[nodes[i]] == values[i - skip]
  }

  ghost predicate Carries(value: seq<Value>, nodes: seq<nat>, skip: nat, values: seq<Value>) {
    |nodes| == skip + |values| && forall i :: CarriesAt(value, nodes, skip, values, i)
  }

  lemma CarriesBoth(value: seq<Value>, nodes: seq<nat>, skip: nat, values: seq<Value>,
                    more: seq<nat>, others: seq<Value>)
    requires Carries(value, nodes, skip, values) && Carries(value, more, 0, others)
    ensures Carries(value, nodes + more, skip, values + others)
  {
    var all, both := nodes + more, values + others;
    forall i ensures CarriesAt(value, all, skip, both, i) {
      assert CarriesAt(value, nodes, skip, values, i) && CarriesAt(value, more, 0, others, i - |nodes|);
    }
  }

  /** Dropping the first node of a list whose first node carries nothing any more. */
  lemma CarriesRest(value: seq<Value>, nodes: seq<nat>, values: seq<Value>)
    requires Carries(value, nodes, 1, values) && |nodes| > 1
    ensures nodes[1] < |value| && value[nodes[1]] == values[0] && Carries(value, nodes[1..], 1, values[1..])
  {
    assert CarriesAt(value, nodes, 1, values, 1);
    var rest, left := nodes[1..], values[1..];
    forall i ensures CarriesAt(value, rest, 1, left, i) {
      assert CarriesAt(value, nodes, 1, values, i + 1);
    }
  }

  /** Values of other nodes do not matter. */
  lemma CarriesStill(value: seq<Value>, nodes: seq<nat>, skip: nat, values: seq<Value>, value': seq<Value>)
    requires Carries(value, nodes, skip, values) && |value| <= |value'|
    requires forall x :: x in nodes && x < |value| ==> value'[x] == value[x]
    ensures Carries(value', nodes, skip, values)
  {
    forall i ensures CarriesAt(value', nodes, skip, values, i) {
      assert CarriesAt(value, nodes, skip, values, i);
    }
  }

  /** A node whose own link is null is a list. */
  lemma Single(next: seq<Option<nat>>, value: seq<Value>, x: nat)
    requires x < |next| == |value| && next[x] == None
    ensures Linked(next, [x]) && Distinct([x]) && Carries(value, [x], 0, [value[x]])
  {
    forall i ensures LinkedAt(next, [x], i) {
    }
    forall i ensures CarriesAt(value, [x], 0, [value[x]], i) {
    }
  }

  /** Nodes that are not spare keep their link and value and do not become spare. */
  ghost predicate LeavesAlone(next: seq<Option<nat>>, value: seq<Value>, spare: set<nat>,
                              next': seq<Option<nat>>, value': seq<Value>, spare': set<nat>)
  {
    && |next| == |value| <= |next'| == |value'|
    && forall y: nat :: y < |next| && y !in spare ==> next'[y] == next[y] && value'[y] == value[y] && y !in spare'
  }

  ghost predicate Disjoint(a: seq<nat>, b: seq<nat>) {
    forall x :: x in a ==> x !in b
  }

  /** A chunk of the pool: a list of exactly size nodes. */
  ghost predicate IsChunk(next: seq<Option<nat>>, chunk: seq<nat>, size: nat) {
    |chunk| == size && Linked(next, chunk) && Distinct(chunk)
  }

  /** Chunks that share no node with each other or with the free list. */
  ghost predicate ChunksApart(free: seq<nat>, chunks: seq<seq<nat>>) {
    && (forall i :: 0 <= i < |chunks| ==> Disjoint(free, chunks[i]))
    && (forall i, j :: 0 <= i < j < |chunks| ==> Disjoint(chunks[i], chunks[j]))
  }

  ghost predicate InChunks(chunks: seq<seq<nat>>, x: nat) {
    exists i :: 0 <= i < |chunks| && x in chunks[i]
  }

  /** The nodes of the free list and of all chunks on the stack. */
  ghost function Spare(n: nat, free: seq<nat>, chunks: seq<seq<nat>>): set<nat> {
    set x: nat | x < n && (x in free || InChunks(chunks, x))
  }

  ghost predicate ChunksLinked(next: seq<Option<nat>>, chunks: seq<seq<nat>>, size: nat) {
    forall i :: 0 <= i < |chunks| ==> IsChunk(next, chunks[i], size)
  }

  /** Writing the link of a node in no chunk leaves all chunks as they are. */
  lemma ChunksStay(next: seq<Option<nat>>, chunks: seq<seq<nat>>, size: nat, x: nat, link: Option<nat>)
    requires ChunksLinked(next, chunks, size) && x < |next| && !InChunks(chunks, x)
    ensures ChunksLinked(next[x := link], chunks, size)
  {
    forall i | 0 <= i < |chunks| ensures IsChunk(next[x := link], chunks[i], size) {
      WriteElsewhere(next, chunks[i], x, link);
    }
  }

  lemma ChunksGrow(next: seq<Option<nat>>, chunks: seq<seq<nat>>, size: nat, more: seq<Option<nat>>)
    requires ChunksLinked(next, chunks, size)
    ensures ChunksLinked(next + more, chunks, size) && forall x: nat :: InChunks(chunks, x) ==> x < |next|
  {
    forall i | 0 <= i < |chunks| ensures IsChunk(next + more, chunks[i], size) {
      NewNodes(next, chunks[i], more);
    }
    forall x: nat | InChunks(chunks, x) ensures x < |next| {
      var i :| 0 <= i < |chunks| && x in chunks[i];
      NewNodes(next, chunks[i], more);
    }
  }

  /** The links of a new chunk whose first node is n. */
  function FreshLinks(n: nat, size: nat): (r: seq<Option<nat>>)
    ensures |r| == size
  {
    seq<Option<nat>>(size, (i: nat) => if i + 1 < size then Some(n + i + 1) else None)
  }

  function FreshChunk(n: nat, size: nat): (r: seq<nat>)
    ensures |r| == size && forall i :: 0 <= i < size ==> r[i] == n + i
  {
    seq<nat>(size, (i: nat) => n + i)
  }

  lemma FreshIsAChunk(next: seq<Option<nat>>, size: nat)
    ensures IsChunk(next + FreshLinks(|next|, size), FreshChunk(|next|, size), size)
  {
    var next', chunk := next + FreshLinks(|next|, size), FreshChunk(|next|, size);
    forall i ensures LinkedAt(next', chunk, i) {
    }
  }

  /** The thread's free list and the chunks on the stack, in the memory of links. */
  ghost predicate Pool(next: seq<Option<nat>>, free: seq<nat>, chunks: seq<seq<nat>>, size: nat) {
    size > 0 && Linked(next, free) && Distinct(free) && ChunksLinked(next, chunks, size) && ChunksApart(free, chunks)
  }

  /** Writing the link of a node that is not spare. */
  lemma PoolStays(next: seq<Option<nat>>, free: seq<nat>, chunks: seq<seq<nat>>, size: nat, x: nat, link: Option<nat>)
    requires Pool(next, free, chunks, size) && x < |next| && x !in Spare(|next|, free, chunks)
    ensures Pool(next[x := link], free, chunks, size)
  {
    WriteElsewhere(next, free, x, link);
    ChunksStay(next, chunks, size, x, link);
  }

  /** A chunk of new nodes becomes the top chunk. */
  lemma PoolGrows(next: seq<Option<nat>>, free: seq<nat>, chunks: seq<seq<nat>>, size: nat)
    requires Pool(next, free, chunks, size)
    ensures var next', all := next + FreshLinks(|next|, size), chunks + [FreshChunk(|next|, size)];
            && Pool(next', free, all, size) && |next'| == |next| + size
            && forall x: nat :: x in Spare(|next'|, free, all) <==>
                 x in Spare(|next|, free, chunks) || |next| <= x < |next'|
  {
    var n, links, chunk := |next|, FreshLinks(|next|, size), FreshChunk(|next|, size);
    var all := chunks + [chunk];
    NewNodes(next, free, links);
    ChunksGrow(next, chunks, size, links);
    FreshIsAChunk(next, size);
    forall i | 0 <= i < |all| ensures IsChunk(next + links, all[i], size) && Disjoint(free, all[i]) {
    }
    forall i, j | 0 <= i < j < |all| ensures Disjoint(all[i], all[j]) {
      ChunkBelow(chunks, i, n);
    }
    forall x: nat ensures InChunks(all, x) <==> InChunks(chunks, x) || n <= x < n + size {
      PushedChunk(chunks, chunk, x);
      assert n <= x < n + size ==> chunk[x - n] == x;
    }
  }

  lemma ChunkBelow(chunks: seq<seq<nat>>, i: nat, n: nat)
    requires forall x: nat :: InChunks(chunks, x) ==> x < n
    ensures i < |chunks| ==> forall x :: x in chunks[i] ==> x < n
  {
    forall x | i < |chunks| && x in chunks[i] ensures x < n {
      assert InChunks(chunks, x);
    }
  }

  lemma PushedChunk(chunks: seq<seq<nat>>, chunk: seq<nat>, x: nat)
    ensures InChunks(chunks + [chunk], x) <==> InChunks(chunks, x) || x in chunk
  {
    var all := chunks + [chunk];
    assert all[|chunks|] == chunk;
    if InChunks(chunks, x) {
      var i :| 0 <= i < |chunks| && x in chunks[i];
      assert all[i] == chunks[i];
    }
  }

  /** Taking the first node off the free list. */
  lemma PoolTakes(next: seq<Option<nat>>, free: seq<nat>, chunks: seq<seq<nat>>, size: nat)
    requires Pool(next, free, chunks, size) && free != []
    ensures var x, rest := free[0], free[1..];
            && x < |next| && next[x] == First(rest) && Pool(next[x := None], rest, chunks, size)
            && x in Spare(|next|, free, chunks) && Spare(|next|, rest, chunks) == Spare(|next|, free, chunks) - {x}
  {
    var x := free[0];
    Unlink(next, free);
    assert free == [x] + free[1..];
    WriteElsewhere(next, free[1..], x, None);
    ChunksStay(next, chunks, size, x, None);
  }

  /** Putting a node at the head of the free list. */
  lemma PoolGives(next: seq<Option<nat>>, free: seq<nat>, chunks: seq<seq<nat>>, size: nat, x: nat)
    requires Pool(next, free, chunks, size) && x < |next| && x !in Spare(|next|, free, chunks)
    ensures Pool(next[x := First(free)], [x] + free, chunks, size)
    ensures Spare(|next|, [x] + free, chunks) == Spare(|next|, free, chunks) + {x}
  {
    LinkFront(next, free, x);
    ChunksStay(next, chunks, size, x, First(free));
    forall i | 0 <= i < |chunks| ensures Disjoint([x] + free, chunks[i]) {
      assert x in chunks[i] ==> InChunks(chunks, x);
    }
  }

  /** The top chunk becomes the free list. */
  lemma PoolPops(next: seq<Option<nat>>, chunks: seq<seq<nat>>, size: nat)
    requires Pool(next, [], chunks, size) && chunks != []
    ensures var top, rest := chunks[|chunks| - 1], chunks[..|chunks| - 1];
            Pool(next, top, rest, size) && Spare(|next|, top, rest) == Spare(|next|, [], chunks) && |top| == size
  {
    var top, rest := chunks[|chunks| - 1], chunks[..|chunks| - 1];
    assert chunks == rest + [top];
    forall i | 0 <= i < |rest| ensures Disjoint(top, rest[i]) && IsChunk(next, rest[i], size) {
      assert Disjoint(chunks[i], chunks[|chunks| - 1]) && IsChunk(next, chunks[i], size);
    }
    assert IsChunk(next, chunks[|chunks| - 1], size);
    forall x: nat ensures InChunks(chunks, x) <==> InChunks(rest, x) || x in top {
      PushedChunk(rest, top, x);
    }
  }

  /** A full free list becomes the top chunk. */
  lemma PoolPushes(next: seq<Option<nat>>, free: seq<nat>, chunks: seq<seq<nat>>, size: nat)
    requires Pool(next, free, chunks, size) && |free| == size
    ensures Pool(next, [], chunks + [free], size)
    ensures Spare(|next|, [], chunks + [free]) == Spare(|next|, free, chunks)
  {
    var all := chunks + [free];
    forall i | 0 <= i < |all| ensures IsChunk(next, all[i], size) {
    }
    forall x: nat ensures InChunks(all, x) <==> InChunks(chunks, x) || x in free {
      PushedChunk(chunks, free, x);
    }
  }

  class MpscQueue {
    const chunkSize: nat
    var next: seq<Option<nat>>
    var value: seq<Value>
    var head: nat
    var tail: nat
    var freeList: Option<nat>
    var freeSize: nat
    var stack: seq<nat>               // the heads of the pool's chunks, the top at the end
    var reserved: nat                 // global_node_count_ in chunks
    ghost var chain: seq<nat>         // from the tail to the head
    ghost var free: seq<nat>          // from the first free node on
    ghost var chunks: seq<seq<nat>>   // on the stack
    ghost var contents: seq<Value>    // what has been enqueued and not dequeued

    ghost predicate PoolOk()
      reads this
    {
      && |next| == |value| && Pool(next, free, chunks, chunkSize)
      && freeSize == |free| <= chunkSize && freeList == First(free)
      && |stack| == |chunks| && forall i :: 0 <= i < |stack| ==> chunks[i] != [] && stack[i] == chunks[i][0]
    }

    ghost function Spares(): set<nat>
      reads this
    {
      Spare(|next|, free, chunks)
    }

    /** The node at the tail carries no value any more. */
    ghost predicate QueueOk()
      reads this
    {
      && |chain| > 0 && tail == chain[0] && head == chain[|chain| - 1]
      && Linked(next, chain) && Distinct(chain) && Carries(value, chain, 1, contents)
    }

    /** The free list may be a whole chunk, as it is when one was just popped. */
    ghost predicate Whole()
      reads this
    {
      PoolOk() && QueueOk() && forall x :: x in chain ==> x !in Spares()
    }

    ghost predicate Valid()
      reads this
    {
      Whole() && freeSize < chunkSize
    }

    constructor (chunkSize: nat)
      requires chunkSize > 0
      ensures Valid() && contents == [] && this.chunkSize == chunkSize
    {
      this.chunkSize := chunkSize;
      next, value := [None], [0];
      head, tail, chain := 0, 0, [0];
      freeList, freeSize, free, contents := None, 0, [], [];
      stack, chunks, reserved := [], [], 0;
    }

    /** A chunk of new nodes goes to the stack. */
    method MakeChunk()
      requires Valid()
      modifies this`next, this`value, this`stack, this`chunks
      ensures Valid() && |stack| == old(|stack|) + 1
      ensures LeavesAlone(old(next), old(value), old(Spares()), next, value, Spares())
    {
      var n := |next|;
      var links, zeros := FreshLinks(n, chunkSize), seq(chunkSize, i => 0);
      ghost var chunk := FreshChunk(n, chunkSize);
      PoolGrows(next, free, chunks, chunkSize);
      NewNodes(next, chain, links);
      CarriesStill(value, chain, 1, contents, value + zeros);
      next, value := next + links, value + zeros;
      stack, chunks := stack + [n], chunks + [chunk];
    }

    /** Reserve as many chunks again as there are, at least one. */
    method Reserve()
      requires Valid()
      modifies this`next, this`value, this`stack, this`chunks, this`reserved
      ensures Valid() && |stack| == old(|stack|) + Max(1, old(reserved))
      ensures reserved == old(reserved) + Max(1, old(reserved))
      ensures LeavesAlone(old(next), old(value), old(Spares()), next, value, Spares())
    {
      var more := Max(1, reserved);
      for i := 0 to more
        invariant Valid() && |stack| == old(|stack|) + i && reserved == old(reserved)
        invariant LeavesAlone(old(next), old(value), old(Spares()), next, value, Spares())
      {
        MakeChunk();
      }
      reserved := reserved + more;
    }

    /** Takes a node from the thread's free list, which is filled with a chunk from the stack when it has
        run dry; when the stack is empty too, more chunks are reserved. */
    method Allocate() returns (x: nat)
      requires Valid()
      modifies this`next, this`value, this`freeList, this`freeSize, this`free, this`stack, this`chunks, this`reserved
      ensures Valid() && x < |next| && next[x] == None && x !in chain && x !in Spares()
      ensures x in old(Spares()) || x >= old(|next|)
      ensures old(free) != [] ==> x == old(free)[0] && free == old(free)[1..] && chunks == old(chunks)
      ensures old(free) == [] && old(chunks) != [] ==>
                && x == old(chunks)[old(|chunks|) - 1][0] && free == old(chunks)[old(|chunks|) - 1][1..]
                && chunks == old(chunks)[..old(|chunks|) - 1]
      ensures LeavesAlone(old(next), old(value), old(Spares()), next, value, Spares())
    {
      if freeSize == 0 {
        if stack == [] {
          Reserve();
        }
        PopChunk();
      }
      x := TakeFree();
    }

    /** The top chunk becomes the free list. */
    method PopChunk()
      requires Valid() && free == [] && stack != []
      modifies this`freeList, this`freeSize, this`free, this`stack, this`chunks
      ensures Whole() && free == old(chunks)[old(|chunks|) - 1] && free != []
      ensures chunks == old(chunks)[..old(|chunks|) - 1] && Spares() == old(Spares())
    {
      var n := |stack| - 1;
      PoolPops(next, chunks, chunkSize);
      freeList, freeSize, stack := Some(stack[n]), chunkSize, stack[..n];
      free, chunks := chunks[n], chunks[..n];
    }

    method TakeFree() returns (x: nat)
      requires Whole() && free != []
      modifies this`next, this`freeList, this`freeSize, this`free
      ensures Valid() && x == old(free)[0] && free == old(free)[1..]
      ensures x < |next| && next == old(next)[x := None] && x in old(Spares()) && Spares() == old(Spares()) - {x}
    {
      PoolTakes(next, free, chunks, chunkSize);
      x := freeList.value;
      freeSize := freeSize - 1;
      freeList := next[x];
      free := free[1..];
      WriteElsewhere(next, chain, x, None);
      next := next[x := None];
    }

    /** Gives a node to the thread's free list, which goes to the stack when it is a full chunk. */
    method Deallocate(x: nat)
      requires Valid() && x < |next| && x !in chain && x !in Spares()
      modifies this`next, this`freeList, this`freeSize, this`free, this`stack, this`chunks
      ensures Valid() && Spares() == old(Spares()) + {x} && |next| == old(|next|)
      ensures if old(|free|) + 1 < chunkSize then free == [x] + old(free) && chunks == old(chunks)
              else free == [] && chunks == old(chunks) + [[x] + old(free)]
      ensures forall y :: 0 <= y < |next| && y != x ==> next[y] == old(next)[y]
    {
      PoolGives(next, free, chunks, chunkSize, x);
      WriteElsewhere(next, chain, x, freeList);
      next := next[x := freeList];
      freeList, freeSize, free := Some(x), freeSize + 1, [x] + free;
      if freeSize >= chunkSize {
        PoolPushes(next, free, chunks, chunkSize);
        stack, chunks := stack + [freeList.value], chunks + [free];
        freeList, freeSize, free := None, 0, [];
      }
    }

    method Emplace(v: Value)
      requires Valid()
      modifies this
      ensures Valid() && contents == old(contents) + [v]
    {
      var x := Allocate();
      CarriesStill(value, chain, 1, contents, value[x := v]);
      value := value[x := v];
      Single(next, value, x);
      Publish(x, x, [x], [v]);
    }

    method TryDequeue() returns (r: Option<Value>)
      requires Valid()
      modifies this
      ensures Valid()
      ensures r == if old(contents) == [] then None else Some(old(contents)[0])
      ensures contents == if old(contents) == [] then [] else old(contents)[1..]
    {
      Unlink(next, chain);
      if next[tail].None? {
        return None;
      }
      var passed := tail;
      tail := next[tail].value;
      CarriesRest(value, chain, contents);
      r := Some(value[tail]);
      assert passed in chain && forall x :: x in chain[1..] ==> x in chain;
      chain, contents := chain[1..], contents[1..];
      Deallocate(passed);
    }

    /** A bulk dequeue stops at the first failure. */
    method TryDequeueBulk(n: nat) returns (r: seq<Value>)
      requires Valid()
      modifies this
      ensures Valid() && |r| == (if n < |old(contents)| then n else |old(contents)|)
      ensures old(contents) == r + contents
    {
      r := [];
      while |r| < n
        invariant Valid() && |r| <= n && |r| + |contents| == |old(contents)|
        invariant r == old(contents)[..|r|] && contents == old(contents)[|r|..]
        decreases n - |r|
      {
        var one := TryDequeue();
        if one.None? {
          break;
        }
        r := r + [one.value];
      }
    }

    /** The caller's private chain: it carries these values and shares no node with the queue. */
    ghost predicate Private(mine: seq<nat>, values: seq<Value>)
      reads this
    {
      && mine != [] && |next| == |value| && Linked(next, mine) && Distinct(mine) && Carries(value, mine, 0, values)
      && forall x :: x in mine ==> x !in chain && x !in Spares()
    }

    /** One more node at the end of the private chain. */
    method Extend(ghost mine: seq<nat>, ghost values: seq<Value>, last: nat, v: Value) returns (x: nat)
      requires Valid() && Private(mine, values) && last == mine[|mine| - 1]
      modifies this`next, this`value, this`freeList, this`freeSize, this`free, this`stack, this`chunks, this`reserved
      ensures Valid() && Private(mine + [x], values + [v])
    {
      x := AllocateBeside(mine, values);
      CarriesStill(value, chain, 1, contents, value[x := v]);
      CarriesStill(value, mine, 0, values, value[x := v]);
      value := value[x := v];
      Single(next, value, x);
      CarriesBoth(value, mine, 0, values, [x], [v]);
      Append(next, mine, [x]);
      PoolStays(next, free, chunks, chunkSize, last, Some(x));
      WriteElsewhere(next, chain, last, Some(x));
      next := next[last := Some(x)];
    }

    /** Allocation leaves alone what the caller already has. */
    method AllocateBeside(ghost mine: seq<nat>, ghost values: seq<Value>) returns (x: nat)
      requires Valid() && Private(mine, values)
      modifies this`next, this`value, this`freeList, this`freeSize, this`free, this`stack, this`chunks, this`reserved
      ensures Valid() && Private(mine, values)
      ensures x < |next| && next[x] == None && x !in chain && x !in Spares() && x !in mine
    {
      x := Allocate();
      forall i ensures LinkedAt(next, mine, i) && (0 <= i < |mine| ==> mine[i] < |old(next)|) {
        assert LinkedAt(old(next), mine, i);
      }
      CarriesStill(old(value), mine, 0, values, value);
    }

    /** Exchange the head and link the private chain behind the old one. */
    method Publish(first: nat, last: nat, ghost mine: seq<nat>, ghost values: seq<Value>)
      requires Valid() && Private(mine, values) && first == mine[0] && last == mine[|mine| - 1]
      modifies this`head, this`next, this`chain, this`contents
      ensures Valid() && contents == old(contents) + values
    {
      Append(next, chain, mine);
      assert head in chain;
      PoolStays(next, free, chunks, chunkSize, head, Some(first));
      var before := head;
      head := last;
      next := next[before := Some(first)];
      CarriesBoth(value, chain, 1, contents, mine, values);
      chain, contents := chain + mine, contents + values;
    }

    /** A bulk enqueue builds its chain privately and then links all of it behind the head. */
    method EnqueueBulk(vs: seq<Value>)
      requires Valid()
      modifies this
      ensures Valid() && contents == old(contents) + vs
    {
      if vs == [] {
        return;
      }
      var first := Allocate();
      CarriesStill(value, chain, 1, contents, value[first := vs[0]]);
      value := value[first := vs[0]];
      Single(next, value, first);
      assert vs[..1] == [vs[0]];
      var last := first;
      ghost var mine := [first];
      for i := 1 to |vs|
        invariant Valid() && contents == old(contents) && Private(mine, vs[..i])
        invariant mine[0] == first && mine[|mine| - 1] == last
      {
        last := Extend(mine, vs[..i], last, vs[i]);
        assert vs[..i] + [vs[i]] == vs[..i + 1];
        mine := mine + [last];
      }
      assert vs[..|vs|] == vs;
      Publish(first, last, mine, vs);
    }
  }
}
