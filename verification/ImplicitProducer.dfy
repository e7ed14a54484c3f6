/** An implicit producer as a whole: the dequeue counters give out indices, and the block index leads from
    an index to the block that its element was written to. */
module ImplicitProducer {
  import Division
  import Index = BlockIndexProtocol
  import opened BlockIndexInvariant
  import BlockIndexSafety
  import opened Options
  import Runs
  import Tickets = DequeueTickets

  type Block = Index.Block

  datatype State = State(
    tickets: Tickets.State,
    index: Index.State,
    // history
    stored: map<nat, Block>,      // the block the producer last took for each block number
    written: seq<Block>,          // the block that each published element was written to
    seeking: map<nat, nat>,       // the element index that each looking consumer was given
    taken: set<nat>               // the element indices whose consumer began to look
  )

  function BlockOf(size: nat, p: nat): nat
    requires size > 0
  {
    p / size
  }

  function StoredIn(stored: map<nat, Block>, n: nat): Block {
    if n in stored then stored[n] else 0
  }

  ghost predicate Init(s: State) {
    && Tickets.Init(s.tickets) && Index.Init(s.index)
    && s.stored == map[] && s.written == [] && s.seeking == map[] && s.taken == {}
  }

  /** The producer works on the block index. */
  ghost predicate Prepares(s: State, a: Index.WriterAction, s': State) {
    && a != Index.Publish && Index.WriterStep(s.index, a, s'.index)
    && s' == s.(index := s'.index,
                stored := if a.StoreValue? && s.index.writer.Tailed? then s.stored[s.index.writer.n := a.block]
                          else s.stored)
  }

  /** The blocks of count elements from index p on. */
  function BlocksFrom(size: nat, stored: map<nat, Block>, p: nat, count: nat): (r: seq<Block>)
    requires size > 0
    ensures |r| == count && forall i :: 0 <= i < count ==> r[i] == StoredIn(stored, BlockOf(size, p + i))
  {
    seq<Block>(count, (i: nat) => StoredIn(stored, BlockOf(size, p + i)))
  }

  /** The producer publishes elements; the last one lies in the last block that it inserted. */
  ghost predicate Publishes(size: nat, s: State, count: nat, s': State)
    requires size > 0
  {
    var tail := s.tickets.shared.tailIndex;
    && count > 0 && BlockOf(size, tail + count - 1) == s.index.shared.last
    && Index.WriterStep(s.index, Index.Publish, s'.index) && Tickets.Enqueue(s.tickets, count, s'.tickets)
    && s' == s.(tickets := s'.tickets, index := s'.index,
                written := s.written + BlocksFrom(size, s.stored, tail, count))
  }

  ghost predicate Counts(s: State, t: nat, a: Tickets.Action, s': State) {
    Tickets.ConsumerStep(s.tickets, t, a, s'.tickets) && s' == s.(tickets := s'.tickets)
  }

  /** The index after consumer u began to look for block n. */
  function Sought(x: Index.State, u: nat, n: nat): Index.State
    requires u < |x.threads|
  {
    x.(shared := x.shared.(claimed := x.shared.claimed[n := Index.Count(x.shared.claimed, n) + 1]),
       threads := x.threads[u := Index.Looking(n)])
  }

  /** A consumer begins to look for the element at an index that a dequeue was given. */
  ghost predicate Begins(size: nat, s: State, u: nat, p: nat, s': State)
    requires size > 0
  {
    && u < |s.index.threads| && s.index.threads[u].Idle?
    && (exists k :: Tickets.GivenTo(s.tickets.shared.grants, k, p)) && p !in s.taken
    && s' == s.(index := Sought(s.index, u, BlockOf(size, p)), seeking := s.seeking[u := p], taken := s.taken + {p})
  }

  ghost predicate Looks(size: nat, s: State, u: nat, a: Index.Action, s': State) {
    !a.Claim? && Index.ConsumerStep(size, s.index, u, a, s'.index) && s' == s.(index := s'.index)
  }

  ghost predicate Step(size: nat, s: State, s': State)
    requires size > 0
  {
    || (exists a :: Prepares(s, a, s'))
    || (exists count: nat :: Publishes(size, s, count, s'))
    || (exists t: nat, a :: Counts(s, t, a, s'))
    || (exists u: nat, p: nat :: Begins(size, s, u, p, s'))
    || (exists u: nat, a :: Looks(size, s, u, a, s'))
  }

  ghost function Protocol(size: nat): Runs.System<State>
    requires size > 0
  {
    Runs.System(s => Init(s), (s, s') => Step(size, s, s'))
  }

  ghost predicate IsRun(size: nat, run: seq<State>) {
    size > 0 && Runs.IsRun(Protocol(size), run)
  }

  // ---- the invariant ----

  function TailOf(s: State): nat {
    s.tickets.shared.tailIndex
  }

  /** The last published block is that of the last published element. */
  ghost predicate TailsAgree(size: nat, s: State)
    requires size > 0
  {
    s.index.shared.published == if TailOf(s) == 0 then -1 else BlockOf(size, TailOf(s) - 1)
  }

  ghost predicate WrittenAt(size: nat, s: State, p: nat)
    requires size > 0
  {
    p < TailOf(s) ==> p < |s.written| && BlockOf(size, p) in s.stored && s.written[p] == s.stored[BlockOf(size, p)]
  }

  ghost predicate StoredAt(s: State, n: nat) {
    n in s.index.shared.live ==> n in s.stored && s.index.shared.live[n] == s.stored[n]
  }

  function TakenIn(size: nat, taken: set<nat>, n: nat): set<nat>
    requires size > 0
  {
    set p | p in taken && BlockOf(size, p) == n
  }

  ghost predicate ClaimsAt(size: nat, s: State, n: nat)
    requires size > 0
  {
    Index.Count(s.index.shared.claimed, n) == |TakenIn(size, s.taken, n)|
  }

  ghost predicate SeekerAt(size: nat, s: State, u: nat)
    requires size > 0
  {
    u < |s.index.threads| && !s.index.threads[u].Idle? ==>
      && u in s.seeking && s.seeking[u] in s.taken && BlockOf(size, s.seeking[u]) == s.index.threads[u].n
  }

  ghost predicate SeekersApart(s: State, u: nat, v: nat) {
    u < |s.index.threads| && v < |s.index.threads| && u != v
    && !s.index.threads[u].Idle? && !s.index.threads[v].Idle? ==>
      u in s.seeking && v in s.seeking && s.seeking[u] != s.seeking[v]
  }

  ghost predicate Linked(size: nat, s: State)
    requires size > 0
  {
    && TailsAgree(size, s) && |s.written| == TailOf(s)
    && (forall p :: p in s.taken ==> p < s.tickets.shared.headIndex)
    && (forall p :: WrittenAt(size, s, p)) && (forall n :: StoredAt(s, n))
    && (forall n :: ClaimsAt(size, s, n)) && (forall u :: SeekerAt(size, s, u))
    && (forall u, v :: SeekersApart(s, u, v))
  }

  ghost predicate Inv(size: nat, s: State) {
    size > 0 && Tickets.Inv(s.tickets) && BlockIndexInvariant.Inv(size, s.index) && Linked(size, s)
  }

  // ---- counting the indices of a block ----

  lemma BlockBounds(size: nat, p: nat)
    requires size > 0
    ensures BlockOf(size, p) * size <= p < BlockOf(size, p) * size + size
  {
  }

  lemma {:induction false} CardAtMost(s: set<nat>, lo: nat, hi: nat)
    requires lo <= hi && forall x :: x in s ==> lo <= x < hi
    ensures |s| <= hi - lo
    decreases hi
  {
    if lo < hi {
      var rest := s - {hi - 1};
      CardAtMost(rest, lo, hi - 1);
    } else {
      assert s == {};
    }
  }

  /** A block whose elements are below hi has at most that many indices taken. */
  lemma TakenBelow(size: nat, taken: set<nat>, n: nat, hi: nat)
    requires size > 0 && n * size <= hi && forall p :: p in taken ==> p < hi
    ensures |TakenIn(size, taken, n)| <= hi - n * size
    ensures |TakenIn(size, taken, n)| <= size
  {
    forall p | p in TakenIn(size, taken, n) ensures n * size <= p < n * size + size {
      BlockBounds(size, p);
    }
    CardAtMost(TakenIn(size, taken, n), n * size, hi);
    CardAtMost(TakenIn(size, taken, n), n * size, n * size + size);
  }

  /** An index that is not taken leaves its block room for one more claim. */
  lemma RoomForOne(size: nat, taken: set<nat>, p: nat)
    requires size > 0 && p !in taken
    ensures |TakenIn(size, taken, BlockOf(size, p))| < size
    ensures |TakenIn(size, taken + {p}, BlockOf(size, p))| == |TakenIn(size, taken, BlockOf(size, p))| + 1
  {
    var n := BlockOf(size, p);
    var all := TakenIn(size, taken, n) + {p};
    assert TakenIn(size, taken + {p}, n) == all;
    forall q | q in all ensures n * size <= q < n * size + size {
      BlockBounds(size, q);
    }
    CardAtMost(all, n * size, n * size + size);
  }

  lemma OtherBlockSame(size: nat, taken: set<nat>, p: nat, n: nat)
    requires size > 0 && n != BlockOf(size, p)
    ensures TakenIn(size, taken + {p}, n) == TakenIn(size, taken, n)
  {
  }

  // ---- what a given index says about its block ----

  lemma GivenIsPublished(size: nat, s: State, p: nat)
    requires Inv(size, s) && p < s.tickets.shared.headIndex
    ensures p < TailOf(s) && BlockOf(size, p) <= s.index.shared.published
  {
    Tickets.HeadBelowTail(s.tickets);
    Division.Monotone(p, TailOf(s) - 1, size);
  }

  /** What the block index asks of a claim holds for every index that was given out and not looked for. */
  lemma ClaimsAreSound(size: nat, s: State, u: nat, p: nat, s': State)
    requires Inv(size, s) && Begins(size, s, u, p, s')
    ensures Index.ConsumerStep(size, s.index, u, Index.Claim(BlockOf(size, p)), s'.index)
    ensures p < s.tickets.shared.headIndex
  {
    var k: nat :| Tickets.GivenTo(s.tickets.shared.grants, k, p);
    Tickets.GivenIsBelowHead(s.tickets.shared.grants, s.tickets.shared.headIndex, k, p);
    GivenIsPublished(size, s, p);
    RoomForOne(size, s.taken, p);
    assert ClaimsAt(size, s, BlockOf(size, p));
  }

  /** The producer writes only to blocks that are in the index: the one it was filling has elements that
      nobody has claimed. */
  lemma NewElementsAreLive(size: nat, s: State, count: nat, s': State, i: nat)
    requires Inv(size, s) && Publishes(size, s, count, s') && i < count
    ensures BlockOf(size, TailOf(s) + i) in s.index.shared.live
    ensures BlockOf(size, TailOf(s) + i) <= s.index.shared.last
  {
    var n, g := BlockOf(size, TailOf(s) + i), s.index.shared;
    Division.Monotone(TailOf(s) + i, TailOf(s) + count - 1, size);
    if TailOf(s) > 0 {
      Division.Monotone(TailOf(s) - 1, TailOf(s) + i, size);
    }
    assert GoneAt(size, g, n) && ClaimsAt(size, s, n);
    if n <= g.published {
      PartialIsLive(size, s, n, TailOf(s) + i);
    }
  }

  lemma PartialIsLive(size: nat, s: State, n: nat, p: nat)
    requires Inv(size, s) && n == BlockOf(size, p) && TailOf(s) <= p && n <= s.index.shared.published
    ensures n in s.index.shared.live
  {
    assert GoneAt(size, s.index.shared, n) && ClaimsAt(size, s, n);
    Tickets.HeadBelowTail(s.tickets);
    assert p !in s.taken;
    RoomForOne(size, s.taken, p);
  }

  // ---- every step keeps the invariant ----

  lemma PreparesKeeps(size: nat, s: State, a: Index.WriterAction, s': State)
    requires Inv(size, s) && Prepares(s, a, s')
    ensures Inv(size, s')
  {
    BlockIndexSafety.WriterKeeps(size, s.index, a, s'.index);
    forall p: nat ensures WrittenAt(size, s', p) {
      assert WrittenAt(size, s, p);
      if p < TailOf(s) {
        Division.Monotone(p, TailOf(s) - 1, size);
      }
    }
    forall n: nat ensures StoredAt(s', n) && ClaimsAt(size, s', n) {
      assert StoredAt(s, n) && ClaimsAt(size, s, n);
      BlockIndexSafety.WriterKeepsLive(s.index.shared, s.index.writer, a, s'.index.shared, s'.index.writer, n);
    }
    SeekersStay(size, s, s');
  }

  lemma SeekersStay(size: nat, s: State, s': State)
    requires Inv(size, s) && s'.index.threads == s.index.threads && s'.seeking == s.seeking && s'.taken == s.taken
    ensures (forall u :: SeekerAt(size, s', u)) && (forall u, v :: SeekersApart(s', u, v))
  {
    forall u: nat ensures SeekerAt(size, s', u) {
      assert SeekerAt(size, s, u);
    }
    forall u: nat, v: nat ensures SeekersApart(s', u, v) {
      assert SeekersApart(s, u, v);
    }
  }

  lemma PublishesKeeps(size: nat, s: State, count: nat, s': State)
    requires Inv(size, s) && Publishes(size, s, count, s')
    ensures Inv(size, s')
  {
    BlockIndexSafety.WriterKeeps(size, s.index, Index.Publish, s'.index);
    Tickets.EnqueueKeeps(s.tickets, count, s'.tickets);
    forall p: nat ensures WrittenAt(size, s', p) {
      assert WrittenAt(size, s, p);
      if TailOf(s) <= p < TailOf(s) + count {
        NewElementsAreLive(size, s, count, s', p - TailOf(s));
        assert StoredAt(s, BlockOf(size, p));
      }
    }
    forall n: nat ensures StoredAt(s', n) && ClaimsAt(size, s', n) {
      assert StoredAt(s, n) && ClaimsAt(size, s, n);
    }
    SeekersStay(size, s, s');
  }

  lemma CountsKeeps(size: nat, s: State, t: nat, a: Tickets.Action, s': State)
    requires Inv(size, s) && Counts(s, t, a, s')
    ensures Inv(size, s')
  {
    Tickets.ConsumerKeeps(s.tickets, t, a, s'.tickets);
    forall p: nat ensures WrittenAt(size, s', p) {
      assert WrittenAt(size, s, p);
    }
    forall n: nat ensures StoredAt(s', n) && ClaimsAt(size, s', n) {
      assert StoredAt(s, n) && ClaimsAt(size, s, n);
    }
    SeekersStay(size, s, s');
  }

  lemma BeginsKeeps(size: nat, s: State, u: nat, p: nat, s': State)
    requires Inv(size, s) && Begins(size, s, u, p, s')
    ensures Inv(size, s')
  {
    ClaimsAreSound(size, s, u, p, s');
    BlockIndexSafety.ConsumerKeeps(size, s.index, u, Index.Claim(BlockOf(size, p)), s'.index);
    forall q: nat ensures WrittenAt(size, s', q) {
      assert WrittenAt(size, s, q);
    }
    forall n: nat ensures StoredAt(s', n) && ClaimsAt(size, s', n) {
      assert StoredAt(s, n) && ClaimsAt(size, s, n);
      if n == BlockOf(size, p) {
        RoomForOne(size, s.taken, p);
      } else {
        OtherBlockSame(size, s.taken, p, n);
      }
    }
    forall v: nat ensures SeekerAt(size, s', v) {
      assert SeekerAt(size, s, v);
    }
    forall v: nat, w: nat ensures SeekersApart(s', v, w) {
      assert SeekersApart(s, v, w) && SeekerAt(size, s, v) && SeekerAt(size, s, w);
    }
  }

  lemma LooksKeeps(size: nat, s: State, u: nat, a: Index.Action, s': State)
    requires Inv(size, s) && Looks(size, s, u, a, s')
    ensures Inv(size, s')
  {
    BlockIndexSafety.ConsumerKeeps(size, s.index, u, a, s'.index);
    forall p: nat ensures WrittenAt(size, s', p) {
      assert WrittenAt(size, s, p);
    }
    forall n: nat ensures StoredAt(s', n) && ClaimsAt(size, s', n) {
      assert StoredAt(s, n) && ClaimsAt(size, s, n);
    }
    forall v: nat ensures SeekerAt(size, s', v) {
      assert SeekerAt(size, s, v);
    }
    forall v: nat, w: nat ensures SeekersApart(s', v, w) {
      assert SeekersApart(s, v, w);
    }
  }

  lemma InitHolds(size: nat, s: State)
    requires size > 0 && Init(s)
    ensures Inv(size, s)
  {
    Tickets.InitHolds(s.tickets);
    BlockIndexSafety.InitHolds(size, s.index);
    forall n: nat ensures ClaimsAt(size, s, n) {
      assert TakenIn(size, s.taken, n) == {};
    }
  }

  lemma StepKeeps(size: nat, s: State, s': State)
    requires Inv(size, s) && Step(size, s, s')
    ensures Inv(size, s')
  {
    if a :| Prepares(s, a, s') {
      PreparesKeeps(size, s, a, s');
    } else if count: nat :| Publishes(size, s, count, s') {
      PublishesKeeps(size, s, count, s');
    } else if t: nat, a :| Counts(s, t, a, s') {
      CountsKeeps(size, s, t, a, s');
    } else if u: nat, p: nat :| Begins(size, s, u, p, s') {
      BeginsKeeps(size, s, u, p, s');
    } else {
      var u: nat, a :| Looks(size, s, u, a, s');
      LooksKeeps(size, s, u, a, s');
    }
  }

  lemma EveryStateOk(size: nat, run: seq<State>, i: nat)
    requires IsRun(size, run) && i < |run|
    ensures Inv(size, run[i])
  {
    forall s | Init(s) ensures Inv(size, s) {
      InitHolds(size, s);
    }
    forall s, s' | Inv(size, s) && Step(size, s, s') ensures Inv(size, s') {
      StepKeeps(size, s, s');
    }
    Runs.Invariant(Protocol(size), s => Inv(size, s), run, i);
  }

  // ---- what the producer's queue promises ----

  /** A consumer finds, for the index it was given, the very block that the element at this index was
      written to; the index lies below the tail. */
  lemma FindsTheBlockWrittenTo(size: nat, run: seq<State>, i: nat, u: nat)
    requires IsRun(size, run) && i < |run| && u < |run[i].index.threads| && run[i].index.threads[u].Found?
    ensures u in run[i].seeking
    ensures var s, p, l := run[i], run[i].seeking[u], run[i].index.threads[u];
            && p < s.tickets.shared.headIndex <= TailOf(s) == |s.written|
            && l.n == BlockOf(size, p) && l.block == Some(s.written[p])
  {
    var s := run[i];
    EveryStateOk(size, run, i);
    assert SeekerAt(size, s, u) && LocalOk(s.index.shared, s.index.threads[u]);
    var p := s.seeking[u];
    GivenIsPublished(size, s, p);
    Tickets.HeadBelowTail(s.tickets);
    assert WrittenAt(size, s, p) && StoredAt(s, BlockOf(size, p));
  }

  /** No two consumers are after the same element. */
  lemma NoElementTwice(size: nat, run: seq<State>, i: nat, u: nat, v: nat)
    requires IsRun(size, run) && i < |run| && u < |run[i].index.threads| && v < |run[i].index.threads| && u != v
    requires !run[i].index.threads[u].Idle? && !run[i].index.threads[v].Idle?
    ensures u in run[i].seeking && v in run[i].seeking && run[i].seeking[u] != run[i].seeking[v]
  {
    EveryStateOk(size, run, i);
    assert SeekersApart(run[i], u, v);
  }

  /** In every run the producer writes its elements to blocks that are in the index, and what it wrote
      where stays on record. */
  lemma WritesToLiveBlocks(size: nat, run: seq<State>, i: nat, count: nat, p: nat)
    requires IsRun(size, run) && i + 1 < |run| && Publishes(size, run[i], count, run[i + 1])
    requires TailOf(run[i]) <= p < TailOf(run[i]) + count
    ensures BlockOf(size, p) in run[i].index.shared.live && p < |run[i + 1].written|
    ensures run[i + 1].written[p] == run[i].index.shared.live[BlockOf(size, p)]
  {
    EveryStateOk(size, run, i);
    NewElementsAreLive(size, run[i], count, run[i + 1], p - TailOf(run[i]));
    assert StoredAt(run[i], BlockOf(size, p));
  }
}
