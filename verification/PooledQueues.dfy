/** Linked queues on their shared pool: any number of queues with their producers and consumers, and the
    threads of the pool, in one memory of links and values. */
module PooledQueues {
  import Mailbox
  import opened Options
  import Pool = NodePoolProtocol
  import PoolInvariant = NodePoolInvariant
  import PoolSafety = NodePoolSafety
  import Queue = LinkedQueue
  import Runs

  type Value = Queue.Value

  /** A node's value shares its memory with the pool's next_chunk_. Each queue's links and values are
      those of the pool and of value. */
  datatype State = State(pool: Pool.State, value: seq<Value>, queues: seq<Queue.State>)

  function Next(s: State): seq<Option<nat>> {
    s.pool.shared.next
  }

  /** The owners that a queue has on record, when the pool has n nodes. */
  function Extended(owner: seq<Queue.Owner>, n: nat): (r: seq<Queue.Owner>)
    ensures |r| == n && forall x :: 0 <= x < n ==> r[x] == if x < |owner| then owner[x] else Queue.Pool
  {
    seq<Queue.Owner>(n, (x: nat) => if x < |owner| then owner[x] else Queue.Pool)
  }

  /** A queue that took no step itself, in the memory as it is now. */
  function Seen(q: Queue.State, next: seq<Option<nat>>, value: seq<Value>): Queue.State {
    q.(shared := q.shared.(next := next, value := value, owner := Extended(q.shared.owner, |next|)))
  }

  ghost predicate Init(c: nat, s: State) {
    Pool.Init(c, s.pool) && s.value == [] && s.queues == []
  }

  /** All queues but number k see what became of the memory; none of them is asked. */
  ghost predicate Others(s: State, k: nat, s': State) {
    && |s.queues| <= |s'.queues| && |s'.value| == |Next(s')|
    && forall j :: 0 <= j < |s.queues| && j != k ==> s'.queues[j] == Seen(s.queues[j], Next(s'), s'.value)
  }

  /** Where the pool writes next_chunk_, and so destroys what was the value. */
  predicate Garbles(s: State, t: nat, a: Pool.Action, x: nat) {
    && a.WriteLink? && t < |s.pool.threads| && s.pool.threads[t].pc.PushWrite?
    && Pool.HeadOf(s.pool.shared, s.pool.threads[t].pc.hand) == Some(x)
  }

  /** A thread is inside the pool. */
  ghost predicate PoolWorks(c: nat, s: State, t: nat, a: Pool.Action, s': State) {
    && !a.Take? && !a.Deallocate? && Pool.StepOf(c, s.pool, t, a, s'.pool)
    && Others(s, |s.queues|, s') && |s'.queues| == |s.queues| && |s.value| <= |s'.value|
    && forall x: nat :: x < |s.value| && !Garbles(s, t, a, x) ==> s'.value[x] == s.value[x]
  }

  /** The pool before a value is constructed where the taken node's next_chunk_ was. */
  function Unfilled(s: State, s': State): Pool.State {
    s'.pool.(shared := s'.pool.shared.(link := s.pool.shared.link))
  }

  /** The allocation of thread t ends with node x, and a value is constructed in it. */
  ghost predicate Takes(c: nat, s: State, t: nat, x: nat, s': State) {
    && Pool.StepOf(c, s.pool, t, Pool.Take, Unfilled(s, s')) && s.pool.threads[t].head == Some(x)
    && x < |s.value| && |s'.value| == |s.value| && |s'.pool.shared.link| == |s.pool.shared.link|
    && forall y: nat :: y < |s.value| && y != x ==> s'.value[y] == s.value[y] && SameLink(s, y, s')
  }

  predicate SameLink(s: State, y: nat, s': State) {
    y < |s.pool.shared.link| <= |s'.pool.shared.link| ==> s'.pool.shared.link[y] == s.pool.shared.link[y]
  }

  /** A producer's call, to which these values were passed, may go on to take a node. */
  predicate MayTake(l: Queue.Local, values: seq<Value>) {
    (l.Idle? && |values| > 0) || (l.Built? && values == l.values && |l.nodes| < |values|)
  }

  function ValueFor(l: Queue.Local, values: seq<Value>): Value
    requires MayTake(l, values)
  {
    if l.Idle? then values[0] else values[|l.nodes|]
  }

  function WithNode(l: Queue.Local, x: nat, values: seq<Value>): Queue.Local
    requires MayTake(l, values)
  {
    if l.Idle? then Queue.Built([x], values) else Queue.Extending(l.nodes, x, values)
  }

  /** Producer u of queue k takes the node that thread t of the pool allocates. */
  ghost predicate Allocates(c: nat, s: State, t: nat, k: nat, u: nat, x: nat, values: seq<Value>, s': State) {
    && Takes(c, s, t, x, s') && k < |s.queues| == |s'.queues| && Others(s, k, s')
    && var q := s.queues[k];
       && u < |q.threads| && MayTake(q.threads[u], values)
       && Queue.Sized(q.shared) && x < |q.shared.next|
       && s'.value == s.value[x := ValueFor(q.threads[u], values)]
       && s'.queues[k] == q.(shared := Queue.Fresh(q.shared, u, x, ValueFor(q.threads[u], values)),
                             threads := q.threads[u := WithNode(q.threads[u], x, values)])
  }

  /** A producer links its private chain, or puts it into the queue. */
  ghost predicate Produces(s: State, k: nat, u: nat, a: Queue.Action, s': State) {
    && !a.Begin? && !a.Allocate? && k < |s.queues| == |s'.queues| && Others(s, k, s')
    && Queue.ProducerStep(s.queues[k], u, a, s'.queues[k])
    && s'.value == s.value && s'.pool == s.pool.(shared := s.pool.shared.(next := s'.queues[k].shared.next))
  }

  ghost predicate Consumes(s: State, k: nat, a: Queue.ReaderAction, s': State) {
    && !a.GiveBack? && k < |s.queues| == |s'.queues| && Others(s, k, s')
    && Queue.ConsumerStep(s.queues[k], a, s'.queues[k]) && s'.value == s.value && s'.pool == s.pool
  }

  /** The consumer of queue k, as thread t of the pool, deallocates the node it passed. */
  ghost predicate GivesBack(c: nat, s: State, k: nat, t: nat, s': State) {
    && k < |s.queues| == |s'.queues| && Others(s, k, s') && s'.value == s.value
    && t < |s.pool.threads| == |s'.pool.threads| && s.queues[k].reader.Passed?
    && s'.pool.threads == s.pool.threads[t := s'.pool.threads[t]]
    && Pool.Returns(c, s.pool.shared, t, s.pool.threads[t], s.queues[k].reader.node,
                    s'.pool.shared, s'.pool.threads[t])
    && Queue.ConsumerStep(s.queues[k], Queue.GiveBack(s.pool.threads[t].head), s'.queues[k])
  }

  /** A queue of n producers whose dummy is node x. */
  function NewQueue(next: seq<Option<nat>>, value: seq<Value>, x: nat, n: nat): Queue.State {
    var owner := seq<Queue.Owner>(|next|, (y: nat) => if y == x then Queue.Queued(0) else Queue.Pool);
    Queue.State(Queue.Shared(next, value, x, x, owner, [x], 0, [], []), Queue.Waiting,
                seq<Queue.Local>(n, (t: nat) => Queue.Idle))
  }

  /** The constructor of a queue allocates its dummy. */
  ghost predicate Creates(c: nat, s: State, t: nat, x: nat, n: nat, s': State) {
    && Takes(c, s, t, x, s') && Others(s, |s.queues|, s') && |s'.queues| == |s.queues| + 1
    && s'.queues[|s.queues|] == NewQueue(Next(s'), s'.value, x, n)
  }

  ghost predicate Step(c: nat, s: State, s': State) {
    || (exists t: nat, a :: PoolWorks(c, s, t, a, s'))
    || (exists t: nat, k: nat, u: nat, x: nat, values :: Allocates(c, s, t, k, u, x, values, s'))
    || (exists k: nat, u: nat, a :: Produces(s, k, u, a, s'))
    || (exists k: nat, a :: Consumes(s, k, a, s'))
    || (exists k: nat, t: nat :: GivesBack(c, s, k, t, s'))
    || (exists t: nat, x: nat, n: nat :: Creates(c, s, t, x, n, s'))
  }

  ghost function Protocol(c: nat): Runs.System<State> {
    Runs.System(s => Init(c, s), (s, s') => Step(c, s, s'))
  }

  ghost predicate IsRun(c: nat, run: seq<State>) {
    Runs.IsRun(Protocol(c), run)
  }

  // ---- the invariant ----

  /** Queue j has the node in its chain or in its hands. */
  predicate Uses(s: State, j: nat, x: nat) {
    j < |s.queues| && x < |s.queues[j].shared.owner| && s.queues[j].shared.owner[x] != Queue.Pool
  }

  ghost predicate QueueAt(s: State, j: nat) {
    j < |s.queues| ==>
      && Queue.Inv(s.queues[j]) && s.queues[j].shared.next == Next(s) && s.queues[j].shared.value == s.value
  }

  predicate InUse(s: State, x: nat) {
    x < |s.pool.shared.owner| && s.pool.shared.owner[x] == Pool.InUse
  }

  /** The pool knows which nodes are in use. */
  ghost predicate UserAt(s: State, x: nat) {
    InUse(s, x) <==> exists j :: Uses(s, j, x)
  }

  ghost predicate OneUser(s: State, j: nat, k: nat, x: nat) {
    Uses(s, j, x) && Uses(s, k, x) ==> j == k
  }

  ghost predicate Inv(c: nat, s: State) {
    && PoolInvariant.Inv(c, s.pool) && |s.value| == |Next(s)|
    && (forall j :: QueueAt(s, j)) && (forall x :: UserAt(s, x)) && (forall j, k, x :: OneUser(s, j, k, x))
  }

  // ---- the memory changes only where its owner writes ----

  predicate SameNode(s: State, x: nat, s': State) {
    x < |Next(s)| <= |Next(s')| && x < |s.value| <= |s'.value| ==>
      Next(s')[x] == Next(s)[x] && s'.value[x] == s.value[x]
  }

  /** A step leaves alone the nodes that others than queue k have. */
  ghost predicate Careful(s: State, k: nat, s': State) {
    && |Next(s)| <= |Next(s')| && |s'.value| == |Next(s')|
    && forall j, x :: Uses(s, j, x) && j != k ==> SameNode(s, x, s')
  }

  /** Then, for any other queue, it is nothing but the pool at work. */
  lemma OtherKept(c: nat, s: State, k: nat, s': State, j: nat)
    requires Inv(c, s) && Others(s, k, s') && Careful(s, k, s') && j < |s.queues| && j != k
    ensures Queue.PoolStep(s.queues[j], s'.queues[j]) && QueueAt(s', j)
    ensures forall x :: Uses(s', j, x) <==> Uses(s, j, x)
  {
    assert QueueAt(s, j);
    var g, g' := s.queues[j].shared, s'.queues[j].shared;
    forall x | 0 <= x < |g.owner| && g.owner[x] != Queue.Pool
      ensures g'.next[x] == g.next[x] && g'.value[x] == g.value[x]
    {
      assert Uses(s, j, x);
    }
    assert Queue.PoolActs(g, g');
    Queue.PoolKeeps(s.queues[j], s'.queues[j]);
  }

  predicate SameUse(s: State, k: nat, s': State, x: nat) {
    (InUse(s', x) <==> InUse(s, x)) && (Uses(s', k, x) <==> Uses(s, k, x))
  }

  /** Node x is as before, or queue k took it, or queue k gave it back. */
  predicate UseChange(s: State, k: nat, s': State, x: nat) {
    || SameUse(s, k, s', x)
    || (!InUse(s, x) && InUse(s', x) && Uses(s', k, x))
    || (InUse(s, x) && !InUse(s', x) && Uses(s, k, x) && !Uses(s', k, x))
  }

  /** Every queue takes a step of its own protocol; for a bystander it is one of the pool. */
  ghost predicate QueuesStep(s: State, s': State) {
    |s.queues| <= |s'.queues| && forall j :: 0 <= j < |s.queues| ==> Queue.Step(s.queues[j], s'.queues[j])
  }

  /** What is left to show of a step in which at most queue k and the pool take part. */
  lemma Together(c: nat, s: State, k: nat, s': State)
    requires Inv(c, s) && Others(s, k, s') && Careful(s, k, s') && PoolInvariant.Inv(c, s'.pool)
    requires |s'.queues| == |s.queues| || (k == |s.queues| && |s'.queues| == |s.queues| + 1)
    requires QueueAt(s', k) && forall x: nat :: UseChange(s, k, s', x)
    requires k < |s.queues| ==> Queue.Step(s.queues[k], s'.queues[k])
    ensures Inv(c, s') && QueuesStep(s, s')
  {
    forall j: nat ensures QueueAt(s', j) && (j < |s.queues| ==> Queue.Step(s.queues[j], s'.queues[j])) {
      if j < |s.queues| && j != k {
        OtherKept(c, s, k, s', j);
      }
    }
    forall j: nat, x: nat | j != k ensures Uses(s', j, x) <==> Uses(s, j, x) {
      if j < |s.queues| {
        OtherKept(c, s, k, s', j);
      }
    }
    forall j: nat, l: nat, x: nat ensures OneUser(s', j, l, x) {
      assert UseChange(s, k, s', x) && OneUser(s, j, l, x) && UserAt(s, x);
    }
    forall x: nat ensures UserAt(s', x) {
      UsersAgree(s, k, s', x);
    }
  }

  lemma UsersAgree(s: State, k: nat, s': State, x: nat)
    requires UseChange(s, k, s', x) && UserAt(s, x) && forall j :: OneUser(s, j, k, x)
    requires forall j: nat :: j != k ==> (Uses(s', j, x) <==> Uses(s, j, x))
    ensures UserAt(s', x)
  {
    if j :| Uses(s, j, x) {
      assert j != k ==> Uses(s', j, x);
      assert OneUser(s, j, k, x);
    }
    if j :| Uses(s', j, x) {
      assert j != k ==> Uses(s, j, x) && OneUser(s, j, k, x);
    }
  }

  // ---- the pool works ----

  lemma OnlyTakeUses(c: nat, g: Pool.Shared, t: nat, l: Pool.Local, a: Pool.Action, g': Pool.Shared, l': Pool.Local,
                     x: nat)
    requires Pool.Move(c, g, t, l, a, g', l') && Pool.Sized(g) && !a.Take? && !a.Deallocate?
    requires x < |g'.owner| && g'.owner[x] == Pool.InUse
    ensures x < |g.owner| && g.owner[x] == Pool.InUse
  {
    if a.MakeChunk? && x < |g.owner| {
      assert g'.owner[..|g.owner|][x] == g'.owner[x];
    }
  }

  lemma GarbledIsFree(c: nat, s: State, t: nat, a: Pool.Action, x: nat)
    requires Inv(c, s) && t < |s.pool.threads|
    ensures Garbles(s, t, a, x) ==> !InUse(s, x)
  {
    var g, pc := s.pool.shared, s.pool.threads[t].pc;
    assert PoolInvariant.LocalOk(c, g, t, s.pool.threads[t]);
    if Garbles(s, t, a, x) {
      assert PoolInvariant.ListAt(g, pc.hand, |g.lists[pc.hand]| - 1);
    }
  }

  lemma PoolWorksCarefully(c: nat, s: State, t: nat, a: Pool.Action, s': State, x: nat)
    requires Inv(c, s) && PoolWorks(c, s, t, a, s') && InUse(s, x)
    ensures SameNode(s, x, s') && InUse(s', x)
  {
    var g, l := s.pool.shared, s.pool.threads[t];
    assert PoolInvariant.LocalOk(c, g, t, l);
    PoolSafety.UserNodeUntouched(c, g, t, l, a, s'.pool.shared, s'.pool.threads[t], x);
    GarbledIsFree(c, s, t, a, x);
  }

  lemma PoolWorksKeeps(c: nat, s: State, t: nat, a: Pool.Action, s': State)
    requires Inv(c, s) && PoolWorks(c, s, t, a, s')
    ensures Inv(c, s') && QueuesStep(s, s')
  {
    PoolSafety.StepKeeps(c, s.pool, t, a, s'.pool);
    assert PoolInvariant.LocalOk(c, s.pool.shared, t, s.pool.threads[t]);
    forall j: nat, x: nat | Uses(s, j, x) ensures SameNode(s, x, s') {
      assert UserAt(s, x);
      PoolWorksCarefully(c, s, t, a, s', x);
    }
    forall x: nat ensures UseChange(s, |s.queues|, s', x) {
      if InUse(s, x) {
        PoolWorksCarefully(c, s, t, a, s', x);
      }
      if InUse(s', x) {
        OnlyTakeUses(c, s.pool.shared, t, s.pool.threads[t], a, s'.pool.shared, s'.pool.threads[t], x);
      }
    }
    Together(c, s, |s.queues|, s');
  }

  // ---- a node is allocated ----

  /** What an allocation leaves: a node that nobody had is in use, with a null link. */
  lemma TakesKeepsPool(c: nat, s: State, t: nat, x: nat, s': State)
    requires Inv(c, s) && Takes(c, s, t, x, s')
    ensures PoolInvariant.Inv(c, s'.pool) && x < |Next(s)| && Next(s') == Next(s)[x := None]
    ensures !InUse(s, x) && InUse(s', x) && forall y: nat :: y != x ==> (InUse(s', y) <==> InUse(s, y))
  {
    var mid, l := Unfilled(s, s'), s.pool.threads[t];
    assert PoolInvariant.LocalOk(c, s.pool.shared, t, l);
    assert PoolInvariant.ListAt(s.pool.shared, l.list, l.size - 1);
    PoolSafety.StepKeeps(c, s.pool, t, Pool.Take, mid);
    var link := s'.pool.shared.link;
    forall y: nat | y < |link| && y != x ensures link[y] == mid.shared.link[y] {
      assert SameLink(s, y, s');
    }
    assert link == mid.shared.link[x := link[x]];
    assert mid.shared.next == mid.shared.next[x := mid.shared.next[x]];
    assert Pool.UserWrites(mid, x, mid.shared.next[x], link[x], s'.pool);
    PoolSafety.UserKeeps(c, mid, x, mid.shared.next[x], link[x], s'.pool);
  }

  lemma FreeForQueue(c: nat, s: State, k: nat, x: nat)
    requires Inv(c, s) && k < |s.queues| && !InUse(s, x) && x < |Next(s)|
    ensures Queue.Sized(s.queues[k].shared) && x < |s.queues[k].shared.owner|
    ensures s.queues[k].shared.owner[x] == Queue.Pool
  {
    assert QueueAt(s, k) && UserAt(s, x);
    assert s.queues[k].shared.owner[x] != Queue.Pool ==> Uses(s, k, x);
  }

  lemma QueueKept(c: nat, s: State, k: nat, s': State)
    requires Inv(c, s) && k < |s.queues| == |s'.queues| && Queue.Step(s.queues[k], s'.queues[k])
    ensures Queue.Inv(s.queues[k]) && Queue.Inv(s'.queues[k])
    ensures s.queues[k].shared.next == Next(s) && s.queues[k].shared.value == s.value
  {
    assert QueueAt(s, k);
    Queue.StepKeeps(s.queues[k], s'.queues[k]);
  }

  /** What the linked queue asks of its allocator holds. */
  lemma AllocationIsSound(c: nat, s: State, t: nat, k: nat, u: nat, x: nat, values: seq<Value>, s': State)
    requires Inv(c, s) && Allocates(c, s, t, k, u, x, values, s')
    ensures var l := s.queues[k].threads[u];
            Queue.ProducerStep(s.queues[k], u, if l.Idle? then Queue.Begin(x, values) else Queue.Allocate(x),
                               s'.queues[k])
  {
    TakesKeepsPool(c, s, t, x, s');
    FreeForQueue(c, s, k, x);
  }

  lemma AllocatesKeeps(c: nat, s: State, t: nat, k: nat, u: nat, x: nat, values: seq<Value>, s': State)
    requires Inv(c, s) && Allocates(c, s, t, k, u, x, values, s')
    ensures Inv(c, s') && QueuesStep(s, s')
  {
    TakesKeepsPool(c, s, t, x, s');
    FreeForQueue(c, s, k, x);
    AllocationIsSound(c, s, t, k, u, x, values, s');
    QueueKept(c, s, k, s');
    assert QueueAt(s', k);
    forall j: nat, y: nat | Uses(s, j, y) && j != k ensures SameNode(s, y, s') {
      assert UserAt(s, y);
    }
    forall y: nat ensures UseChange(s, k, s', y) {
    }
    Together(c, s, k, s');
  }

  lemma NewQueueHolds(next: seq<Option<nat>>, value: seq<Value>, x: nat, n: nat)
    requires |next| == |value| && x < |next| && next[x] == None
    ensures Queue.Inv(NewQueue(next, value, x, n))
    ensures forall y: nat :: y < |next| ==> (NewQueue(next, value, x, n).shared.owner[y] != Queue.Pool <==> y == x)
  {
    Queue.InitHolds(NewQueue(next, value, x, n));
  }

  lemma CreatesKeeps(c: nat, s: State, t: nat, x: nat, n: nat, s': State)
    requires Inv(c, s) && Creates(c, s, t, x, n, s')
    ensures Inv(c, s') && QueuesStep(s, s')
  {
    var k := |s.queues|;
    TakesKeepsPool(c, s, t, x, s');
    NewQueueHolds(Next(s'), s'.value, x, n);
    forall j: nat, y: nat | Uses(s, j, y) && j != k ensures SameNode(s, y, s') {
      assert UserAt(s, y);
    }
    forall y: nat ensures UseChange(s, k, s', y) {
    }
    Together(c, s, k, s');
  }

  // ---- a producer or a consumer takes a step of its own ----

  /** A producer writes only links of nodes that its queue has. */
  lemma ProducerWritesOwn(q: Queue.State, u: nat, a: Queue.Action, q': Queue.State, x: nat)
    requires Queue.Inv(q) && Queue.ProducerStep(q, u, a, q') && !a.Begin? && !a.Allocate? && x < |q.shared.next|
    ensures Queue.Sized(q'.shared) && |q'.shared.next| == |q.shared.next| && q'.shared.value == q.shared.value
    ensures q.shared.owner[x] == Queue.Pool <==> q'.shared.owner[x] == Queue.Pool
    ensures q.shared.owner[x] == Queue.Pool ==> q'.shared.next[x] == q.shared.next[x]
  {
    var g, l := q.shared, q.threads[u];
    assert Queue.LocalOk(g, u, l);
    match a
    case Append => assert Queue.PrivateAt(g, u, l.nodes, l.values, |l.nodes| - 1);
    case Link => assert Queue.ChainAt(g, l.k - g.passed);
    case Exchange =>
      if x in l.nodes {
        var i :| 0 <= i < |l.nodes| && l.nodes[i] == x;
        assert Queue.PrivateAt(g, u, l.nodes, l.values, i);
        assert q'.shared.owner[l.nodes[i]] == Queue.Queued(g.passed + |g.chain| + i);
      }
  }

  /** What the pool asks of its users holds: the node whose link is written is in use. */
  lemma WritesAreSound(c: nat, s: State, k: nat, u: nat, a: Queue.Action, s': State, x: nat)
    requires Inv(c, s) && Produces(s, k, u, a, s') && x < |Next(s)|
    ensures |Next(s')| == |Next(s)| && (Next(s')[x] != Next(s)[x] ==> InUse(s, x))
    ensures Uses(s', k, x) <==> Uses(s, k, x)
  {
    assert QueueAt(s, k) && UserAt(s, x);
    ProducerWritesOwn(s.queues[k], u, a, s'.queues[k], x);
    assert s.queues[k].shared.owner[x] != Queue.Pool ==> Uses(s, k, x);
  }

  lemma ProducesIsAUserWrite(c: nat, s: State, k: nat, u: nat, a: Queue.Action, s': State)
    requires Inv(c, s) && Produces(s, k, u, a, s') && s'.pool != s.pool
    ensures exists x: nat, next, link :: Pool.UserWrites(s.pool, x, next, link, s'.pool)
  {
    var q, q' := s.queues[k], s'.queues[k];
    QueueKept(c, s, k, s');
    assert !a.Exchange?;
    var l := q.threads[u];
    var x := if a.Append? then l.nodes[|l.nodes| - 1] else l.prev;
    WritesAreSound(c, s, k, u, a, s', x);
    var next := q'.shared.next[x];
    assert q'.shared.next == q.shared.next[x := next];
    assert Next(s')[x] != Next(s)[x] by {
      assert q.shared.next[x := q.shared.next[x]] == q.shared.next;
    }
    var link := s.pool.shared.link;
    assert link == link[x := link[x]];
    assert Pool.UserWrites(s.pool, x, next, link[x], s'.pool);
  }

  lemma ProducesKeeps(c: nat, s: State, k: nat, u: nat, a: Queue.Action, s': State)
    requires Inv(c, s) && Produces(s, k, u, a, s')
    ensures Inv(c, s') && QueuesStep(s, s')
  {
    QueueKept(c, s, k, s');
    assert QueueAt(s, k) && QueueAt(s', k);
    if s'.pool != s.pool {
      ProducesIsAUserWrite(c, s, k, u, a, s');
      var x: nat, next, link :| Pool.UserWrites(s.pool, x, next, link, s'.pool);
      PoolSafety.UserKeeps(c, s.pool, x, next, link, s'.pool);
    }
    forall j: nat, y: nat | Uses(s, j, y) && j != k ensures SameNode(s, y, s') {
      OnlyItsUser(c, s, k, u, a, s', j, y);
    }
    forall y: nat ensures UseChange(s, k, s', y) {
      if y < |Next(s)| {
        WritesAreSound(c, s, k, u, a, s', y);
      }
    }
    Together(c, s, k, s');
  }

  lemma OnlyItsUser(c: nat, s: State, k: nat, u: nat, a: Queue.Action, s': State, j: nat, y: nat)
    requires Inv(c, s) && Produces(s, k, u, a, s') && Uses(s, j, y) && j != k
    ensures SameNode(s, y, s')
  {
    assert QueueAt(s, j) && QueueAt(s, k) && OneUser(s, j, k, y);
    ProducerWritesOwn(s.queues[k], u, a, s'.queues[k], y);
  }

  lemma ConsumesKeeps(c: nat, s: State, k: nat, a: Queue.ReaderAction, s': State)
    requires Inv(c, s) && Consumes(s, k, a, s')
    ensures Inv(c, s') && QueuesStep(s, s')
  {
    QueueKept(c, s, k, s');
    var g, g' := s.queues[k].shared, s'.queues[k].shared;
    assert Queue.ChainAt(g, 0) && QueueAt(s', k);
    forall y: nat ensures UseChange(s, k, s', y) {
    }
    Together(c, s, k, s');
  }

  // ---- a node is given back ----

  /** What the pool asks of a deallocation holds: the node is in use, by the queue that gives it back. */
  lemma DeallocationIsSound(c: nat, s: State, k: nat, t: nat, s': State)
    requires Inv(c, s) && GivesBack(c, s, k, t, s')
    ensures InUse(s, s.queues[k].reader.node) && Uses(s, k, s.queues[k].reader.node)
    ensures Pool.StepOf(c, s.pool, t, Pool.Deallocate(s.queues[k].reader.node), s'.pool)
  {
    var x := s.queues[k].reader.node;
    assert QueueAt(s, k);
    assert Uses(s, k, x) && UserAt(s, x);
  }

  lemma GivesBackWrites(c: nat, s: State, k: nat, t: nat, s': State)
    requires Inv(c, s) && GivesBack(c, s, k, t, s')
    ensures var x := s.queues[k].reader.node;
            && x < |Next(s)| && Next(s') == Next(s)[x := s.pool.threads[t].head] && !InUse(s', x)
            && forall y: nat :: y != x ==> (InUse(s', y) <==> InUse(s, y))
  {
  }

  lemma GivesBackKeeps(c: nat, s: State, k: nat, t: nat, s': State)
    requires Inv(c, s) && GivesBack(c, s, k, t, s')
    ensures Inv(c, s') && QueuesStep(s, s')
  {
    var x := s.queues[k].reader.node;
    DeallocationIsSound(c, s, k, t, s');
    GivesBackWrites(c, s, k, t, s');
    PoolSafety.StepKeeps(c, s.pool, t, Pool.Deallocate(x), s'.pool);
    QueueKept(c, s, k, s');
    assert QueueAt(s', k);
    forall j: nat, y: nat | Uses(s, j, y) && j != k ensures SameNode(s, y, s') {
      assert OneUser(s, j, k, y);
    }
    forall y: nat ensures UseChange(s, k, s', y) {
    }
    Together(c, s, k, s');
  }

  // ---- every run ----

  lemma InitHolds(c: nat, s: State)
    requires Init(c, s)
    ensures Inv(c, s)
  {
    PoolSafety.InitHolds(c, s.pool);
  }

  lemma StepKeeps(c: nat, s: State, s': State)
    requires Inv(c, s) && Step(c, s, s')
    ensures Inv(c, s') && QueuesStep(s, s')
  {
    if t: nat, a :| PoolWorks(c, s, t, a, s') {
      PoolWorksKeeps(c, s, t, a, s');
    } else if t: nat, k: nat, u: nat, x: nat, values :| Allocates(c, s, t, k, u, x, values, s') {
      AllocatesKeeps(c, s, t, k, u, x, values, s');
    } else if k: nat, u: nat, a :| Produces(s, k, u, a, s') {
      ProducesKeeps(c, s, k, u, a, s');
    } else if k: nat, a :| Consumes(s, k, a, s') {
      ConsumesKeeps(c, s, k, a, s');
    } else if k: nat, t: nat :| GivesBack(c, s, k, t, s') {
      GivesBackKeeps(c, s, k, t, s');
    } else {
      var t: nat, x: nat, n: nat :| Creates(c, s, t, x, n, s');
      CreatesKeeps(c, s, t, x, n, s');
    }
  }

  lemma EveryStateOk(c: nat, run: seq<State>, i: nat)
    requires IsRun(c, run) && i < |run|
    ensures Inv(c, run[i])
  {
    forall s | Init(c, s) ensures Inv(c, s) {
      InitHolds(c, s);
    }
    forall s, s' | Inv(c, s) && Step(c, s, s') ensures Inv(c, s') {
      StepKeeps(c, s, s');
    }
    Runs.Invariant(Protocol(c), s => Inv(c, s), run, i);
  }

  // ---- what the queues and their pool promise together ----

  lemma StateAndStep(c: nat, run: seq<State>, i: nat)
    requires IsRun(c, run) && i + 1 < |run|
    ensures Inv(c, run[i]) && Inv(c, run[i + 1]) && QueuesStep(run[i], run[i + 1])
  {
    EveryStateOk(c, run, i);
    EveryStateOk(c, run, i + 1);
    assert Protocol(c).next(run[i], run[i + 1]);
    StepKeeps(c, run[i], run[i + 1]);
  }

  /** Every queue on the shared pool is a mailbox, whatever the other queues and the pool do: what each
      of the two protocols assumes of the other holds. */
  lemma EveryQueueIsAMailbox(c: nat, run: seq<State>, i: nat, j: nat)
    requires IsRun(c, run) && i + 1 < |run| && j < |run[i].queues|
    ensures j < |run[i + 1].queues| && Queue.Inv(run[i].queues[j]) && Queue.Inv(run[i + 1].queues[j])
    ensures Queue.Step(run[i].queues[j], run[i + 1].queues[j])
    ensures Mailbox.Next(Queue.Abs(run[i].queues[j].shared), Queue.Abs(run[i + 1].queues[j].shared))
    ensures run[i].queues[j].shared.taken <= run[i].queues[j].shared.claims
  {
    StateAndStep(c, run, i);
    assert QueueAt(run[i], j) && QueueAt(run[i + 1], j);
    Queue.StepRefines(run[i].queues[j], run[i + 1].queues[j]);
  }

  // ---- every node is in one place ----

  datatype Place =
    | InChain(queue: nat, pos: nat)
    | WithProducer(queue: nat, t: nat, pos: nat)
    | WithConsumer(queue: nat)
    | OnStack(height: nat, pos: nat)     // in a chunk on the pool's stack
    | InList(t: nat, pos: nat)           // in a thread's free list
    | InHand(t: nat, pos: nat)           // in a chunk that a thread is pushing

  ghost predicate At(s: State, x: nat, p: Place) {
    match p
    case InChain(j, i) =>
      j < |s.queues| && i < |s.queues[j].shared.chain| && s.queues[j].shared.chain[i] == x
    case WithProducer(j, t, i) =>
      && j < |s.queues| && t < |s.queues[j].threads|
      && i < |Queue.InHands(s.queues[j].threads[t])| && Queue.InHands(s.queues[j].threads[t])[i] == x
    case WithConsumer(j) => j < |s.queues| && s.queues[j].reader == Queue.Passed(x)
    case OnStack(h, i) =>
      h < |s.pool.shared.stack| && PoolSafety.Holds(s.pool.shared, s.pool.shared.stack[h], i, x)
    case InList(t, i) =>
      t < |s.pool.threads| && PoolSafety.Holds(s.pool.shared, s.pool.threads[t].list, i, x)
    case InHand(t, i) =>
      && t < |s.pool.threads| && PoolInvariant.Pushing(s.pool.threads[t].pc)
      && PoolSafety.Holds(s.pool.shared, s.pool.threads[t].pc.hand, i, x)
  }

  predicate OfQueue(p: Place) {
    p.InChain? || p.WithProducer? || p.WithConsumer?
  }

  /** What the owner that a queue has on record for a node says about its place. */
  ghost predicate Says(s: State, p: Place, owner: Queue.Owner)
    requires OfQueue(p) && p.queue < |s.queues|
  {
    match p
    case InChain(j, i) => owner == Queue.Queued(s.queues[j].shared.passed + i)
    case WithProducer(j, t, i) => owner == Queue.Producer(t)
    case WithConsumer(j) => owner == Queue.Consumer
  }

  lemma QueuePlace(c: nat, s: State, x: nat, p: Place)
    requires Inv(c, s) && At(s, x, p) && OfQueue(p)
    ensures Uses(s, p.queue, x) && Says(s, p, s.queues[p.queue].shared.owner[x])
  {
    var q := s.queues[p.queue];
    assert QueueAt(s, p.queue);
    match p
    case InChain(j, i) => assert Queue.ChainAt(q.shared, i);
    case WithProducer(j, t, i) =>
      assert Queue.LocalOk(q.shared, t, q.threads[t]);
      assert Queue.PrivateAt(q.shared, t, q.threads[t].nodes, q.threads[t].values, i);
    case WithConsumer(j) =>
  }

  lemma HandsAreDistinct(c: nat, s: State, j: nat, t: nat, i: nat, k: nat)
    requires Inv(c, s) && j < |s.queues| && t < |s.queues[j].threads|
    requires var h := Queue.InHands(s.queues[j].threads[t]); i < |h| && k < |h| && h[i] == h[k]
    ensures i == k
  {
    assert QueueAt(s, j);
    assert Queue.LocalOk(s.queues[j].shared, t, s.queues[j].threads[t]);
  }

  lemma OneQueuePlace(c: nat, s: State, x: nat, p: Place, r: Place)
    requires Inv(c, s) && At(s, x, p) && At(s, x, r) && OfQueue(p) && OfQueue(r)
    ensures p == r
  {
    QueuePlace(c, s, x, p);
    QueuePlace(c, s, x, r);
    assert OneUser(s, p.queue, r.queue, x);
    if p.WithProducer? {
      HandsAreDistinct(c, s, p.queue, p.t, p.pos, r.pos);
    }
  }

  function Home(p: Place): Pool.Where
    requires !OfQueue(p)
  {
    match p
    case OnStack(h, _) => Pool.Stacked(h)
    case InList(t, _) => Pool.LocalOf(t)
    case InHand(t, _) => Pool.HandOf(t)
  }

  lemma PoolPlace(c: nat, s: State, x: nat, p: Place) returns (l: nat)
    requires Inv(c, s) && At(s, x, p) && !OfQueue(p)
    ensures x < |s.pool.shared.owner| && s.pool.shared.owner[x] == Pool.In(l, p.pos)
    ensures l < |s.pool.shared.places| && s.pool.shared.places[l] == Home(p)
  {
    var g := s.pool.shared;
    match p
    case OnStack(h, i) =>
      l := g.stack[h];
      assert PoolInvariant.StackedAt(c, g, h) && PoolInvariant.ListAt(g, l, i);
    case InList(t, i) =>
      l := s.pool.threads[t].list;
      assert PoolInvariant.LocalOk(c, g, t, s.pool.threads[t]) && PoolInvariant.ListAt(g, l, i);
    case InHand(t, i) =>
      l := s.pool.threads[t].pc.hand;
      assert PoolInvariant.LocalOk(c, g, t, s.pool.threads[t]) && PoolInvariant.ListAt(g, l, i);
  }

  lemma OnePlace(c: nat, s: State, x: nat, p: Place, r: Place)
    requires Inv(c, s) && At(s, x, p) && At(s, x, r)
    ensures p == r
  {
    assert UserAt(s, x);
    if OfQueue(p) && OfQueue(r) {
      OneQueuePlace(c, s, x, p, r);
    } else if !OfQueue(p) && !OfQueue(r) {
      var l := PoolPlace(c, s, x, p);
      var k := PoolPlace(c, s, x, r);
    } else {
      var l := PoolPlace(c, s, x, if OfQueue(p) then r else p);
      QueuePlace(c, s, x, if OfQueue(p) then p else r);
    }
  }

  lemma UsedHasPlace(c: nat, s: State, j: nat, x: nat) returns (p: Place)
    requires Inv(c, s) && Uses(s, j, x)
    ensures At(s, x, p)
  {
    var q := s.queues[j];
    assert QueueAt(s, j);
    assert Queue.QueuedAt(q.shared, x) && Queue.HandAt(q, x);
    match q.shared.owner[x]
    case Queued(k) => p := InChain(j, k - q.shared.passed);
    case Producer(t) =>
      var i :| 0 <= i < |Queue.InHands(q.threads[t])| && Queue.InHands(q.threads[t])[i] == x;
      p := WithProducer(j, t, i);
    case Consumer => p := WithConsumer(j);
  }

  lemma FreeHasPlace(c: nat, s: State, x: nat) returns (p: Place)
    requires Inv(c, s) && x < |Next(s)| && !InUse(s, x)
    ensures At(s, x, p)
  {
    var g := s.pool.shared;
    assert PoolInvariant.OwnerAt(g, x);
    var l, i := g.owner[x].list, g.owner[x].pos;
    assert PoolInvariant.HomeAt(s.pool, l);
    match g.places[l]
    case Stacked(h) => p := OnStack(h, i);
    case LocalOf(t) => p := InList(t, i);
    case HandOf(t) => p := InHand(t, i);
    case Gone => assert false;
  }

  /** Every node ever reserved is in exactly one place: at one position of one queue's chain, with one of
      its producers, with its consumer, in one chunk on the stack, in one thread's free list, or in a
      chunk in one thread's hands. */
  lemma EveryNodeHasOnePlace(c: nat, run: seq<State>, i: nat, x: nat)
    requires IsRun(c, run) && i < |run| && x < |Next(run[i])|
    ensures exists p :: At(run[i], x, p)
    ensures forall p, r :: At(run[i], x, p) && At(run[i], x, r) ==> p == r
  {
    var s := run[i];
    EveryStateOk(c, run, i);
    assert UserAt(s, x);
    if InUse(s, x) {
      var j :| Uses(s, j, x);
      var p := UsedHasPlace(c, s, j, x);
    } else {
      var p := FreeHasPlace(c, s, x);
    }
    forall p, r | At(s, x, p) && At(s, x, r) ensures p == r {
      OnePlace(c, s, x, p, r);
    }
  }
}
