/** The linked MPSC queue: producers exchange the head and then link their nodes in; one consumer
    follows the links and gives passed nodes back to the pool, which recycles them. */
module LinkedQueue {
  import opened Counting
  import opened LinkedMemory
  import Mailbox
  import opened Numbers
  import opened Options
  import Runs

  type Value = nat

  /** Whose a node is; nodes in the queue are numbered in the order of the exchanges. */
  datatype Owner = Pool | Producer(t: nat) | Queued(k: nat) | Consumer

  /** A producer inside emplace or enqueue_bulk. */
  datatype Local =
    | Idle
    // values is what the caller passed; one value for emplace
    | Built(nodes: seq<nat>, values: seq<Value>)                // private chain, linked up to its last node
    | Extending(nodes: seq<nat>, node: nat, values: seq<Value>) // one more node, not linked to the chain yet
    | Exchanged(k: nat, prev: nat, first: nat) // head exchanged; node number k still has to be linked to first

  datatype Reader =
    | Waiting
    | Saw(node: nat)
    | Took(node: nat)
    | Passed(node: nat)                       // tail moved, the old tail not yet given back

  datatype Shared = Shared(
    next: seq<Option<nat>>,
    value: seq<Value>,
    head: nat,
    tail: nat,
    // history
    owner: seq<Owner>,
    chain: seq<nat>,                          // the nodes from the tail to the head
    passed: nat,                              // nodes the tail has passed
    claims: seq<Value>,
    taken: seq<Value>
  )

  datatype State = State(shared: Shared, reader: Reader, threads: seq<Local>)

  datatype Action = Begin(node: nat, values: seq<Value>) | Allocate(node: nat) | Append | Exchange | Link

  datatype ReaderAction = Look | Take | Advance | GiveBack(link: Option<nat>)

  ghost predicate Init(s: State) {
    var g := s.shared;
    && |g.next| == |g.value| == |g.owner| && g.head == g.tail < |g.next| && g.next[g.tail] == None
    && g.chain == [g.tail] && g.passed == 0 && g.claims == [] && g.taken == []
    && (forall x :: 0 <= x < |g.owner| ==> g.owner[x] == if x == g.tail then Queued(0) else Pool)
    && s.reader == Waiting
    && forall t :: 0 <= t < |s.threads| ==> s.threads[t] == Idle
  }

  ghost predicate Sized(g: Shared) {
    |g.next| == |g.value| == |g.owner| && |g.chain| > 0
  }

  /** A node fresh from the pool: its link is null and it carries the value. */
  function Fresh(g: Shared, t: nat, x: nat, v: Value): Shared
    requires Sized(g) && x < |g.next|
  {
    g.(next := g.next[x := None], value := g.value[x := v], owner := g.owner[x := Producer(t)])
  }

  function Values(g: Shared, nodes: seq<nat>): (r: seq<Value>)
    requires Sized(g) && forall i :: 0 <= i < |nodes| ==> nodes[i] < |g.value|
    ensures |r| == |nodes|
  {
    seq(|nodes|, i requires 0 <= i < |nodes| => g.value[nodes[i]])
  }

  ghost predicate Reserved(g: Shared, nodes: seq<nat>)
    requires Sized(g)
  {
    |nodes| > 0 && forall i :: 0 <= i < |nodes| ==> nodes[i] < |g.next|
  }

  /** The owners after the nodes joined the queue with numbers from k on. */
  ghost predicate Joined(owner: seq<Owner>, nodes: seq<nat>, k: nat, owner': seq<Owner>) {
    && |owner'| == |owner|
    && (forall i :: 0 <= i < |nodes| && nodes[i] < |owner| ==> owner'[nodes[i]] == Queued(k + i))
    && (forall x :: 0 <= x < |owner| && x !in nodes ==> owner'[x] == owner[x])
  }

  ghost predicate Move(g: Shared, t: nat, l: Local, a: Action, g': Shared, l': Local)
    requires Sized(g)
  {
    match a
    case Begin(x, values) =>
      && l.Idle? && |values| > 0 && x < |g.next| && g.owner[x] == Pool
      && g' == Fresh(g, t, x, values[0]) && l' == Built([x], values)
    case Allocate(x) =>
      && l.Built? && |l.nodes| < |l.values| && x < |g.next| && g.owner[x] == Pool
      && g' == Fresh(g, t, x, l.values[|l.nodes|]) && l' == Extending(l.nodes, x, l.values)
    case Append =>
      && l.Extending? && |l.nodes| > 0 && l.nodes[|l.nodes| - 1] < |g.next|
      && g' == g.(next := g.next[l.nodes[|l.nodes| - 1] := Some(l.node)])
      && l' == Built(l.nodes + [l.node], l.values)
    case Exchange =>
      && l.Built? && |l.nodes| == |l.values| && Reserved(g, l.nodes)
      && g' == g.(head := l.nodes[|l.nodes| - 1], chain := g.chain + l.nodes, owner := g'.owner,
                  claims := g.claims + Values(g, l.nodes))
      && Joined(g.owner, l.nodes, g.passed + |g.chain|, g'.owner)
      && l' == Exchanged(g.passed + |g.chain| - 1, g.head, l.nodes[0])
    case Link =>
      l.Exchanged? && l.prev < |g.next| && g' == g.(next := g.next[l.prev := Some(l.first)]) && l' == Idle
  }

  ghost predicate ReaderMove(g: Shared, k: Reader, a: ReaderAction, g': Shared, k': Reader)
    requires Sized(g)
  {
    match a
    case Look =>
      && k.Waiting? && g.tail < |g.next| && g' == g
      && k' == if g.next[g.tail] == None then Waiting else Saw(g.next[g.tail].value)
    case Take =>
      k.Saw? && k.node < |g.value| && g' == g.(taken := g.taken + [g.value[k.node]]) && k' == Took(k.node)
    case Advance =>
      && k.Took? && g.tail < |g.owner|
      && g' == g.(tail := k.node, chain := g.chain[1..], passed := g.passed + 1,
                  owner := g.owner[g.tail := Consumer])
      && k' == Passed(g.tail)
    case GiveBack(link) =>
      && k.Passed? && k.node < |g.next|
      && g' == g.(next := g.next[k.node := link], owner := g.owner[k.node := Pool])
      && k' == Waiting
  }

  /** The pool and its other users may write free nodes as they like, and reserve more. */
  ghost predicate PoolActs(g: Shared, g': Shared)
    requires Sized(g)
  {
    && Sized(g') && |g.next| <= |g'.next| && g.owner <= g'.owner
    && (forall x :: |g.owner| <= x < |g'.owner| ==> g'.owner[x] == Pool)
    && (forall x :: 0 <= x < |g.owner| && g.owner[x] != Pool ==>
          g'.next[x] == g.next[x] && g'.value[x] == g.value[x])
    && g' == g.(next := g'.next, value := g'.value, owner := g'.owner)
  }

  ghost predicate ProducerStep(s: State, t: nat, a: Action, s': State) {
    && Sized(s.shared) && t < |s.threads| == |s'.threads| && s'.reader == s.reader
    && s'.threads == s.threads[t := s'.threads[t]]
    && Move(s.shared, t, s.threads[t], a, s'.shared, s'.threads[t])
  }

  ghost predicate ConsumerStep(s: State, a: ReaderAction, s': State) {
    Sized(s.shared) && s'.threads == s.threads && ReaderMove(s.shared, s.reader, a, s'.shared, s'.reader)
  }

  ghost predicate PoolStep(s: State, s': State) {
    Sized(s.shared) && s' == s.(shared := s'.shared) && PoolActs(s.shared, s'.shared)
  }

  ghost predicate Step(s: State, s': State) {
    || (exists t: nat, a :: ProducerStep(s, t, a, s'))
    || (exists a :: ConsumerStep(s, a, s'))
    || PoolStep(s, s')
  }

  ghost function Protocol(): Runs.System<State> {
    Runs.System(s => Init(s), (s, s') => Step(s, s'))
  }

  ghost predicate IsRun(run: seq<State>) {
    Runs.IsRun(Protocol(), run)
  }

  // ---- the invariant ----

  /** Producers that still have to link node number k. */
  function LinkerOf(k: nat): Local -> int {
    (l: Local) => Bit(l.Exchanged? && l.k == k)
  }

  /** The i-th node of the chain: its number, its link, and the value it carries. */
  ghost predicate ChainAt(g: Shared, i: int)
    requires Sized(g)
  {
    0 <= i < |g.chain| ==>
      && g.chain[i] < |g.next|
      && g.owner[g.chain[i]] == Queued(g.passed + i)
      && (g.next[g.chain[i]] == None || (i + 1 < |g.chain| && g.next[g.chain[i]] == Some(g.chain[i + 1])))
      && (i > 0 && g.passed + i - 1 < |g.claims| ==> g.value[g.chain[i]] == g.claims[g.passed + i - 1])
  }

  /** Only nodes of the chain are queued. */
  ghost predicate QueuedAt(g: Shared, x: int)
    requires Sized(g)
  {
    0 <= x < |g.owner| && g.owner[x].Queued? ==>
      && g.passed <= g.owner[x].k < g.passed + |g.chain|
      && g.chain[g.owner[x].k - g.passed] == x
  }

  /** A node of the queue whose link is missing has exactly one producer that will write it. */
  ghost predicate LinkerAt(g: Shared, threads: seq<Local>, k: nat)
    requires Sized(g)
  {
    Sum(LinkerOf(k), threads) == Bit(MissingLink(g, k))
  }

  /** Node number k is followed by another one and does not point to it. */
  predicate MissingLink(g: Shared, k: nat)
    requires Sized(g)
  {
    && g.passed <= k < g.passed + |g.chain| - 1
    && g.chain[k - g.passed] < |g.next| && g.next[g.chain[k - g.passed]] == None
  }

  ghost predicate PrivateAt(g: Shared, t: nat, nodes: seq<nat>, values: seq<Value>, i: int)
    requires Sized(g)
  {
    0 <= i < |nodes| ==>
      && nodes[i] < |g.next| && g.owner[nodes[i]] == Producer(t)
      && i < |values| && g.value[nodes[i]] == values[i]
      && g.next[nodes[i]] == (if i + 1 < |nodes| then Some(nodes[i + 1]) else None)
  }

  ghost predicate LocalOk(g: Shared, t: nat, l: Local)
    requires Sized(g)
  {
    match l
    case Idle => true
    case Built(nodes, values) =>
      0 < |nodes| <= |values| && Distinct(nodes) && forall i :: PrivateAt(g, t, nodes, values, i)
    case Extending(nodes, x, values) =>
      && 0 < |nodes| < |values| && Distinct(nodes + [x]) && (forall i :: PrivateAt(g, t, nodes, values, i))
      && x < |g.value| && g.value[x] == values[|nodes|]
      && x < |g.next| && g.owner[x] == Producer(t) && g.next[x] == None
    case Exchanged(k, prev, first) =>
      && g.passed <= k < g.passed + |g.chain| - 1
      && g.chain[k - g.passed] == prev && g.chain[k - g.passed + 1] == first
      && prev < |g.next| && g.next[prev] == None
  }

  ghost predicate ReaderOk(g: Shared, k: Reader)
    requires Sized(g)
  {
    && (k.Saw? || k.Took? ==> g.tail < |g.next| && g.next[g.tail] == Some(k.node))
    && (k.Passed? ==> k.node < |g.owner| && g.owner[k.node] == Consumer)
    && g.passed + Bit(k.Took?) <= |g.claims|
    && g.taken == g.claims[..g.passed + Bit(k.Took?)]
  }

  ghost predicate EndsOk(g: Shared)
    requires Sized(g)
  {
    && g.tail == g.chain[0] && g.head == g.chain[|g.chain| - 1]
    && |g.claims| == g.passed + |g.chain| - 1
    && (forall i :: ChainAt(g, i))
    && (forall x :: QueuedAt(g, x))
  }

  /** The nodes a producer has taken and not put into the queue. */
  function InHands(l: Local): seq<nat> {
    match l
    case Built(nodes, _) => nodes
    case Extending(nodes, x, _) => nodes + [x]
    case _ => []
  }

  /** A node that is neither free nor queued is in the hands that its owner says. */
  ghost predicate HandAt(s: State, x: int)
    requires Sized(s.shared)
  {
    0 <= x < |s.shared.owner| ==>
      match s.shared.owner[x]
      case Producer(t) => t < |s.threads| && x in InHands(s.threads[t])
      case Consumer => s.reader == Passed(x)
      case _ => true
  }

  ghost predicate Inv(s: State) {
    && Sized(s.shared) && EndsOk(s.shared) && ReaderOk(s.shared, s.reader)
    && (forall k :: LinkerAt(s.shared, s.threads, k))
    && (forall t :: 0 <= t < |s.threads| ==> LocalOk(s.shared, t, s.threads[t]))
    && (forall x :: HandAt(s, x))
  }

  // ---- writes to nodes outside the queue ----

  /** g' differs from g at most in node x, which is not queued in either. */
  ghost predicate OffQueueWrite(g: Shared, x: nat, g': Shared)
    requires Sized(g)
  {
    && x < |g.next| && !g.owner[x].Queued?
    && Sized(g') && |g'.next| == |g.next| && !g'.owner[x].Queued?
    && g'.next == g.next[x := g'.next[x]] && g'.value == g.value[x := g'.value[x]]
    && g'.owner == g.owner[x := g'.owner[x]]
    && g'.head == g.head && g'.tail == g.tail && g'.chain == g.chain && g'.passed == g.passed
    && g'.claims == g.claims && g'.taken == g.taken
  }

  lemma OffQueueKeepsChain(g: Shared, x: nat, g': Shared, i: int)
    requires Sized(g) && ChainAt(g, i) && OffQueueWrite(g, x, g')
    ensures ChainAt(g', i) && (0 <= i < |g.chain| ==> g.chain[i] != x)
  {
  }

  lemma OffQueueKeepsQueued(g: Shared, x: nat, g': Shared, y: int)
    requires Sized(g) && QueuedAt(g, y) && OffQueueWrite(g, x, g')
    ensures QueuedAt(g', y)
  {
  }

  lemma OffQueueKeepsQueue(g: Shared, x: nat, g': Shared)
    requires Sized(g) && EndsOk(g) && OffQueueWrite(g, x, g')
    ensures EndsOk(g')
    ensures forall i :: 0 <= i < |g.chain| ==> g.chain[i] != x
  {
    forall i ensures ChainAt(g', i) && (0 <= i < |g.chain| ==> g.chain[i] != x) {
      OffQueueKeepsChain(g, x, g', i);
    }
    forall y ensures QueuedAt(g', y) {
      OffQueueKeepsQueued(g, x, g', y);
    }
  }

  lemma OffQueueKeepsLinkers(g: Shared, x: nat, g': Shared, threads: seq<Local>, k: nat)
    requires Sized(g) && EndsOk(g) && OffQueueWrite(g, x, g') && LinkerAt(g, threads, k)
    ensures LinkerAt(g', threads, k)
  {
    OffQueueKeepsQueue(g, x, g');
    assert ChainAt(g, k - g.passed);
  }

  lemma OffQueueKeepsReader(g: Shared, x: nat, g': Shared, k: Reader)
    requires Sized(g) && EndsOk(g) && OffQueueWrite(g, x, g') && ReaderOk(g, k) && g.owner[x] != Consumer
    ensures ReaderOk(g', k)
  {
    assert ChainAt(g, 0);
  }

  lemma OffQueueKeepsLocal(g: Shared, x: nat, g': Shared, t: nat, l: Local)
    requires Sized(g) && EndsOk(g) && OffQueueWrite(g, x, g') && LocalOk(g, t, l) && g.owner[x] != Producer(t)
    ensures LocalOk(g', t, l)
  {
    match l
    case Idle =>
    case Exchanged(k, prev, first) =>
      assert ChainAt(g, k - g.passed);
    case Built(nodes, values) =>
      forall i ensures PrivateAt(g', t, nodes, values, i) {
        assert PrivateAt(g, t, nodes, values, i);
      }
    case Extending(nodes, y, values) =>
      forall i ensures PrivateAt(g', t, nodes, values, i) {
        assert PrivateAt(g, t, nodes, values, i);
      }
  }

  // ---- producers ----

  /** Taking a node, or linking it to the private chain, happens off the queue. */
  lemma BuildingIsOffQueue(g: Shared, t: nat, l: Local, a: Action, g': Shared, l': Local) returns (x: nat)
    requires Sized(g) && LocalOk(g, t, l) && Move(g, t, l, a, g', l')
    requires a.Begin? || a.Allocate? || a.Append?
    ensures OffQueueWrite(g, x, g') && (g.owner[x] == Pool || g.owner[x] == Producer(t))
  {
    if a.Append? {
      assert PrivateAt(g, t, l.nodes, l.values, |l.nodes| - 1);
      x := l.nodes[|l.nodes| - 1];
    } else {
      x := a.node;
    }
  }

  lemma BuildingKeepsSelf(g: Shared, t: nat, l: Local, a: Action, g': Shared, l': Local)
    requires Sized(g) && LocalOk(g, t, l) && Move(g, t, l, a, g', l')
    requires a.Begin? || a.Allocate? || a.Append?
    ensures Sized(g') && LocalOk(g', t, l')
  {
    if a.Begin? {
      forall i ensures PrivateAt(g', t, [a.node], a.values, i) {
      }
    } else {
      forall i ensures PrivateAt(g, t, l.nodes, l.values, i) {
      }
      if a.Append? {
        var all := l.nodes + [l.node];
        assert forall i :: 0 <= i < |l.nodes| ==> all[i] == l.nodes[i];
        assert Distinct(l'.nodes);
      }
      forall i ensures PrivateAt(g', t, l'.nodes, l'.values, i) {
        assert PrivateAt(g, t, l.nodes, l.values, i);
      }
      if a.Allocate? {
        forall i | 0 <= i < |l.nodes| ensures l.nodes[i] != a.node {
          assert PrivateAt(g, t, l.nodes, l.values, i);
        }
      }
    }
  }

  /** Linking completes exactly one missing link of the queue. */
  lemma LinkKeepsQueue(g: Shared, t: nat, l: Local, g': Shared, l': Local)
    requires Sized(g) && EndsOk(g) && LocalOk(g, t, l) && Move(g, t, l, Link, g', l')
    ensures Sized(g') && EndsOk(g')
  {
    assert ChainAt(g, l.k - g.passed);
    forall i ensures ChainAt(g', i) {
      assert ChainAt(g, i);
    }
    forall y ensures QueuedAt(g', y) {
      assert QueuedAt(g, y);
    }
  }

  lemma LinkKeepsLinkers(g: Shared, threads: seq<Local>, t: nat, g': Shared, l': Local, k: nat)
    requires Sized(g) && EndsOk(g) && t < |threads| && LocalOk(g, t, threads[t])
    requires Move(g, t, threads[t], Link, g', l') && LinkerAt(g, threads, k)
    ensures Sized(g') && LinkerAt(g', threads[t := l'], k)
  {
    SumUpdate(LinkerOf(k), threads, t, l');
    assert ChainAt(g, threads[t].k - g.passed) && ChainAt(g, k - g.passed);
    SumNonNegative(LinkerOf(k), threads);
    SumAtLeast(LinkerOf(k), threads, t);
  }

  lemma LinkKeepsOther(g: Shared, t: nat, l: Local, g': Shared, l': Local, u: nat, m: Local)
    requires Sized(g) && EndsOk(g) && LocalOk(g, t, l) && Move(g, t, l, Link, g', l')
    requires LocalOk(g, u, m) && (m.Exchanged? ==> m.k != l.k)
    ensures Sized(g') && LocalOk(g', u, m)
  {
    assert ChainAt(g, l.k - g.passed);
    match m
    case Idle =>
    case Exchanged(k, prev, first) =>
      assert ChainAt(g, k - g.passed);
    case Built(nodes, values) =>
      forall i ensures PrivateAt(g', u, nodes, values, i) {
        assert PrivateAt(g, u, nodes, values, i);
      }
    case Extending(nodes, y, values) =>
      forall i ensures PrivateAt(g', u, nodes, values, i) {
        assert PrivateAt(g, u, nodes, values, i);
      }
  }

  lemma LinkKeepsReader(g: Shared, t: nat, l: Local, g': Shared, l': Local, k: Reader)
    requires Sized(g) && EndsOk(g) && LocalOk(g, t, l) && Move(g, t, l, Link, g', l') && ReaderOk(g, k)
    ensures Sized(g') && ReaderOk(g', k)
  {
    assert ChainAt(g, l.k - g.passed) && ChainAt(g, 0);
  }

  lemma NotOneOf(g: Shared, t: nat, nodes: seq<nat>, values: seq<Value>, x: nat)
    requires Sized(g) && (forall i :: PrivateAt(g, t, nodes, values, i)) && x < |g.owner| && g.owner[x] != Producer(t)
    ensures x !in nodes
  {
    forall j | 0 <= j < |nodes| ensures nodes[j] != x {
      assert PrivateAt(g, t, nodes, values, j);
    }
  }

  lemma ExchangeKeepsChain(g: Shared, t: nat, l: Local, g': Shared, l': Local, i: int)
    requires Sized(g) && EndsOk(g) && LocalOk(g, t, l) && Move(g, t, l, Exchange, g', l')
    ensures Sized(g') && ChainAt(g', i)
  {
    var n := |g.chain|;
    assert ChainAt(g, i) && PrivateAt(g, t, l.nodes, l.values, i - n);
    if 0 <= i < n {
      NotOneOf(g, t, l.nodes, l.values, g.chain[i]);
    }
  }

  lemma ExchangeKeepsQueued(g: Shared, t: nat, l: Local, g': Shared, l': Local, y: int)
    requires Sized(g) && EndsOk(g) && LocalOk(g, t, l) && Move(g, t, l, Exchange, g', l')
    ensures Sized(g') && QueuedAt(g', y)
  {
    assert QueuedAt(g, y);
    if 0 <= y < |g.owner| && y in l.nodes {
      var j :| 0 <= j < |l.nodes| && l.nodes[j] == y;
      assert g'.owner[y] == Queued(g.passed + |g.chain| + j);
    }
  }

  /** The exchange appends the private chain, already linked, behind the head. */
  lemma ExchangeKeepsQueue(g: Shared, t: nat, l: Local, g': Shared, l': Local)
    requires Sized(g) && EndsOk(g) && LocalOk(g, t, l) && Move(g, t, l, Exchange, g', l')
    ensures Sized(g') && EndsOk(g') && LocalOk(g', t, l')
  {
    forall i ensures ChainAt(g', i) {
      ExchangeKeepsChain(g, t, l, g', l', i);
    }
    forall y ensures QueuedAt(g', y) {
      ExchangeKeepsQueued(g, t, l, g', l', y);
    }
    assert ChainAt(g', |g.chain| - 1) && ChainAt(g, |g.chain| - 1);
  }

  /** The exchange leaves one more link missing: that of the node that was the head. */
  lemma ExchangeLeavesOneLink(g: Shared, t: nat, l: Local, g': Shared, l': Local, k: nat)
    requires Sized(g) && EndsOk(g) && LocalOk(g, t, l) && Move(g, t, l, Exchange, g', l')
    ensures Sized(g') && Bit(MissingLink(g', k)) == Bit(MissingLink(g, k)) + LinkerOf(k)(l')
  {
    var n := |g.chain|;
    assert ChainAt(g, k - g.passed) && ChainAt(g, n - 1);
    assert PrivateAt(g, t, l.nodes, l.values, k - g.passed - n);
  }

  lemma ExchangeKeepsLinkers(g: Shared, threads: seq<Local>, t: nat, g': Shared, l': Local, k: nat)
    requires Sized(g) && EndsOk(g) && t < |threads| && LocalOk(g, t, threads[t])
    requires Move(g, t, threads[t], Exchange, g', l') && LinkerAt(g, threads, k)
    ensures Sized(g') && LinkerAt(g', threads[t := l'], k)
  {
    SumUpdate(LinkerOf(k), threads, t, l');
    ExchangeLeavesOneLink(g, t, threads[t], g', l', k);
  }

  lemma ExchangeKeepsOther(g: Shared, t: nat, l: Local, g': Shared, l': Local, u: nat, m: Local)
    requires Sized(g) && EndsOk(g) && LocalOk(g, t, l) && Move(g, t, l, Exchange, g', l')
    requires LocalOk(g, u, m) && u != t
    ensures Sized(g') && LocalOk(g', u, m)
  {
    forall x | 0 <= x < |g.owner| && g.owner[x] == Producer(u) ensures g'.owner[x] == Producer(u) {
      NotOneOf(g, t, l.nodes, l.values, x);
    }
    match m
    case Idle =>
    case Exchanged(k, prev, first) =>
    case Built(nodes, values) =>
      forall i ensures PrivateAt(g', u, nodes, values, i) {
        assert PrivateAt(g, u, nodes, values, i);
      }
    case Extending(nodes, y, values) =>
      forall i ensures PrivateAt(g', u, nodes, values, i) {
        assert PrivateAt(g, u, nodes, values, i);
      }
  }

  lemma ExchangeKeepsReader(g: Shared, t: nat, l: Local, g': Shared, l': Local, k: Reader)
    requires Sized(g) && EndsOk(g) && LocalOk(g, t, l) && Move(g, t, l, Exchange, g', l') && ReaderOk(g, k)
    ensures Sized(g') && ReaderOk(g', k)
  {
    if k.Passed? {
      NotOneOf(g, t, l.nodes, l.values, k.node);
    }
  }

  lemma OneLinker(s: State, t: nat, u: nat)
    requires Inv(s) && t < |s.threads| && u < |s.threads| && t != u
    requires s.threads[t].Exchanged? && s.threads[u].Exchanged?
    ensures s.threads[t].k != s.threads[u].k
  {
    var k := s.threads[t].k;
    assert LinkerAt(s.shared, s.threads, k);
    SumAtLeastTwo(LinkerOf(k), s.threads, if t < u then t else u, if t < u then u else t);
  }

  /** A node changes hands only between the pool, its producer and the queue. */
  lemma ProducerKeepsHands(s: State, t: nat, a: Action, s': State, x: int)
    requires Inv(s) && ProducerStep(s, t, a, s') && Sized(s'.shared)
    ensures HandAt(s', x)
  {
    var g, l := s.shared, s.threads[t];
    assert HandAt(s, x);
    if 0 <= x < |g.owner| && a.Exchange? && x in l.nodes {
      var i :| 0 <= i < |l.nodes| && l.nodes[i] == x;
      assert s'.shared.owner[l.nodes[i]] == Queued(g.passed + |g.chain| + i);
    }
  }

  lemma ConsumerKeepsHands(s: State, a: ReaderAction, s': State, x: int)
    requires Inv(s) && ConsumerStep(s, a, s') && Sized(s'.shared)
    ensures HandAt(s', x)
  {
    assert HandAt(s, x);
  }

  lemma BuildingKeeps(s: State, t: nat, a: Action, s': State)
    requires Inv(s) && ProducerStep(s, t, a, s') && (a.Begin? || a.Allocate? || a.Append?)
    ensures Inv(s')
  {
    var g, g', l, l' := s.shared, s'.shared, s.threads[t], s'.threads[t];
    var x := BuildingIsOffQueue(g, t, l, a, g', l');
    OffQueueKeepsQueue(g, x, g');
    OffQueueKeepsReader(g, x, g', s.reader);
    BuildingKeepsSelf(g, t, l, a, g', l');
    forall k: nat ensures LinkerAt(g', s'.threads, k) {
      OffQueueKeepsLinkers(g, x, g', s.threads, k);
      SumUpdate(LinkerOf(k), s.threads, t, l');
    }
    forall u | 0 <= u < |s'.threads| ensures LocalOk(g', u, s'.threads[u]) {
      if u != t {
        OffQueueKeepsLocal(g, x, g', u, s.threads[u]);
      }
    }
    forall x ensures HandAt(s', x) {
      ProducerKeepsHands(s, t, a, s', x);
    }
  }

  lemma JoiningKeeps(s: State, t: nat, a: Action, s': State)
    requires Inv(s) && ProducerStep(s, t, a, s') && (a.Exchange? || a.Link?)
    ensures Inv(s')
  {
    var g, g', l, l' := s.shared, s'.shared, s.threads[t], s'.threads[t];
    if a.Exchange? {
      ExchangeKeepsQueue(g, t, l, g', l');
      ExchangeKeepsReader(g, t, l, g', l', s.reader);
    } else {
      LinkKeepsQueue(g, t, l, g', l');
      LinkKeepsReader(g, t, l, g', l', s.reader);
    }
    forall k: nat ensures LinkerAt(g', s'.threads, k) {
      if a.Exchange? {
        ExchangeKeepsLinkers(g, s.threads, t, g', l', k);
      } else {
        LinkKeepsLinkers(g, s.threads, t, g', l', k);
      }
    }
    forall u | 0 <= u < |s'.threads| ensures LocalOk(g', u, s'.threads[u]) {
      if u != t {
        if a.Exchange? {
          ExchangeKeepsOther(g, t, l, g', l', u, s.threads[u]);
        } else {
          if s.threads[u].Exchanged? {
            OneLinker(s, t, u);
          }
          LinkKeepsOther(g, t, l, g', l', u, s.threads[u]);
        }
      }
    }
    forall x ensures HandAt(s', x) {
      ProducerKeepsHands(s, t, a, s', x);
    }
  }

  // ---- the consumer ----

  lemma AdvanceKeepsQueue(g: Shared, k: Reader, g': Shared, k': Reader)
    requires Sized(g) && EndsOk(g) && ReaderOk(g, k) && ReaderMove(g, k, Advance, g', k')
    ensures Sized(g') && EndsOk(g') && ReaderOk(g', k')
    ensures |g.chain| > 1 && g.chain[1] == k.node
  {
    assert ChainAt(g, 0) && ChainAt(g, 1);
    forall i ensures ChainAt(g', i) {
      assert ChainAt(g, i + 1);
    }
    forall y ensures QueuedAt(g', y) {
      assert QueuedAt(g, y);
    }
  }

  /** The tail never passes a node that a producer still has to link. */
  lemma AdvanceKeepsLocal(g: Shared, k: Reader, g': Shared, k': Reader, t: nat, l: Local)
    requires Sized(g) && EndsOk(g) && ReaderOk(g, k) && ReaderMove(g, k, Advance, g', k') && LocalOk(g, t, l)
    ensures Sized(g') && LocalOk(g', t, l)
  {
    AdvanceKeepsQueue(g, k, g', k');
    assert ChainAt(g, 0);
    match l
    case Idle =>
    case Exchanged(n, prev, first) =>
    case Built(nodes, values) =>
      forall i ensures PrivateAt(g', t, nodes, values, i) {
        assert PrivateAt(g, t, nodes, values, i);
      }
    case Extending(nodes, y, values) =>
      forall i ensures PrivateAt(g', t, nodes, values, i) {
        assert PrivateAt(g, t, nodes, values, i);
      }
  }

  lemma AdvanceKeepsLinkers(g: Shared, k: Reader, g': Shared, k': Reader, threads: seq<Local>, n: nat)
    requires Sized(g) && EndsOk(g) && ReaderOk(g, k) && ReaderMove(g, k, Advance, g', k') && LinkerAt(g, threads, n)
    ensures Sized(g') && LinkerAt(g', threads, n)
  {
    AdvanceKeepsQueue(g, k, g', k');
    assert ChainAt(g, 0);
  }

  lemma AdvanceKeeps(s: State, s': State)
    requires Inv(s) && ConsumerStep(s, Advance, s')
    ensures Inv(s')
  {
    AdvanceKeepsQueue(s.shared, s.reader, s'.shared, s'.reader);
    forall k: nat ensures LinkerAt(s'.shared, s'.threads, k) {
      AdvanceKeepsLinkers(s.shared, s.reader, s'.shared, s'.reader, s.threads, k);
    }
    forall t | 0 <= t < |s'.threads| ensures LocalOk(s'.shared, t, s'.threads[t]) {
      AdvanceKeepsLocal(s.shared, s.reader, s'.shared, s'.reader, t, s.threads[t]);
    }
    forall x ensures HandAt(s', x) {
      ConsumerKeepsHands(s, Advance, s', x);
    }
  }

  lemma GiveBackKeeps(s: State, a: ReaderAction, s': State)
    requires Inv(s) && ConsumerStep(s, a, s') && a.GiveBack?
    ensures Inv(s')
  {
    var g, g', x := s.shared, s'.shared, s.reader.node;
    assert OffQueueWrite(g, x, g');
    OffQueueKeepsQueue(g, x, g');
    forall k: nat ensures LinkerAt(g', s'.threads, k) {
      OffQueueKeepsLinkers(g, x, g', s.threads, k);
    }
    forall t | 0 <= t < |s'.threads| ensures LocalOk(g', t, s'.threads[t]) {
      OffQueueKeepsLocal(g, x, g', t, s.threads[t]);
    }
    forall x ensures HandAt(s', x) {
      ConsumerKeepsHands(s, a, s', x);
    }
  }

  lemma LookAndTakeKeep(s: State, a: ReaderAction, s': State)
    requires Inv(s) && ConsumerStep(s, a, s') && (a.Look? || a.Take?)
    ensures Inv(s')
  {
    var g, g' := s.shared, s'.shared;
    assert ChainAt(g, 0) && ChainAt(g, 1);
    forall i ensures ChainAt(g', i) {
      assert ChainAt(g, i);
    }
    forall y ensures QueuedAt(g', y) {
      assert QueuedAt(g, y);
    }
    forall k: nat ensures LinkerAt(g', s'.threads, k) {
      assert LinkerAt(g, s.threads, k);
    }
    forall t | 0 <= t < |s'.threads| ensures LocalOk(g', t, s'.threads[t]) {
      SameNodesSameLocal(g, g', t, s.threads[t]);
    }
    forall x ensures HandAt(s', x) {
      ConsumerKeepsHands(s, a, s', x);
    }
  }

  lemma SameNodesSameLocal(g: Shared, g': Shared, t: nat, l: Local)
    requires Sized(g) && LocalOk(g, t, l) && g' == g.(taken := g'.taken)
    ensures LocalOk(g', t, l)
  {
    match l
    case Idle =>
    case Exchanged(n, prev, first) =>
    case Built(nodes, values) =>
      forall i ensures PrivateAt(g', t, nodes, values, i) {
        assert PrivateAt(g, t, nodes, values, i);
      }
    case Extending(nodes, y, values) =>
      forall i ensures PrivateAt(g', t, nodes, values, i) {
        assert PrivateAt(g, t, nodes, values, i);
      }
  }

  // ---- the pool ----

  lemma PoolKeepsLocal(g: Shared, g': Shared, t: nat, l: Local)
    requires Sized(g) && EndsOk(g) && LocalOk(g, t, l) && PoolActs(g, g')
    ensures LocalOk(g', t, l)
  {
    match l
    case Idle =>
    case Exchanged(k, prev, first) =>
      assert ChainAt(g, k - g.passed);
    case Built(nodes, values) =>
      forall i ensures PrivateAt(g', t, nodes, values, i) {
        assert PrivateAt(g, t, nodes, values, i);
      }
    case Extending(nodes, y, values) =>
      forall i ensures PrivateAt(g', t, nodes, values, i) {
        assert PrivateAt(g, t, nodes, values, i);
      }
  }

  lemma PoolKeeps(s: State, s': State)
    requires Inv(s) && PoolStep(s, s')
    ensures Inv(s')
  {
    var g, g' := s.shared, s'.shared;
    forall i ensures ChainAt(g', i) {
      assert ChainAt(g, i);
    }
    forall y ensures QueuedAt(g', y) {
      assert QueuedAt(g, y);
    }
    assert ChainAt(g, 0);
    forall k: nat ensures LinkerAt(g', s'.threads, k) {
      assert LinkerAt(g, s.threads, k) && ChainAt(g, k - g.passed);
    }
    forall t | 0 <= t < |s'.threads| ensures LocalOk(g', t, s'.threads[t]) {
      PoolKeepsLocal(g, g', t, s.threads[t]);
    }
    forall x ensures HandAt(s', x) {
      assert HandAt(s, x);
    }
  }

  // ---- every run ----

  lemma InitHolds(s: State)
    requires Init(s)
    ensures Inv(s)
  {
    forall i ensures ChainAt(s.shared, i) {
    }
    forall y ensures QueuedAt(s.shared, y) {
    }
    forall k: nat ensures LinkerAt(s.shared, s.threads, k) {
      SumZero(LinkerOf(k), s.threads);
    }
  }

  lemma StepKeeps(s: State, s': State)
    requires Inv(s) && Step(s, s')
    ensures Inv(s')
  {
    if t: nat, a :| ProducerStep(s, t, a, s') {
      if a.Exchange? || a.Link? {
        JoiningKeeps(s, t, a, s');
      } else {
        BuildingKeeps(s, t, a, s');
      }
    } else if a :| ConsumerStep(s, a, s') {
      if a.Advance? {
        AdvanceKeeps(s, s');
      } else if a.GiveBack? {
        GiveBackKeeps(s, a, s');
      } else {
        LookAndTakeKeep(s, a, s');
      }
    } else {
      PoolKeeps(s, s');
    }
  }

  lemma EveryStateOk(run: seq<State>, i: nat)
    requires IsRun(run) && i < |run|
    ensures Inv(run[i])
  {
    forall s | Init(s) ensures Inv(s) {
      InitHolds(s);
    }
    forall s, s' | Inv(s) && Step(s, s') ensures Inv(s') {
      StepKeeps(s, s');
    }
    Runs.Invariant(Protocol(), s => Inv(s), run, i);
  }

  // ---- what the queue promises ----

  /** Values come out once each, in the order of the exchanges of the head. */
  lemma InExchangeOrder(run: seq<State>, i: nat)
    requires IsRun(run) && i < |run|
    ensures run[i].shared.taken <= run[i].shared.claims
    ensures run[i].shared.passed <= |run[i].shared.taken| <= run[i].shared.passed + 1
  {
    EveryStateOk(run, i);
  }

  /** What the exchange appends are the caller's values: nobody wrote to the nodes meanwhile. */
  lemma ChainCarriesTheValues(s: State, t: nat, s': State)
    requires Inv(s) && ProducerStep(s, t, Exchange, s')
    ensures s'.shared.claims == s.shared.claims + s.threads[t].values
  {
    var g, l := s.shared, s.threads[t];
    assert LocalOk(g, t, l);
    forall i | 0 <= i < |l.nodes| ensures Values(g, l.nodes)[i] == l.values[i] {
      assert PrivateAt(g, t, l.nodes, l.values, i);
    }
    assert Values(g, l.nodes) == l.values;
  }

  ghost predicate ClaimsGrow(s: State, s': State) {
    s.shared.claims <= s'.shared.claims
  }

  lemma ClaimsOnlyGrow(run: seq<State>, i: nat, j: nat)
    requires IsRun(run) && i <= j < |run|
    ensures run[i].shared.claims <= run[j].shared.claims
  {
    forall s | Init(s) ensures Inv(s) {
      InitHolds(s);
    }
    forall s, s' | Inv(s) && Step(s, s') ensures Inv(s') && ClaimsGrow(s, s') {
      StepKeeps(s, s');
    }
    Runs.Monotone(Protocol(), s => Inv(s), (s, s') => ClaimsGrow(s, s'), run, i, j);
  }

  /** The part of an order that falls into n places from k on. */
  function Within<T>(all: seq<T>, k: nat, n: nat): seq<T> {
    if |all| <= k then [] else all[k..Min(|all|, k + n)]
  }

  ghost predicate Building(l: Local, values: seq<Value>) {
    (l.Built? || l.Extending?) && l.values == values
  }

  /** From step b on thread t is in one call, to which these values were passed. */
  ghost predicate InCall(run: seq<State>, b: nat, i: nat, t: nat, values: seq<Value>) {
    && b < i < |run| && (exists x :: ProducerStep(run[b], t, Begin(x, values), run[b + 1]))
    && forall m :: b < m <= i ==> t < |run[m].threads| && !run[m].threads[t].Idle? && !run[m].threads[t].Exchanged?
  }

  lemma {:induction false} CallKeepsValues(run: seq<State>, b: nat, i: nat, t: nat, values: seq<Value>)
    requires IsRun(run) && InCall(run, b, i, t, values)
    ensures Building(run[i].threads[t], values)
    decreases i
  {
    if i > b + 1 {
      CallKeepsValues(run, b, i - 1, t, values);
      var s, s' := run[i - 1], run[i];
      assert Protocol().next(s, s');
      if u: nat, a :| ProducerStep(s, u, a, s') {
        assert u != t ==> s'.threads[t] == s.threads[t];
      }
    }
  }

  /** A bulk enqueue keeps the values its caller passed together and in order: from its exchange on they
      stand, next to each other, in the order of the queue for good, and what the consumer has taken of
      these places is a prefix of them, while the pool writes free nodes as it likes. */
  lemma BulkIsContiguous(run: seq<State>, b: nat, i: nat, t: nat, values: seq<Value>, j: nat)
    requires IsRun(run) && InCall(run, b, i, t, values) && i < j < |run|
    requires ProducerStep(run[i], t, Exchange, run[i + 1])
    ensures var k := |run[i].shared.claims|;
            && k + |values| <= |run[j].shared.claims| && run[j].shared.claims[k..k + |values|] == values
            && Within(run[j].shared.taken, k, |values|) <= values
  {
    var k := |run[i].shared.claims|;
    EveryStateOk(run, i);
    CallKeepsValues(run, b, i, t, values);
    ChainCarriesTheValues(run[i], t, run[i + 1]);
    ClaimsOnlyGrow(run, i + 1, j);
    InExchangeOrder(run, j);
    var claims := run[j].shared.claims;
    assert claims[..k + |values|] == run[i + 1].shared.claims;
    assert claims[k..k + |values|] == claims[..k + |values|][k..];
  }

  /** A node that an unfinished producer still has to link stays in the queue: it is the node the
      producer saw, it is neither free nor reused, and no other producer writes its link. */
  lemma UnlinkedNodeStays(run: seq<State>, i: nat, t: nat, u: nat)
    requires IsRun(run) && i < |run| && t < |run[i].threads| && u < |run[i].threads| && u != t
    requires run[i].threads[t].Exchanged?
    ensures var g, l := run[i].shared, run[i].threads[t];
            && l.prev < |g.owner| && l.prev < |g.next|
            && g.owner[l.prev] == Queued(l.k) && g.next[l.prev] == None && l.prev in g.chain
    ensures run[i].threads[u].Exchanged? ==> run[i].threads[u].prev != run[i].threads[t].prev
  {
    var s := run[i];
    EveryStateOk(run, i);
    assert LocalOk(s.shared, t, s.threads[t]) && LocalOk(s.shared, u, s.threads[u]);
    assert ChainAt(s.shared, s.threads[t].k - s.shared.passed);
    if s.threads[u].Exchanged? {
      OneLinker(s, t, u);
      assert ChainAt(s.shared, s.threads[u].k - s.shared.passed);
    }
  }

  /** A missing link inside the queue always has a producer that is about to write it. */
  lemma MissingLinkIsPending(run: seq<State>, i: nat, j: nat)
    requires IsRun(run) && i < |run| && j + 1 < |run[i].shared.chain|
    ensures var g := run[i].shared;
            && g.chain[j] < |g.next|
            && (g.next[g.chain[j]] == Some(g.chain[j + 1])
                || exists t :: 0 <= t < |run[i].threads| && LinkerOf(g.passed + j)(run[i].threads[t]) == 1)
  {
    var s := run[i];
    EveryStateOk(run, i);
    var k := s.shared.passed + j;
    assert ChainAt(s.shared, j) && LinkerAt(s.shared, s.threads, k);
    if s.shared.next[s.shared.chain[j]] == None {
      var t := SumWitness(LinkerOf(k), s.threads);
    }
  }

  // ---- refinement of the abstract mailbox ----

  predicate LinkedAt(g: Shared, p: nat)
    requires Sized(g)
  {
    p < |g.claims| && (p < g.passed
      || (p - g.passed < |g.chain| && g.chain[p - g.passed] < |g.next| && g.next[g.chain[p - g.passed]] != None))
  }

  /** The mailbox a linked queue stands for. */
  ghost function Abs(g: Shared): Mailbox.Box<Value>
    requires Sized(g)
  {
    Mailbox.Box(g.claims, set p: nat | p < |g.claims| && LinkedAt(g, p), |g.taken|)
  }

  lemma BuildingRefines(s: State, t: nat, a: Action, s': State)
    requires Inv(s) && ProducerStep(s, t, a, s') && (a.Begin? || a.Allocate? || a.Append?)
    ensures Sized(s'.shared) && Abs(s'.shared) == Abs(s.shared)
  {
    var g, g' := s.shared, s'.shared;
    var x := BuildingIsOffQueue(g, t, s.threads[t], a, g', s'.threads[t]);
    OffQueueKeepsQueue(g, x, g');
    forall p: nat | p < |g.claims| ensures LinkedAt(g', p) == LinkedAt(g, p) {
      assert ChainAt(g, p - g.passed);
    }
  }

  /** The exchange claims the places of the whole chain; all but the first are visible at once. */
  lemma ExchangeRefines(s: State, t: nat, s': State)
    requires Inv(s) && ProducerStep(s, t, Exchange, s')
    ensures Sized(s'.shared)
    ensures Abs(s'.shared) == Mailbox.ClaimAll(Abs(s.shared), Values(s.shared, s.threads[t].nodes))
  {
    var g, g', l := s.shared, s'.shared, s.threads[t];
    var vs := Values(g, l.nodes);
    forall p: nat | p < |g'.claims|
      ensures LinkedAt(g', p) <==> (p < |g.claims| && LinkedAt(g, p)) || Mailbox.Behind(|g.claims|, |vs|, p)
    {
      assert ChainAt(g, p - g.passed) && PrivateAt(g, t, l.nodes, l.values, p - g.passed - |g.chain|);
      assert ChainAt(g, |g.chain| - 1);
    }
  }

  /** Linking makes the first of the claimed places visible. */
  lemma LinkRefines(s: State, t: nat, s': State)
    requires Inv(s) && ProducerStep(s, t, Link, s')
    ensures Sized(s'.shared)
    ensures s.threads[t].k < |s.shared.claims|
    ensures Abs(s'.shared) == Mailbox.Publish(Abs(s.shared), s.threads[t].k)
  {
    var g, g', l := s.shared, s'.shared, s.threads[t];
    assert LocalOk(g, t, l);
    assert ChainAt(g, l.k - g.passed);
    forall p: nat | p < |g.claims| ensures LinkedAt(g', p) <==> LinkedAt(g, p) || p == l.k {
      assert ChainAt(g, p - g.passed);
    }
  }

  /** Reading a value pops; a failed pop means that the oldest place is not visible. */
  lemma ConsumerRefines(s: State, a: ReaderAction, s': State)
    requires Inv(s) && ConsumerStep(s, a, s')
    ensures Sized(s'.shared)
    ensures a.Take? ==> Mailbox.HeadVisible(Abs(s.shared))
                        && s'.shared.taken == s.shared.taken + [Abs(s.shared).claimed[Abs(s.shared).popped]]
    ensures a.Look? && s'.reader.Waiting? ==> !Mailbox.HeadVisible(Abs(s.shared))
    ensures Abs(s'.shared) == if a.Take? then Mailbox.Pop(Abs(s.shared)) else Abs(s.shared)
  {
    var g, g' := s.shared, s'.shared;
    assert ChainAt(g, 0) && ChainAt(g, 1);
    forall p: nat | p < |g.claims| ensures LinkedAt(g', p) == LinkedAt(g, p) {
      assert ChainAt(g, p - g.passed);
    }
  }

  /** What the pool does to free nodes does not show in the mailbox. */
  lemma PoolRefines(s: State, s': State)
    requires Inv(s) && PoolStep(s, s')
    ensures Sized(s'.shared) && Abs(s'.shared) == Abs(s.shared)
  {
    var g, g' := s.shared, s'.shared;
    forall p: nat | p < |g.claims| ensures LinkedAt(g', p) == LinkedAt(g, p) {
      assert ChainAt(g, p - g.passed);
    }
  }

  lemma AbsValid(s: State)
    requires Inv(s)
    ensures Mailbox.Valid(Abs(s.shared))
  {
    assert ChainAt(s.shared, 0);
  }

  lemma StepRefines(s: State, s': State)
    requires Inv(s) && Inv(s') && Step(s, s')
    ensures Mailbox.Valid(Abs(s.shared)) && Mailbox.Next(Abs(s.shared), Abs(s'.shared))
  {
    AbsValid(s);
    if t: nat, a :| ProducerStep(s, t, a, s') {
      match a
      case Exchange => ExchangeRefines(s, t, s');
      case Link => LinkRefines(s, t, s');
      case _ => BuildingRefines(s, t, a, s');
    } else if a :| ConsumerStep(s, a, s') {
      ConsumerRefines(s, a, s');
    } else {
      PoolRefines(s, s');
    }
  }

  /** The linked queue is a mailbox: along every run the abstraction takes mailbox steps or stands
      still, although freed nodes are recycled all the time. */
  lemma LinkedQueueIsAMailbox(run: seq<State>, i: nat)
    requires IsRun(run) && i + 1 < |run|
    ensures Inv(run[i]) && Inv(run[i + 1])
    ensures Mailbox.Valid(Abs(run[i].shared)) && Mailbox.Next(Abs(run[i].shared), Abs(run[i + 1].shared))
  {
    EveryStateOk(run, i);
    EveryStateOk(run, i + 1);
    assert Protocol().next(run[i], run[i + 1]);
    StepRefines(run[i], run[i + 1]);
  }

  // ---- no access is blocked ----

  /** The owners after the nodes joined the queue. */
  function JoinedOwners(owner: seq<Owner>, nodes: seq<nat>, k: nat): (r: seq<Owner>)
    ensures |r| == |owner|
    decreases nodes
  {
    if nodes == [] then owner
    else if nodes[0] < |owner| then JoinedOwners(owner[nodes[0] := Queued(k)], nodes[1..], k + 1)
    else JoinedOwners(owner, nodes[1..], k + 1)
  }

  lemma {:induction false} JoinedOwnersJoin(owner: seq<Owner>, nodes: seq<nat>, k: nat)
    requires Distinct(nodes)
    ensures Joined(owner, nodes, k, JoinedOwners(owner, nodes, k))
    decreases nodes
  {
    if nodes != [] {
      var rest := nodes[1..];
      var owner' := if nodes[0] < |owner| then owner[nodes[0] := Queued(k)] else owner;
      JoinedOwnersJoin(owner', rest, k + 1);
      var r := JoinedOwners(owner', rest, k + 1);
      assert nodes[0] !in rest;
      forall i | 0 <= i < |nodes| && nodes[i] < |owner| ensures r[nodes[i]] == Queued(k + i) {
        assert i > 0 ==> nodes[i] == rest[i - 1];
      }
      forall x | 0 <= x < |owner| && x !in nodes ensures r[x] == owner[x] {
        assert x !in rest && x != nodes[0];
      }
    }
  }

  /** What a producer does next once it has all its nodes or holds one that is not linked yet. */
  lemma NextAccess(g: Shared, t: nat, l: Local) returns (a: Action, g': Shared, l': Local)
    requires Sized(g) && EndsOk(g) && LocalOk(g, t, l)
    requires l.Extending? || l.Exchanged? || (l.Built? && |l.nodes| == |l.values|)
    ensures Move(g, t, l, a, g', l')
  {
    match l
    case Built(nodes, values) =>
      forall i | 0 <= i < |nodes| ensures nodes[i] < |g.next| {
        assert PrivateAt(g, t, nodes, values, i);
      }
      JoinedOwnersJoin(g.owner, nodes, g.passed + |g.chain|);
      a, l' := Exchange, Exchanged(g.passed + |g.chain| - 1, g.head, nodes[0]);
      g' := g.(head := nodes[|nodes| - 1], chain := g.chain + nodes,
               owner := JoinedOwners(g.owner, nodes, g.passed + |g.chain|), claims := g.claims + Values(g, nodes));
    case Extending(nodes, x, values) =>
      assert PrivateAt(g, t, nodes, values, |nodes| - 1);
      a, l' := Append, Built(nodes + [x], values);
      g' := g.(next := g.next[nodes[|nodes| - 1] := Some(x)]);
    case Exchanged(k, prev, first) =>
      a, l' := Link, Idle;
      g' := g.(next := g.next[prev := Some(first)]);
  }

  lemma NextRead(g: Shared, k: Reader, link: Option<nat>) returns (a: ReaderAction, g': Shared, k': Reader)
    requires Sized(g) && EndsOk(g) && ReaderOk(g, k)
    ensures ReaderMove(g, k, a, g', k') && (a.GiveBack? ==> a.link == link)
  {
    assert ChainAt(g, 0) && ChainAt(g, 1);
    match k
    case Waiting =>
      a, g', k' := Look, g, if g.next[g.tail] == None then Waiting else Saw(g.next[g.tail].value);
    case Saw(x) => a, g', k' := Take, g.(taken := g.taken + [g.value[x]]), Took(x);
    case Took(x) =>
      a, k' := Advance, Passed(g.tail);
      g' := g.(tail := x, chain := g.chain[1..], passed := g.passed + 1, owner := g.owner[g.tail := Consumer]);
    case Passed(x) =>
      a, k' := GiveBack(link), Waiting;
      g' := g.(next := g.next[x := link], owner := g.owner[x := Pool]);
  }

  /** Neither the consumer nor a producer that needs no further node is ever blocked, or follows a link
      that leads nowhere. */
  lemma NeverStuck(run: seq<State>, i: nat, t: nat)
    requires IsRun(run) && i < |run| && t < |run[i].threads|
    requires var l := run[i].threads[t]; l.Extending? || l.Exchanged? || (l.Built? && |l.nodes| == |l.values|)
    ensures exists a, s' :: ProducerStep(run[i], t, a, s')
    ensures exists a, s' :: ConsumerStep(run[i], a, s')
  {
    var s := run[i];
    EveryStateOk(run, i);
    var a, g', l' := NextAccess(s.shared, t, s.threads[t]);
    assert ProducerStep(s, t, a, State(g', s.reader, s.threads[t := l']));
    var b, h, k' := NextRead(s.shared, s.reader, None);
    assert ConsumerStep(s, b, State(h, k', s.threads));
  }
}
