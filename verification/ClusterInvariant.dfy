/** The inductive invariant of a cluster: beliefs are genuine and replies answer their requests. */
module ClusterInvariant {
  import opened BrokerModel
  import opened BrokerInvariant
  import opened ClusterProtocol

  // ---- what a statement about another node is worth ----

  /** A state about a node carries that node's own address and name, and is not newer than its own entry. */
  ghost predicate Genuine(c: State, s: NodeState) {
    && s.id in c.nodes && s.id in c.nodes[s.id].table
    && s.address == c.nodes[s.id].config.address && s.name == c.nodes[s.id].config.name
    && s.lastSeen <= c.nodes[s.id].table[s.id].lastSeen
  }

  /** Node a sent node b some request under this id. */
  ghost predicate Issued(c: State, a: NodeId, b: NodeId, id: RequestId) {
    && a in c.nodes && b in c.nodes && a != b
    && id in c.nodes[a].past.issued && c.nodes[a].past.issued[id].target == b
  }

  /** Node a sent node b this request. */
  ghost predicate Asked(c: State, a: NodeId, b: NodeId, id: RequestId, question: Payload) {
    Issued(c, a, b, id) && c.nodes[a].past.issued[id].payload == question
  }

  /** Node b's handler produced this data when it ran on what node a had sent it under this id. */
  ghost predicate Answered(c: State, a: NodeId, b: NodeId, id: RequestId, data: Payload) {
    Issued(c, a, b, id) && Answer(a, id, c.nodes[a].past.issued[id].payload, data) in c.nodes[b].past.answers
  }

  /** Two nodes have the same listen address, as a restarted node and its predecessor do. */
  ghost predicate Near(c: State, a: NodeId, b: NodeId) {
    a in c.nodes && b in c.nodes && c.nodes[a].config.address == c.nodes[b].config.address
  }

  /** A request to the own address can be taken for its own reply. */
  ghost predicate AnsweredUnlessNear(c: State, a: NodeId, b: NodeId, id: RequestId, data: Payload) {
    Issued(c, a, b, id) && (Near(c, a, b) || Answered(c, a, b, id, data))
  }

  // ---- the invariant ----

  ghost predicate PacketOk(c: State, p: Packet) {
    match p.message
    case Gossip(from, states) => forall i :: 0 <= i < |states| ==> Genuine(c, states[i])
    case TwoWay(a, b, id, data) =>
      || (Asked(c, a, b, id, data) && p.to == c.nodes[b].config.address)
      || (Answered(c, a, b, id, data) && p.to == c.nodes[a].config.address)
  }

  ghost predicate PacketAt(c: State, p: Packet) {
    p in c.net ==> PacketOk(c, p)
  }

  ghost predicate HeardAt(c: State, b: Broker, s: NodeState) {
    s in b.past.heard ==> Genuine(c, s)
  }

  ghost predicate HeardGenuine(c: State, b: Broker) {
    forall s :: HeardAt(c, b, s)
  }

  ghost predicate HandlingAt(c: State, b: Broker, q: (NodeId, RequestId, Payload)) {
    q in b.handling ==> Asked(c, q.0, b.self, q.1, q.2)
  }

  ghost predicate HandlingAsked(c: State, b: Broker) {
    forall q :: HandlingAt(c, b, q)
  }

  ghost predicate AnswerAt(c: State, b: Broker, x: Answer) {
    x in b.past.answers ==> Asked(c, x.requester, b.self, x.request, x.question)
  }

  ghost predicate AnswersAsked(c: State, b: Broker) {
    forall x :: AnswerAt(c, b, x)
  }

  ghost predicate DeferredAt(c: State, b: Broker, n: NodeId, i: int) {
    n in b.deferred && 0 <= i < |b.deferred[n]| ==>
      Answered(c, b.deferred[n][i].requester, b.self, b.deferred[n][i].request, b.deferred[n][i].data)
  }

  ghost predicate DeferredAnswered(c: State, b: Broker) {
    forall n, i :: DeferredAt(c, b, n, i)
  }

  ghost predicate ResponseAt(c: State, b: Broker, id: RequestId) {
    id in b.outstanding && b.outstanding[id].response.Some? ==>
      AnsweredUnlessNear(c, b.self, b.outstanding[id].target, id, b.outstanding[id].response.value)
  }

  ghost predicate ResponsesAnswered(c: State, b: Broker) {
    forall id :: ResponseAt(c, b, id)
  }

  ghost predicate CompletionAt(c: State, b: Broker, i: int) {
    0 <= i < |b.past.completed| ==>
      var x := b.past.completed[i];
      x.outcome.Replied? && x.request in b.past.issued ==>
        AnsweredUnlessNear(c, b.self, b.past.issued[x.request].target, x.request, x.outcome.payload)
  }

  ghost predicate CompletionsAnswered(c: State, b: Broker) {
    forall i :: CompletionAt(c, b, i)
  }

  ghost predicate BrokerOk(c: State, b: Broker) {
    && HeardGenuine(c, b) && HandlingAsked(c, b) && DeferredAnswered(c, b) && ResponsesAnswered(c, b)
    && CompletionsAnswered(c, b) && AnswersAsked(c, b)
  }

  ghost predicate NodeAt(c: State, n: NodeId) {
    n in c.nodes ==> c.nodes[n].self == n && BrokerInvariant.Inv(c.nodes[n]) && BrokerOk(c, c.nodes[n])
  }

  /** An address has at most one running node, and one that writes to its own address writes to a node
      that is down: the other one joined first. */
  ghost predicate OneUp(c: State, m: NodeId, n: NodeId) {
    Near(c, m, n) && m != n ==> m in c.down || n in c.down
  }

  ghost predicate IssuedAt(c: State, a: NodeId, id: RequestId) {
    a in c.nodes && id in c.nodes[a].past.issued ==>
      var b := c.nodes[a].past.issued[id].target;
      Issued(c, a, b, id) && (Near(c, a, b) ==> b in c.down)
  }

  ghost predicate AddressesOk(c: State) {
    && (forall m, n :: OneUp(c, m, n))
    && (forall a, id :: IssuedAt(c, a, id))
  }

  ghost predicate Inv(c: State) {
    && AddressesOk(c)
    && (forall n :: NodeAt(c, n))
    && (forall p :: PacketAt(c, p))
  }

  // ---- everything that was true of the cluster stays true ----

  ghost predicate BrokerGrows(b: Broker, b': Broker) {
    && b'.self == b.self && b'.config == b.config
    && (forall id :: id in b.past.issued ==> id in b'.past.issued && b'.past.issued[id] == b.past.issued[id])
    && b.past.answers <= b'.past.answers
    && (b.self in b.table ==> b.self in b'.table && b.table[b.self].lastSeen <= b'.table[b.self].lastSeen)
  }

  ghost predicate GrowsAt(c: State, c': State, n: NodeId) {
    n in c.nodes ==> c.nodes[n].self == n && n in c'.nodes && BrokerGrows(c.nodes[n], c'.nodes[n])
  }

  ghost predicate Grows(c: State, c': State) {
    forall n :: GrowsAt(c, c', n)
  }

  lemma GenuineStays(c: State, c': State, s: NodeState)
    requires Grows(c, c') && Genuine(c, s)
    ensures Genuine(c', s)
  {
    assert GrowsAt(c, c', s.id);
  }

  lemma AskedStays(c: State, c': State, a: NodeId, b: NodeId, id: RequestId, question: Payload)
    requires Grows(c, c') && Asked(c, a, b, id, question)
    ensures Asked(c', a, b, id, question)
  {
    assert GrowsAt(c, c', a) && GrowsAt(c, c', b);
  }

  lemma AnsweredStays(c: State, c': State, a: NodeId, b: NodeId, id: RequestId, data: Payload)
    requires Grows(c, c') && AnsweredUnlessNear(c, a, b, id, data)
    ensures AnsweredUnlessNear(c', a, b, id, data) && (Answered(c, a, b, id, data) ==> Answered(c', a, b, id, data))
  {
    assert GrowsAt(c, c', a) && GrowsAt(c, c', b);
  }

  lemma PacketStays(c: State, c': State, p: Packet)
    requires Grows(c, c') && PacketOk(c, p)
    ensures PacketOk(c', p)
  {
    match p.message
    case Gossip(from, states) =>
      forall i | 0 <= i < |states| ensures Genuine(c', states[i]) {
        GenuineStays(c, c', states[i]);
      }
    case TwoWay(a, b, id, data) =>
      assert GrowsAt(c, c', a) && GrowsAt(c, c', b);
  }

  lemma HeardStays(c: State, c': State, b: Broker)
    requires Grows(c, c') && HeardGenuine(c, b)
    ensures HeardGenuine(c', b)
  {
    forall s ensures HeardAt(c', b, s) {
      assert HeardAt(c, b, s);
      if s in b.past.heard {
        GenuineStays(c, c', s);
      }
    }
  }

  lemma RequestsStay(c: State, c': State, b: Broker)
    requires Grows(c, c') && HandlingAsked(c, b) && AnswersAsked(c, b)
    ensures HandlingAsked(c', b) && AnswersAsked(c', b)
  {
    forall q ensures HandlingAt(c', b, q) {
      assert HandlingAt(c, b, q);
      if q in b.handling {
        AskedStays(c, c', q.0, b.self, q.1, q.2);
      }
    }
    forall x ensures AnswerAt(c', b, x) {
      assert AnswerAt(c, b, x);
      if x in b.past.answers {
        AskedStays(c, c', x.requester, b.self, x.request, x.question);
      }
    }
  }

  lemma RepliesStay(c: State, c': State, b: Broker)
    requires Grows(c, c') && DeferredAnswered(c, b) && ResponsesAnswered(c, b)
    ensures DeferredAnswered(c', b) && ResponsesAnswered(c', b)
  {
    forall n, i ensures DeferredAt(c', b, n, i) {
      assert DeferredAt(c, b, n, i);
      if n in b.deferred && 0 <= i < |b.deferred[n]| {
        var r := b.deferred[n][i];
        AnsweredStays(c, c', r.requester, b.self, r.request, r.data);
      }
    }
    forall id ensures ResponseAt(c', b, id) {
      assert ResponseAt(c, b, id);
      if id in b.outstanding && b.outstanding[id].response.Some? {
        AnsweredStays(c, c', b.self, b.outstanding[id].target, id, b.outstanding[id].response.value);
      }
    }
  }

  lemma CompletionsStay(c: State, c': State, b: Broker)
    requires Grows(c, c') && CompletionsAnswered(c, b)
    ensures CompletionsAnswered(c', b)
  {
    forall i ensures CompletionAt(c', b, i) {
      assert CompletionAt(c, b, i);
      if 0 <= i < |b.past.completed| {
        var x := b.past.completed[i];
        if x.outcome.Replied? && x.request in b.past.issued {
          AnsweredStays(c, c', b.self, b.past.issued[x.request].target, x.request, x.outcome.payload);
        }
      }
    }
  }

  lemma BrokerStays(c: State, c': State, b: Broker)
    requires Grows(c, c') && BrokerOk(c, b)
    ensures BrokerOk(c', b)
  {
    HeardStays(c, c', b);
    RequestsStay(c, c', b);
    RepliesStay(c, c', b);
    CompletionsStay(c, c', b);
  }

  // ---- steps that concern neither requests nor answers ----

  /** r differs from b in nothing that a request or an answer depends on, except that it may forget;
      and all it has newly heard is news. */
  ghost predicate Tame(b: Broker, r: Broker, news: set<NodeState>) {
    && r.self == b.self && r.config == b.config && r.handling == b.handling
    && r.past.issued == b.past.issued && r.past.answers == b.past.answers && r.past.completed == b.past.completed
    && (forall id :: id in r.outstanding ==>
          && id in b.outstanding && r.outstanding[id].target == b.outstanding[id].target
          && r.outstanding[id].response == b.outstanding[id].response)
    && (forall n :: n in r.deferred ==> n in b.deferred && r.deferred[n] == b.deferred[n])
    && r.past.heard <= b.past.heard + news
    && (b.self in b.table ==> b.self in r.table && b.table[b.self].lastSeen <= r.table[b.self].lastSeen)
  }

  lemma TameKeeps(c: State, b: Broker, r: Broker, news: set<NodeState>)
    requires BrokerOk(c, b) && Tame(b, r, news) && forall s :: s in news ==> Genuine(c, s)
    ensures BrokerOk(c, r)
  {
    forall s ensures HeardAt(c, r, s) {
      assert HeardAt(c, b, s);
    }
    forall q ensures HandlingAt(c, r, q) {
      assert HandlingAt(c, b, q);
    }
    forall x ensures AnswerAt(c, r, x) {
      assert AnswerAt(c, b, x);
    }
    forall n, i ensures DeferredAt(c, r, n, i) {
      assert DeferredAt(c, b, n, i);
    }
    forall id ensures ResponseAt(c, r, id) {
      assert ResponseAt(c, b, id);
    }
    forall i ensures CompletionAt(c, r, i) {
      assert CompletionAt(c, b, i);
    }
  }

  lemma {:induction false} LostIsTame(b: Broker, lost: seq<NodeId>)
    requires forall i :: 0 <= i < |lost| ==> lost[i] != b.self
    ensures Tame(b, OnNodesLost(b, lost), {})
    decreases lost
  {
    if lost != [] {
      LostIsTame(OnNodeLost(b, lost[0]), lost[1..]);
    }
  }

  function Flushed(b: Broker, s: NodeState, r: Reply): Packet {
    Packet(s.address, TwoWay(s.id, b.self, r.request, r.data))
  }

  /** A packet that flushes a reply deferred for the node of a state. */
  ghost predicate Flushes(b: Broker, s: NodeState, p: Packet) {
    s.id in b.deferred && exists i :: 0 <= i < |b.deferred[s.id]| && p == Flushed(b, s, b.deferred[s.id][i])
  }

  lemma JoinedIsTame(b: Broker, s: NodeState)
    requires s.id !in b.table
    ensures Tame(b, Joined(b, s), {s})
  {
  }

  lemma RefreshedIsTame(b: Broker, s: NodeState)
    requires s.id in b.table
    ensures Tame(b, Refreshed(b, s), {s})
  {
  }

  lemma JoiningFlushes(b: Broker, s: NodeState)
    requires DeferredOk(b) && s.id !in b.table
    ensures forall p :: p in Learn(b, s).sends ==> Flushes(b, s, p)
  {
    NewNodeJoins(b, s);
    var r := Learn(b, s);
    forall p | p in r.sends ensures Flushes(b, s, p) {
      var i :| 0 <= i < |r.sends| && r.sends[i] == p;
      assert p == Flushed(b, s, b.deferred[s.id][i]);
    }
  }

  lemma LearnIsTame(b: Broker, s: NodeState)
    requires DeferredOk(b)
    ensures Tame(b, Learn(b, s).broker, {s})
    ensures forall p :: p in Learn(b, s).sends ==> Flushes(b, s, p)
  {
    if s.id !in b.table {
      NewNodeJoins(b, s);
      JoinedIsTame(b, s);
      JoiningFlushes(b, s);
    } else {
      RefreshedIsTame(b, s);
    }
  }

  lemma TameChain(b: Broker, mid: Broker, r: Broker, news: set<NodeState>, more: set<NodeState>)
    requires Tame(b, mid, news) && Tame(mid, r, more)
    ensures Tame(b, r, news + more)
  {
  }

  lemma {:induction false} LearnAllIsTame(b: Broker, states: seq<NodeState>)
    requires BrokerInvariant.Inv(b)
    ensures Tame(b, LearnAll(b, states).broker, SetOf(states))
    ensures forall p :: p in LearnAll(b, states).sends ==>
              exists i :: 0 <= i < |states| && Flushes(b, states[i], p)
    decreases states
  {
    if states != [] {
      var first, rest := Learn(b, states[0]), states[1..];
      LearnIsTame(b, states[0]);
      if first.error.None? {
        LearnKeeps(b, states[0]);
        LearnAllIsTame(first.broker, rest);
        LearnThenTame(b, first.broker, LearnAll(first.broker, rest).broker, states);
        FlushesEarlier(b, first.broker, states, first.sends, LearnAll(first.broker, rest).sends);
      } else {
        assert {states[0]} <= SetOf(states);
        FirstFlushes(b, states, first.sends);
      }
    }
  }

  lemma LearnThenTame(b: Broker, mid: Broker, r: Broker, states: seq<NodeState>)
    requires states != [] && Tame(b, mid, {states[0]}) && Tame(mid, r, SetOf(states[1..]))
    ensures Tame(b, r, SetOf(states))
  {
    assert states == [states[0]] + states[1..];
    assert {states[0]} + SetOf(states[1..]) == SetOf(states);
    TameChain(b, mid, r, {states[0]}, SetOf(states[1..]));
  }

  lemma FirstFlushes(b: Broker, states: seq<NodeState>, first: seq<Packet>)
    requires states != [] && forall p :: p in first ==> Flushes(b, states[0], p)
    ensures forall p :: p in first ==> exists i :: 0 <= i < |states| && Flushes(b, states[i], p)
  {
    forall p | p in first ensures exists i :: 0 <= i < |states| && Flushes(b, states[i], p) {
      assert Flushes(b, states[0], p);
    }
  }

  /** A reply that is deferred later was deferred at the beginning. */
  lemma FlushesEarlier(b: Broker, mid: Broker, states: seq<NodeState>, first: seq<Packet>, rest: seq<Packet>)
    requires states != [] && Tame(b, mid, {states[0]})
    requires forall p :: p in first ==> Flushes(b, states[0], p)
    requires forall p :: p in rest ==> exists i :: 0 <= i < |states[1..]| && Flushes(mid, states[1..][i], p)
    ensures forall p :: p in first + rest ==> exists i :: 0 <= i < |states| && Flushes(b, states[i], p)
  {
    forall p | p in first + rest ensures exists i :: 0 <= i < |states| && Flushes(b, states[i], p) {
      if p in first {
        assert Flushes(b, states[0], p);
      } else {
        var i :| 0 <= i < |states[1..]| && Flushes(mid, states[1..][i], p);
        assert Flushes(b, states[i + 1], p);
      }
    }
  }
}
