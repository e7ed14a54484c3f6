/** Replies are never lost, and requests can be answered: what happens to a request from the step that
    sends it to the step that completes it. */
module ClusterReplies {
  import opened BrokerHandlers
  import opened BrokerInvariant
  import opened BrokerModel
  import opened ClusterInvariant
  import opened ClusterProtocol
  import opened ClusterSafety
  import opened Options
  import Runs

  // ---- what a handler does to the deferred replies ----

  function ReplyTo(to: Address, self: NodeId, n: NodeId, reply: Reply): Packet {
    Packet(to, TwoWay(n, self, reply.request, reply.data))
  }

  /** All these replies are among the packets, addressed to this node. */
  ghost predicate AllFlushed(to: Address, self: NodeId, n: NodeId, replies: seq<Reply>, sends: seq<Packet>) {
    forall i :: 0 <= i < |replies| ==> ReplyTo(to, self, n, replies[i]) in sends
  }

  /** The replies deferred for a node stay, in order, with new ones at their end, or all are sent. */
  ghost predicate KeepsDeferred(b: Broker, r: Effect, n: NodeId, to: Address) {
    n in b.deferred ==>
      if n in r.broker.deferred then b.deferred[n] <= r.broker.deferred[n]
      else AllFlushed(to, b.self, n, b.deferred[n], r.sends)
  }

  ghost predicate LivesAt(states: seq<NodeState>, n: NodeId, to: Address) {
    forall i :: 0 <= i < |states| && states[i].id == n ==> states[i].address == to
  }

  lemma LearnKeepsDeferred(b: Broker, s: NodeState, n: NodeId, to: Address)
    requires BrokerInvariant.Inv(b) && (s.id == n ==> s.address == to)
    ensures KeepsDeferred(b, Learn(b, s), n, to)
    ensures Learn(b, s).broker.self == b.self
    ensures n in Learn(b, s).broker.deferred ==> n in b.deferred && Learn(b, s).broker.deferred[n] == b.deferred[n]
    ensures s.id == n != b.self && Learn(b, s).error == None ==> n !in Learn(b, s).broker.deferred
    ensures s.id in Learn(b, s).broker.table
  {
    if s.id !in b.table {
      NewNodeJoins(b, s);
      if n == s.id && n in b.deferred {
        forall i | 0 <= i < |b.deferred[n]| ensures ReplyTo(to, b.self, n, b.deferred[n][i]) in Learn(b, s).sends {
          assert Learn(b, s).sends[i] == ReplyTo(to, b.self, n, b.deferred[n][i]);
        }
      }
    } else if n == s.id {
      assert n == b.self || n in b.sockets;
      LearnKeeps(b, s);
    }
  }

  lemma {:induction false} LearnAllDefersNothing(b: Broker, states: seq<NodeState>, n: NodeId)
    requires BrokerInvariant.Inv(b)
    ensures n in LearnAll(b, states).broker.deferred ==> n in b.deferred
    decreases states
  {
    if states != [] {
      LearnKeepsDeferred(b, states[0], n, states[0].address);
      if Learn(b, states[0]).error.None? {
        LearnKeeps(b, states[0]);
        LearnAllDefersNothing(Learn(b, states[0]).broker, states[1..], n);
      }
    }
  }

  lemma {:induction false} LearnAllKeepsDeferred(b: Broker, states: seq<NodeState>, n: NodeId, to: Address)
    requires BrokerInvariant.Inv(b) && LivesAt(states, n, to)
    ensures KeepsDeferred(b, LearnAll(b, states), n, to)
    decreases states
  {
    if states != [] {
      var first := Learn(b, states[0]);
      LearnKeepsDeferred(b, states[0], n, to);
      if first.error.None? {
        LearnKeeps(b, states[0]);
        LearnAllKeepsDeferred(first.broker, states[1..], n, to);
        LearnAllDefersNothing(first.broker, states[1..], n);
      }
    }
  }

  lemma QuietHandlerKeepsDeferred(b: Broker, e: Event, r: Effect, n: NodeId, to: Address)
    requires BrokerInvariant.Inv(b) && Does(b, e, r)
    requires e.RequestSent? || e.RequestResumed? || e.WaitBegun? || e.WaitResumed? || e.WaitersDue?
             || (e.Received? && e.m.TwoWay?)
    ensures KeepsDeferred(b, r, n, to)
  {
  }

  lemma HandlerKeepsDeferred(b: Broker, e: Event, r: Effect, n: NodeId, to: Address)
    requires BrokerInvariant.Inv(b) && Does(b, e, r)
    requires e.Received? && e.m.Gossip? ==> LivesAt(e.m.states, n, to)
    ensures KeepsDeferred(b, r, n, to)
  {
    if e.Received? && e.m.Gossip? {
      LearnAllKeepsDeferred(b, e.m.states, n, to);
    } else if e.HeartbeatDue? {
      LostOnes(b, e.lost, n, 0);
    } else if e.GossipDue? {
      BroadcastKeeps(b, e.now, e.peers, e.states);
    } else if e.HandlerFinished? {
      ReplyIsKept(b, e.request, e.data, r);
    } else {
      QuietHandlerKeepsDeferred(b, e, r, n, to);
    }
  }

  function AddressOf(c: State, n: NodeId): Address {
    if n in c.nodes then c.nodes[n].config.address else ""
  }

  lemma ActorKeepsDeferred(c: State, b: NodeId, e: Event, r: Effect, c': State, n: NodeId)
    requires ClusterInvariant.Inv(c) && Acts(c, b, e, r, c') && n in c.nodes
    ensures KeepsDeferred(c.nodes[b], r, n, AddressOf(c, n)) && AddressOf(c', n) == AddressOf(c, n)
  {
    assert NodeAt(c, b);
    if e.Received? && e.m.Gossip? {
      GossipIsGenuine(c, Packet(c.nodes[b].config.address, e.m));
    }
    HandlerKeepsDeferred(c.nodes[b], e, r, n, AddressOf(c, n));
    ClusterGrows(c, b, e, r, c');
    assert GrowsAt(c, c', n);
  }

  // ---- no reply is lost ----

  function ReplyOf(c: State, b: NodeId, x: Answer): Packet {
    ReplyTo(AddressOf(c, x.requester), b, x.requester, Reply(x.requester, x.request, x.data))
  }

  /** A reply with this answer is under way to the requester, or waits for it. */
  ghost predicate ReplyExists(c: State, b: NodeId, x: Answer)
    requires b in c.nodes
  {
    || ReplyOf(c, b, x) in c.net
    || (x.requester in c.nodes[b].deferred && Reply(x.requester, x.request, x.data) in c.nodes[b].deferred[x.requester])
  }

  ghost predicate ReplyAt(c: State, b: NodeId, x: Answer) {
    b in c.nodes && x in c.nodes[b].past.answers ==> x.requester in c.nodes && ReplyExists(c, b, x)
  }

  ghost predicate RepliesKept(c: State) {
    forall b, x :: ReplyAt(c, b, x)
  }

  lemma OldReplyKept(c: State, n: NodeId, e: Event, r: Effect, c': State, x: Answer)
    requires ClusterInvariant.Inv(c) && Acts(c, n, e, r, c') && x.requester in c.nodes && ReplyExists(c, n, x)
    ensures ReplyExists(c', n, x)
  {
    var b, reply := c.nodes[n], Reply(x.requester, x.request, x.data);
    assert NodeAt(c, n);
    ActorKeepsDeferred(c, n, e, r, c', x.requester);
    if ReplyOf(c, n, x) !in c.net {
      var i :| 0 <= i < |b.deferred[x.requester]| && b.deferred[x.requester][i] == reply;
      if x.requester in r.broker.deferred {
        assert r.broker.deferred[x.requester][i] == reply;
      }
    }
  }

  lemma NewAnswerIsOfHandler(b: Broker, e: Event, r: Effect, x: Answer)
    requires BrokerInvariant.Inv(b) && Does(b, e, r) && x in r.broker.past.answers && x !in b.past.answers
    requires e.GossipDue? ==> b.table[b.self].lastSeen <= e.now
    ensures e.HandlerFinished? && x == Answer(e.request.0, e.request.1, e.request.2, e.data)
  {
    if IsTameEvent(e) {
      TameEvent(b, e, r);
    }
  }

  lemma NewReplyKept(c: State, n: NodeId, e: Event, r: Effect, c': State, x: Answer)
    requires ClusterInvariant.Inv(c) && Acts(c, n, e, r, c')
    requires x in r.broker.past.answers && x !in c.nodes[n].past.answers
    ensures x.requester in c'.nodes && ReplyExists(c', n, x)
  {
    var b := c.nodes[n];
    assert NodeAt(c, n);
    NewAnswerIsOfHandler(b, e, r, x);
    assert HandlingAt(c, b, e.request);
    ReplyIsKept(b, e.request, e.data, r);
    ActorKeepsDeferred(c, n, e, r, c', x.requester);
    if x.requester in b.sockets {
      SocketLeadsHome(c, b, x.requester);
      assert r.sends[0] == ReplyOf(c', n, x);
    }
  }

  lemma ActKeepsReplies(c: State, n: NodeId, e: Event, r: Effect, c': State)
    requires ClusterInvariant.Inv(c) && RepliesKept(c) && Acts(c, n, e, r, c')
    ensures RepliesKept(c')
  {
    forall b, x ensures ReplyAt(c', b, x) {
      assert ReplyAt(c, b, x);
      if b in c.nodes && x in c.nodes[b].past.answers {
        ActorKeepsDeferred(c, n, e, r, c', x.requester);
        if b == n {
          OldReplyKept(c, n, e, r, c', x);
        }
      } else if b == n && x in r.broker.past.answers {
        NewReplyKept(c, n, e, r, c', x);
      }
    }
  }

  lemma StepKeepsReplies(c: State, c': State)
    requires ClusterInvariant.Inv(c) && RepliesKept(c) && Step(c, c')
    ensures RepliesKept(c')
  {
    if n: NodeId, e, r :| Acts(c, n, e, r, c') {
      ActKeepsReplies(c, n, e, r, c');
    } else {
      forall b, x ensures ReplyAt(c', b, x) {
        assert ReplyAt(c, b, x);
      }
    }
  }

  lemma RepliesAlwaysKept(run: seq<State>, i: nat)
    requires IsRun(run) && i < |run|
    ensures RepliesKept(run[i])
  {
    forall c | Init(c) ensures ClusterInvariant.Inv(c) && RepliesKept(c) {
      InitHolds(c);
    }
    forall c, c' | ClusterInvariant.Inv(c) && RepliesKept(c) && Step(c, c')
      ensures ClusterInvariant.Inv(c') && RepliesKept(c')
    {
      StepKeeps(c, c');
      StepKeepsReplies(c, c');
    }
    Runs.Invariant(Protocol(), c => ClusterInvariant.Inv(c) && RepliesKept(c), run, i);
  }

  /** No reply is lost: for every answer that a handler produced, a reply with its data is under way to
      the requester's address, or waits at the node for the requester to be discovered. */
  lemma EveryAnswerIsReplied(run: seq<State>, i: nat, b: NodeId, x: Answer)
    requires IsRun(run) && i < |run| && b in run[i].nodes && x in run[i].nodes[b].past.answers
    ensures x.requester in run[i].nodes
    ensures || Packet(run[i].nodes[x.requester].config.address, TwoWay(x.requester, b, x.request, x.data)) in run[i].net
            || (x.requester in run[i].nodes[b].deferred
                && Reply(x.requester, x.request, x.data) in run[i].nodes[b].deferred[x.requester])
  {
    RepliesAlwaysKept(run, i);
    assert ReplyAt(run[i], b, x);
  }

  /** Every one of these replies is under way to node n. */
  ghost predicate AllUnderWay(c: State, b: NodeId, n: NodeId, replies: seq<Reply>) {
    n in c.nodes && forall j :: 0 <= j < |replies| ==>
      Packet(c.nodes[n].config.address, TwoWay(n, b, replies[j].request, replies[j].data)) in c.net
  }

  lemma DeferredForKnown(c: State, b: NodeId, n: NodeId)
    requires ClusterInvariant.Inv(c) && b in c.nodes && n in c.nodes[b].deferred
    ensures n in c.nodes
  {
    assert NodeAt(c, b);
    assert DeferredFor(n, c.nodes[b].deferred[n]) && DeferredAt(c, c.nodes[b], n, 0);
  }

  lemma ActGrowsDeferred(c: State, b: NodeId, e: Event, r: Effect, c': State, n: NodeId)
    requires ClusterInvariant.Inv(c) && Acts(c, b, e, r, c') && n in c.nodes[b].deferred
    ensures if n in r.broker.deferred then c.nodes[b].deferred[n] <= r.broker.deferred[n]
            else AllUnderWay(c', b, n, c.nodes[b].deferred[n])
  {
    assert NodeAt(c, b);
    DeferredForKnown(c, b, n);
    ActorKeepsDeferred(c, b, e, r, c', n);
    ClusterGrows(c, b, e, r, c');
    assert GrowsAt(c, c', n);
    if n !in r.broker.deferred {
      var before := c.nodes[b].deferred[n];
      forall j | 0 <= j < |before| ensures ReplyTo(AddressOf(c, n), b, n, before[j]) in c'.net {
      }
    }
  }

  lemma StepGrowsDeferred(c: State, c': State, b: NodeId, n: NodeId)
    requires ClusterInvariant.Inv(c) && Step(c, c') && b in c.nodes && n in c.nodes[b].deferred
    ensures b in c'.nodes
    ensures if n in c'.nodes[b].deferred then c.nodes[b].deferred[n] <= c'.nodes[b].deferred[n]
            else AllUnderWay(c', b, n, c.nodes[b].deferred[n])
  {
    if m: NodeId, e, r :| Acts(c, m, e, r, c') {
      if m == b {
        ActGrowsDeferred(c, b, e, r, c', n);
      }
    }
  }

  /** The replies that wait for a node only grow at their end, until all of them are sent to it. */
  lemma DeferredGrowUntilFlushed(run: seq<State>, i: nat, b: NodeId, n: NodeId)
    requires IsRun(run) && i + 1 < |run| && b in run[i].nodes && n in run[i].nodes[b].deferred
    ensures b in run[i + 1].nodes
    ensures if n in run[i + 1].nodes[b].deferred then run[i].nodes[b].deferred[n] <= run[i + 1].nodes[b].deferred[n]
            else AllUnderWay(run[i + 1], b, n, run[i].nodes[b].deferred[n])
  {
    EveryStateOk(run, i);
    assert Protocol().next(run[i], run[i + 1]);
    StepGrowsDeferred(run[i], run[i + 1], b, n);
  }
}
