/** What every run of a cluster guarantees. */
module ClusterSafety {
  import opened Options
  import opened BrokerModel
  import opened BrokerInvariant
  import opened ClusterProtocol
  import opened ClusterInvariant
  import Runs

  // ---- what a broker may rely on ----

  /** A socket leads to the node it was opened for. */
  lemma SocketLeadsHome(c: State, b: Broker, m: NodeId)
    requires SocketsOk(b) && HeardOk(b) && HeardGenuine(c, b) && m in b.sockets
    ensures m in c.nodes && m != b.self && b.sockets[m] == c.nodes[m].config.address
  {
    assert b.table[m] in b.past.heard;
    assert HeardAt(c, b, b.table[m]);
  }

  /** A packet for this node that names it as the requester is a reply of its responder, unless the
      two share an address. */
  lemma ReplyIsAnswer(c: State, n: NodeId, b: NodeId, id: RequestId, data: Payload)
    requires ClusterInvariant.Inv(c) && n in c.nodes
    requires Packet(c.nodes[n].config.address, TwoWay(n, b, id, data)) in c.net
    ensures AnsweredUnlessNear(c, n, b, id, data)
  {
    assert PacketAt(c, Packet(c.nodes[n].config.address, TwoWay(n, b, id, data)));
  }

  /** A packet for a running node that names it only as the responder is a request of its requester:
      a reply would be for a node at the same address, which sent nothing while this one was up. */
  lemma RequestIsAsked(c: State, n: NodeId, a: NodeId, id: RequestId, data: Payload)
    requires ClusterInvariant.Inv(c) && n in c.nodes && n !in c.down && a != n
    requires Packet(c.nodes[n].config.address, TwoWay(a, n, id, data)) in c.net
    ensures Asked(c, a, n, id, data)
  {
    assert IssuedAt(c, a, id);
    assert PacketAt(c, Packet(c.nodes[n].config.address, TwoWay(a, n, id, data)));
  }

  // ---- the acting broker grows ----

  ghost predicate IsTameEvent(e: Event) {
    e.WaitBegun? || e.WaitResumed? || e.GossipDue? || e.HeartbeatDue? || e.WaitersDue?
    || (e.Received? && e.m.Gossip?)
  }

  function News(b: Broker, e: Event): set<NodeState> {
    match e
    case Received(m) => if m.Gossip? then SetOf(m.states) else {}
    case GossipDue(now, peers, states) => if b.self in b.table then {b.table[b.self].(lastSeen := now)} else {}
    case _ => {}
  }

  lemma StampIsTame(b: Broker, now: nat)
    requires b.self in b.table && b.table[b.self].lastSeen <= now
    ensures Tame(b, Stamp(b, now), {b.table[b.self].(lastSeen := now)})
  {
  }

  lemma BroadcastIsTame(b: Broker, now: nat, peers: seq<NodeId>, states: seq<NodeState>)
    requires BrokerInvariant.Inv(b) && PicksPeers(b, peers) && b.table[b.self].lastSeen <= now
    ensures Tame(b, Broadcast(b, now, peers, states).broker, {b.table[b.self].(lastSeen := now)})
  {
    BroadcastKeeps(b, now, peers, states);
    StampIsTame(b, now);
  }

  lemma WaitingIsTame(b: Broker, e: Event, r: Effect)
    requires Does(b, e, r) && (e.WaitBegun? || e.WaitResumed? || e.WaitersDue?)
    ensures Tame(b, r.broker, {})
  {
  }

  lemma TameEvent(b: Broker, e: Event, r: Effect)
    requires BrokerInvariant.Inv(b) && Does(b, e, r) && IsTameEvent(e)
    requires e.GossipDue? ==> b.table[b.self].lastSeen <= e.now
    ensures Tame(b, r.broker, News(b, e))
  {
    match e
    case Received(m) => LearnAllIsTame(b, m.states);
    case GossipDue(now, peers, states) =>
      BroadcastIsTame(b, now, peers, states);
    case HeartbeatDue(now, lost) => LostIsTame(b, lost);
    case _ => WaitingIsTame(b, e, r);
  }

  lemma OtherEventGrows(b: Broker, e: Event, r: Effect)
    requires (forall id :: id in b.past.issued ==> id < b.nextRequest) && Does(b, e, r) && !IsTameEvent(e)
    ensures BrokerGrows(b, r.broker)
  {
  }

  lemma ActorGrows(b: Broker, e: Event, r: Effect)
    requires BrokerInvariant.Inv(b) && Does(b, e, r)
    requires e.GossipDue? ==> b.table[b.self].lastSeen <= e.now
    ensures BrokerInvariant.Inv(r.broker) && BrokerGrows(b, r.broker)
  {
    DoesKeeps(b, e, r);
    if IsTameEvent(e) {
      TameEvent(b, e, r);
    } else {
      OtherEventGrows(b, e, r);
    }
  }

  lemma ClusterGrows(c: State, n: NodeId, e: Event, r: Effect, c': State)
    requires ClusterInvariant.Inv(c) && Acts(c, n, e, r, c')
    ensures Grows(c, c') && BrokerInvariant.Inv(r.broker) && BrokerGrows(c.nodes[n], r.broker)
  {
    assert NodeAt(c, n);
    ActorGrows(c.nodes[n], e, r);
    forall m ensures GrowsAt(c, c', m) {
      assert NodeAt(c, m);
    }
  }

  // ---- the acting broker stays honest ----

  lemma GossipIsGenuine(c: State, p: Packet)
    requires ClusterInvariant.Inv(c) && p in c.net && p.message.Gossip?
    ensures forall i :: 0 <= i < |p.message.states| ==> Genuine(c, p.message.states[i])
  {
    assert PacketAt(c, p);
  }

  lemma OwnEntryIsGenuine(c: State, b: Broker)
    requires SocketsOk(b) && HeardOk(b) && HeardGenuine(c, b)
    ensures Genuine(c, b.table[b.self])
  {
    assert b.table[b.self] in b.past.heard;
    assert HeardAt(c, b, b.table[b.self]);
  }

  lemma NewsIsGenuine(c: State, n: NodeId, e: Event, r: Effect, c': State, s: NodeState)
    requires ClusterInvariant.Inv(c) && Acts(c, n, e, r, c') && IsTameEvent(e) && s in News(c.nodes[n], e)
    requires Grows(c, c')
    ensures Genuine(c', s)
  {
    var b := c.nodes[n];
    if e.Received? {
      GossipIsGenuine(c, Packet(b.config.address, e.m));
      GenuineStays(c, c', s);
    } else {
      assert NodeAt(c, n);
      OwnEntryIsGenuine(c, b);
      GenuineStays(c, c', b.table[n]);
      BroadcastKeeps(b, e.now, e.peers, e.states);
    }
  }

  lemma TameActorOk(c: State, n: NodeId, e: Event, r: Effect, c': State)
    requires ClusterInvariant.Inv(c) && Acts(c, n, e, r, c') && IsTameEvent(e)
    requires Grows(c, c') && BrokerOk(c', c.nodes[n])
    ensures BrokerOk(c', r.broker)
  {
    var b := c.nodes[n];
    assert NodeAt(c, n);
    TameEvent(b, e, r);
    forall s | s in News(b, e) ensures Genuine(c', s) {
      NewsIsGenuine(c, n, e, r, c', s);
    }
    TameKeeps(c', b, r.broker, News(b, e));
  }

  /** The parts of BrokerOk that depend only on fields r shares with b. */
  lemma HeardShared(c: State, b: Broker, r: Broker)
    requires HeardGenuine(c, b) && r.past.heard == b.past.heard
    ensures HeardGenuine(c, r)
  {
    forall s ensures HeardAt(c, r, s) {
      assert HeardAt(c, b, s);
    }
  }

  lemma RequestsShared(c: State, b: Broker, r: Broker)
    requires HandlingAsked(c, b) && AnswersAsked(c, b) && r.self == b.self
    requires r.handling <= b.handling && r.past.answers == b.past.answers
    ensures HandlingAsked(c, r) && AnswersAsked(c, r)
  {
    forall q ensures HandlingAt(c, r, q) {
      assert HandlingAt(c, b, q);
    }
    forall x ensures AnswerAt(c, r, x) {
      assert AnswerAt(c, b, x);
    }
  }

  lemma DeferredShared(c: State, b: Broker, r: Broker)
    requires DeferredAnswered(c, b) && r.self == b.self && r.deferred == b.deferred
    ensures DeferredAnswered(c, r)
  {
    forall n, i ensures DeferredAt(c, r, n, i) {
      assert DeferredAt(c, b, n, i);
    }
  }

  lemma ResponsesShared(c: State, b: Broker, r: Broker)
    requires ResponsesAnswered(c, b) && r.self == b.self
    requires forall id :: id in r.outstanding && r.outstanding[id].response.Some? ==>
               id in b.outstanding && r.outstanding[id] == b.outstanding[id]
    ensures ResponsesAnswered(c, r)
  {
    forall id ensures ResponseAt(c, r, id) {
      assert ResponseAt(c, b, id);
    }
  }

  lemma CompletionsShared(c: State, b: Broker, r: Broker)
    requires CompletionsAnswered(c, b) && RequestsOk(b) && r.self == b.self && r.past.completed == b.past.completed
    requires forall id :: id in b.past.issued ==> id in r.past.issued && r.past.issued[id] == b.past.issued[id]
    ensures CompletionsAnswered(c, r)
  {
    forall i ensures CompletionAt(c, r, i) {
      assert CompletionAt(c, b, i);
      assert 0 <= i < |b.past.completed| ==> CompletionOk(b, b.past.completed[i]);
    }
  }

  lemma SenderOk(c: State, b: Broker, e: Event, r: Effect)
    requires BrokerOk(c, b) && RequestsOk(b) && Does(b, e, r) && e.RequestSent?
    ensures BrokerOk(c, r.broker)
  {
    HeardShared(c, b, r.broker);
    RequestsShared(c, b, r.broker);
    DeferredShared(c, b, r.broker);
    ResponsesShared(c, b, r.broker);
    CompletionsShared(c, b, r.broker);
  }

  lemma ResponderOk(c: State, b: Broker, id: RequestId, payload: Payload)
    requires BrokerOk(c, b) && RequestsOk(b)
    requires id in b.outstanding ==> AnsweredUnlessNear(c, b.self, b.outstanding[id].target, id, payload)
    ensures BrokerOk(c, HandleResponse(b, id, payload))
  {
    var r := HandleResponse(b, id, payload);
    HeardShared(c, b, r);
    RequestsShared(c, b, r);
    DeferredShared(c, b, r);
    CompletionsShared(c, b, r);
    forall j ensures ResponseAt(c, r, j) {
      assert ResponseAt(c, b, j);
    }
  }

  lemma RequestArrives(c: State, b: Broker, q: (NodeId, RequestId, Payload), r: Broker)
    requires BrokerOk(c, b) && RequestsOk(b) && r == b.(handling := b.handling + multiset{q})
    requires Asked(c, q.0, b.self, q.1, q.2)
    ensures BrokerOk(c, r)
  {
    HeardShared(c, b, r);
    DeferredShared(c, b, r);
    ResponsesShared(c, b, r);
    CompletionsShared(c, b, r);
    forall p ensures HandlingAt(c, r, p) {
      assert HandlingAt(c, b, p);
    }
    forall x ensures AnswerAt(c, r, x) {
      assert AnswerAt(c, b, x);
    }
  }

  lemma ReceiverOk(c: State, n: NodeId, e: Event, r: Effect, c': State)
    requires ClusterInvariant.Inv(c) && Acts(c, n, e, r, c') && e.Received? && e.m.TwoWay?
    requires Grows(c, c') && BrokerOk(c', c.nodes[n])
    ensures BrokerOk(c', r.broker)
  {
    var b, m := c.nodes[n], e.m;
    assert NodeAt(c, n);
    if m.requester == n {
      ReplyIsAnswer(c, n, m.responder, m.request, m.payload);
      AnsweredStays(c, c', n, m.responder, m.request, m.payload);
      AnswerFits(c, b, m);
      ResponderOk(c', b, m.request, m.payload);
    } else if m.responder == n {
      RequestIsAsked(c, n, m.requester, m.request, m.payload);
      AskedStays(c, c', m.requester, n, m.request, m.payload);
      RequestArrives(c', b, (m.requester, m.request, m.payload), r.broker);
    }
  }

  /** The responder of a reply is the target of the request it answers. */
  lemma AnswerFits(c: State, b: Broker, m: Message)
    requires RequestsOk(b) && m.TwoWay? && b.self in c.nodes && c.nodes[b.self] == b
    requires Issued(c, b.self, m.responder, m.request)
    ensures m.request in b.outstanding ==> b.outstanding[m.request].target == m.responder
  {
    assert m.request in b.outstanding ==> RequestOk(b, m.request, b.outstanding[m.request]);
  }

  lemma FinisherOk(c: State, b: Broker, id: RequestId)
    requires BrokerOk(c, b) && RequestsOk(b) && id in b.outstanding && b.outstanding[id].permits <= 0
    ensures BrokerOk(c, ResumeRequest(b, id))
  {
    var r := ResumeRequest(b, id);
    HeardShared(c, b, r);
    RequestsShared(c, b, r);
    DeferredShared(c, b, r);
    ResponsesShared(c, b, r);
    assert RequestOk(b, id, b.outstanding[id]) && ResponseAt(c, b, id);
    forall i ensures CompletionAt(c, r, i) {
      assert CompletionAt(c, b, i);
    }
  }

  /** The handler's answer is on record when its reply leaves or is deferred. */
  lemma HandlerAnswered(c: State, n: NodeId, e: Event, r: Effect, c': State)
    requires ClusterInvariant.Inv(c) && Acts(c, n, e, r, c') && e.HandlerFinished? && Grows(c, c')
    ensures Asked(c', e.request.0, n, e.request.1, e.request.2)
    ensures Answered(c', e.request.0, n, e.request.1, e.data)
  {
    assert NodeAt(c, n);
    assert HandlingAt(c, c.nodes[n], e.request);
    AskedStays(c, c', e.request.0, n, e.request.1, e.request.2);
  }

  lemma AnswererOk(c: State, b: Broker, e: Event, r: Effect)
    requires BrokerOk(c, b) && RequestsOk(b) && Does(b, e, r) && e.HandlerFinished?
    requires Asked(c, e.request.0, b.self, e.request.1, e.request.2)
    requires Answered(c, e.request.0, b.self, e.request.1, e.data)
    ensures BrokerOk(c, r.broker)
  {
    HeardShared(c, b, r.broker);
    ResponsesShared(c, b, r.broker);
    CompletionsShared(c, b, r.broker);
    forall p ensures HandlingAt(c, r.broker, p) {
      assert HandlingAt(c, b, p);
    }
    forall x ensures AnswerAt(c, r.broker, x) {
      assert AnswerAt(c, b, x);
    }
    DeferringOk(c, b, e, r);
  }

  lemma DeferringOk(c: State, b: Broker, e: Event, r: Effect)
    requires DeferredAnswered(c, b) && Does(b, e, r) && e.HandlerFinished?
    requires Answered(c, e.request.0, b.self, e.request.1, e.data)
    ensures DeferredAnswered(c, r.broker)
  {
    forall m, i ensures DeferredAt(c, r.broker, m, i) {
      assert DeferredAt(c, b, m, i);
    }
  }

  lemma ActorOk(c: State, n: NodeId, e: Event, r: Effect, c': State)
    requires ClusterInvariant.Inv(c) && Acts(c, n, e, r, c') && Grows(c, c')
    ensures BrokerOk(c', r.broker)
  {
    assert NodeAt(c, n);
    BrokerStays(c, c', c.nodes[n]);
    if IsTameEvent(e) {
      TameActorOk(c, n, e, r, c');
    } else {
      match e
      case RequestSent(to, data) => SenderOk(c', c.nodes[n], e, r);
      case RequestResumed(id) => FinisherOk(c', c.nodes[n], id);
      case Received(m) => ReceiverOk(c, n, e, r, c');
      case HandlerFinished(request, data) =>
        HandlerAnswered(c, n, e, r, c');
        AnswererOk(c', c.nodes[n], e, r);
    }
  }

  // ---- so do the packets it sends ----

  lemma FlushedOk(c: State, b: Broker, s: NodeState, p: Packet)
    requires DeferredOk(b) && DeferredAnswered(c, b) && Genuine(c, s) && Flushes(b, s, p)
    ensures PacketOk(c, p)
  {
    var i :| 0 <= i < |b.deferred[s.id]| && p == Flushed(b, s, b.deferred[s.id][i]);
    assert DeferredAt(c, b, s.id, i) && DeferredFor(s.id, b.deferred[s.id]);
  }

  lemma GossipSends(b: Broker, now: nat, peers: seq<NodeId>, states: seq<NodeState>, p: Packet)
    requires BrokerInvariant.Inv(b) && PicksPeers(b, peers) && p in Broadcast(b, now, peers, states).sends
    ensures p.message == Gossip(b.self, states)
  {
    ToPeersSends(Stamp(b, now), peers, Gossip(b.self, states));
  }

  lemma GossipOk(c: State, b: Broker, e: Event, r: Effect, p: Packet)
    requires BrokerInvariant.Inv(b) && Does(b, e, r) && e.GossipDue? && p in r.sends && HeardGenuine(c, r.broker)
    ensures PacketOk(c, p)
  {
    GossipSends(b, e.now, e.peers, e.states, p);
    BroadcastKeeps(b, e.now, e.peers, e.states);
    TableGenuine(c, r.broker, e.states);
  }

  lemma TableGenuine(c: State, b: Broker, states: seq<NodeState>)
    requires HeardOk(b) && HeardGenuine(c, b) && ListsTable(b, states)
    ensures forall i :: 0 <= i < |states| ==> Genuine(c, states[i])
  {
    forall i | 0 <= i < |states| ensures Genuine(c, states[i]) {
      assert HeardAt(c, b, states[i]);
    }
  }

  lemma LearnerSends(c: State, n: NodeId, e: Event, r: Effect, p: Packet)
    requires ClusterInvariant.Inv(c) && n in c.nodes && Does(c.nodes[n], e, r) && e.Received? && p in r.sends
    requires Packet(c.nodes[n].config.address, e.m) in c.net
    ensures PacketOk(c, p)
  {
    var b, m := c.nodes[n], e.m;
    assert NodeAt(c, n);
    GossipIsGenuine(c, Packet(b.config.address, m));
    LearnAllIsTame(b, m.states);
    var i :| 0 <= i < |m.states| && Flushes(b, m.states[i], p);
    FlushedOk(c, b, m.states[i], p);
  }

  lemma SentOk(c: State, n: NodeId, e: Event, r: Effect, c': State, p: Packet)
    requires ClusterInvariant.Inv(c) && Acts(c, n, e, r, c') && p in r.sends
    requires Grows(c, c') && BrokerOk(c', r.broker)
    ensures PacketOk(c', p)
  {
    var b := c.nodes[n];
    assert NodeAt(c, n);
    match e
    case RequestSent(to, data) =>
      SocketLeadsHome(c, b, to);
      assert GrowsAt(c, c', to);
    case HandlerFinished(request, data) =>
      HandlerAnswered(c, n, e, r, c');
      SocketLeadsHome(c, b, request.0);
      assert GrowsAt(c, c', request.0);
    case GossipDue(now, peers, states) =>
      GossipOk(c', b, e, r, p);
    case Received(m) =>
      LearnerSends(c, n, e, r, p);
      PacketStays(c, c', p);
    case _ =>
  }

  // ---- addresses ----

  lemma OnlySendingIssues(b: Broker, e: Event, r: Effect, id: RequestId)
    requires BrokerInvariant.Inv(b) && Does(b, e, r) && id in r.broker.past.issued && id !in b.past.issued
    requires e.GossipDue? ==> b.table[b.self].lastSeen <= e.now
    ensures e.RequestSent? && r.broker.past.issued[id].target == e.to && e.to in b.sockets
  {
    if IsTameEvent(e) {
      TameEvent(b, e, r);
    }
  }

  /** Only a node that is up issues requests, so the other node at its address is down. */
  lemma ActKeepsAddresses(c: State, n: NodeId, e: Event, r: Effect, c': State)
    requires ClusterInvariant.Inv(c) && Acts(c, n, e, r, c') && Grows(c, c')
    ensures AddressesOk(c')
  {
    assert NodeAt(c, n);
    forall l, m ensures OneUp(c', l, m) {
      assert OneUp(c, l, m) && GrowsAt(c, c', l) && GrowsAt(c, c', m);
    }
    forall a, id ensures IssuedAt(c', a, id) {
      assert IssuedAt(c, a, id) && GrowsAt(c, c', a);
      if a in c.nodes && id in c'.nodes[a].past.issued {
        var b := c'.nodes[a].past.issued[id].target;
        if id !in c.nodes[a].past.issued {
          OnlySendingIssues(c.nodes[n], e, r, id);
          SocketLeadsHome(c, c.nodes[n], b);
        }
        assert OneUp(c, a, b) && GrowsAt(c, c', b);
      }
    }
  }

  // ---- every step keeps the invariant ----

  lemma ActKeeps(c: State, n: NodeId, e: Event, r: Effect, c': State)
    requires ClusterInvariant.Inv(c) && Acts(c, n, e, r, c')
    ensures ClusterInvariant.Inv(c')
  {
    ClusterGrows(c, n, e, r, c');
    ActorOk(c, n, e, r, c');
    ActKeepsAddresses(c, n, e, r, c');
    forall m ensures NodeAt(c', m) {
      assert NodeAt(c, m);
      if m in c.nodes && m != n {
        BrokerStays(c, c', c.nodes[m]);
      }
    }
    forall p ensures PacketAt(c', p) {
      assert PacketAt(c, p);
      if p in c.net {
        PacketStays(c, c', p);
      } else if p in r.sends {
        SentOk(c, n, e, r, c', p);
      }
    }
  }

  lemma NewcomerOk(c: State, n: NodeId, config: Config, now: nat)
    requires Create(n, config, now).Some? && n in c.nodes && c.nodes[n] == Create(n, config, now).value
    ensures BrokerOk(c, c.nodes[n])
  {
    var b := c.nodes[n];
    forall s ensures HeardAt(c, b, s) {
    }
    forall q ensures HandlingAt(c, b, q) {
    }
    forall x ensures AnswerAt(c, b, x) {
    }
    forall m, i ensures DeferredAt(c, b, m, i) {
    }
    forall id ensures ResponseAt(c, b, id) {
    }
    forall i ensures CompletionAt(c, b, i) {
    }
  }

  lemma JoinKeeps(c: State, n: NodeId, config: Config, now: nat, c': State)
    requires ClusterInvariant.Inv(c) && Joins(c, n, config, now, c')
    ensures ClusterInvariant.Inv(c')
  {
    CreateHolds(n, config, now);
    NewcomerOk(c', n, config, now);
    forall m ensures GrowsAt(c, c', m) {
      assert NodeAt(c, m);
    }
    forall l, m ensures OneUp(c', l, m) {
      assert OneUp(c, l, m);
    }
    forall a, id ensures IssuedAt(c', a, id) {
      assert IssuedAt(c, a, id);
    }
    forall m ensures NodeAt(c', m) {
      assert NodeAt(c, m);
      if m in c.nodes {
        BrokerStays(c, c', c.nodes[m]);
      }
    }
    forall p ensures PacketAt(c', p) {
      assert PacketAt(c, p);
      if p in c.net {
        PacketStays(c, c', p);
      }
    }
  }

  lemma CrashKeeps(c: State, n: NodeId, c': State)
    requires ClusterInvariant.Inv(c) && Crashes(c, n, c')
    ensures ClusterInvariant.Inv(c')
  {
    forall m ensures GrowsAt(c, c', m) {
      assert NodeAt(c, m);
    }
    forall m ensures NodeAt(c', m) {
      assert NodeAt(c, m);
      if m in c.nodes {
        BrokerStays(c, c', c.nodes[m]);
      }
    }
    forall l, m ensures OneUp(c', l, m) {
      assert OneUp(c, l, m);
    }
    forall a, id ensures IssuedAt(c', a, id) {
      assert IssuedAt(c, a, id);
    }
    forall p ensures PacketAt(c', p) {
      assert PacketAt(c, p);
      if p in c.net {
        PacketStays(c, c', p);
      }
    }
  }

  lemma StepKeeps(c: State, c': State)
    requires ClusterInvariant.Inv(c) && Step(c, c')
    ensures ClusterInvariant.Inv(c')
  {
    if n: NodeId, config, now: nat :| Joins(c, n, config, now, c') {
      JoinKeeps(c, n, config, now, c');
    } else if n: NodeId :| Crashes(c, n, c') {
      CrashKeeps(c, n, c');
    } else {
      var n: NodeId, e, r :| Acts(c, n, e, r, c');
      ActKeeps(c, n, e, r, c');
    }
  }

  lemma InitHolds(c: State)
    requires Init(c)
    ensures ClusterInvariant.Inv(c)
  {
    forall n ensures NodeAt(c, n) {
    }
    forall p ensures PacketAt(c, p) {
    }
  }

  lemma EveryStateOk(run: seq<State>, i: nat)
    requires IsRun(run) && i < |run|
    ensures ClusterInvariant.Inv(run[i])
  {
    forall c | Init(c) ensures ClusterInvariant.Inv(c) {
      InitHolds(c);
    }
    forall c, c' | ClusterInvariant.Inv(c) && Step(c, c') ensures ClusterInvariant.Inv(c') {
      StepKeeps(c, c');
    }
    Runs.Invariant(Protocol(), c => ClusterInvariant.Inv(c), run, i);
  }

  // ---- the theorems ----

  /** Request/reply matching: a request that completed normally carries a payload that its target's
      handler produced when it ran on exactly what was sent under this id, whether the reply was sent
      at once or deferred, unless the target listens on the requester's own address; and no request
      completes twice. */
  lemma RepliesMatchRequests(run: seq<State>, i: nat, a: NodeId, j: nat)
    requires IsRun(run) && i < |run| && a in run[i].nodes && j < |run[i].nodes[a].past.completed|
    ensures var past, x := run[i].nodes[a].past, run[i].nodes[a].past.completed[j];
            && x.request in past.issued
            && (forall k :: 0 <= k < |past.completed| && k != j ==> past.completed[k].request != x.request)
            && (x.outcome.Replied? ==>
                  var target := past.issued[x.request].target;
                  && target in run[i].nodes
                  && (run[i].nodes[target].config.address != run[i].nodes[a].config.address ==>
                        Answer(a, x.request, past.issued[x.request].payload, x.outcome.payload)
                        in run[i].nodes[target].past.answers))
            && (x.outcome.NodeLost? ==> x.outcome.node == past.issued[x.request].target)
  {
    EveryStateOk(run, i);
    var b := run[i].nodes[a];
    assert NodeAt(run[i], a);
    assert CompletionOk(b, b.past.completed[j]) && CompletionAt(run[i], b, j);
  }

  /** A handler's answers are answers to requests that were really sent to its node, also among nodes
      that were restarted: a reply is never taken for a request. */
  lemma AnswersAreAskedFor(run: seq<State>, i: nat, b: NodeId, x: Answer)
    requires IsRun(run) && i < |run| && b in run[i].nodes && x in run[i].nodes[b].past.answers
    ensures Asked(run[i], x.requester, b, x.request, x.question)
  {
    EveryStateOk(run, i);
    assert NodeAt(run[i], b);
    assert AnswerAt(run[i], run[i].nodes[b], x);
  }

  /** Beliefs are genuine: whatever a node knows about another carries that node's own address and
      name and is not newer than its own entry; sockets lead where they should. */
  lemma BeliefsAreGenuine(run: seq<State>, i: nat, n: NodeId, m: NodeId)
    requires IsRun(run) && i < |run| && n in run[i].nodes && m in run[i].nodes[n].table
    ensures Genuine(run[i], run[i].nodes[n].table[m]) && run[i].nodes[n].table[m].id == m
    ensures m != n ==> m in run[i].nodes[n].sockets
                       && run[i].nodes[n].sockets[m] == run[i].nodes[m].config.address
  {
    EveryStateOk(run, i);
    var b := run[i].nodes[n];
    assert NodeAt(run[i], n);
    assert b.table[m] in b.past.heard && HeardAt(run[i], b, b.table[m]);
  }

  /** So is everything in a gossip message that is still under way. */
  lemma GossipInFlightIsGenuine(run: seq<State>, i: nat, p: Packet, j: nat)
    requires IsRun(run) && i < |run| && p in run[i].net && p.message.Gossip? && j < |p.message.states|
    ensures Genuine(run[i], p.message.states[j])
  {
    EveryStateOk(run, i);
    GossipIsGenuine(run[i], p);
  }

  lemma GenuineAgrees(c: State, b: Broker, s: NodeState)
    requires BrokerInvariant.Inv(b) && HeardGenuine(c, b) && Genuine(c, s)
    ensures Learn(b, s).error == None && HeardGenuine(c, Learn(b, s).broker)
  {
    if s.id in b.table {
      assert HeardAt(c, b, b.table[s.id]);
    }
    LearnIsTame(b, s);
    forall t ensures HeardAt(c, Learn(b, s).broker, t) {
      assert HeardAt(c, b, t);
    }
    if s.id !in b.table {
      NewNodeJoins(b, s);
    }
  }

  lemma {:induction false} GenuineNeverConflicts(c: State, b: Broker, states: seq<NodeState>)
    requires BrokerInvariant.Inv(b) && HeardGenuine(c, b)
    requires forall i :: 0 <= i < |states| ==> Genuine(c, states[i])
    ensures LearnAll(b, states).error == None
    decreases states
  {
    if states != [] {
      GenuineAgrees(c, b, states[0]);
      LearnKeeps(b, states[0]);
      GenuineNeverConflicts(c, Learn(b, states[0]).broker, states[1..]);
    }
  }

  /** No conflict check fires on a packet a node receives, and nothing reaches a node that is addressed
      to somebody else unless that one listens on the node's address. */
  lemma ChecksNeverFire(run: seq<State>, i: nat, n: NodeId, m: Message, r: Effect)
    requires IsRun(run) && i < |run| && n in run[i].nodes
    requires Packet(run[i].nodes[n].config.address, m) in run[i].net && Does(run[i].nodes[n], Received(m), r)
    ensures m.Gossip? ==> r.error == None
    ensures r.error == None || r.error == Some(NotAddressedHere)
    ensures r.error == Some(NotAddressedHere) ==>
              && m.requester in run[i].nodes && m.responder in run[i].nodes && n != m.requester && n != m.responder
              && run[i].nodes[n].config.address in {run[i].nodes[m.requester].config.address,
                                                    run[i].nodes[m.responder].config.address}
    ensures (forall k :: k in run[i].nodes && k != n ==>
               run[i].nodes[k].config.address != run[i].nodes[n].config.address) ==> r.error == None
  {
    EveryStateOk(run, i);
    assert NodeAt(run[i], n);
    var p := Packet(run[i].nodes[n].config.address, m);
    if m.Gossip? {
      GossipIsGenuine(run[i], p);
      GenuineNeverConflicts(run[i], run[i].nodes[n], m.states);
    } else {
      assert PacketAt(run[i], p);
    }
  }
}
