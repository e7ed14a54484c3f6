/** Requests can be answered: from every reachable state, a request under way to a running node can reach
    its handler, and a request that is still outstanding can complete with whatever the handler answers. */
module ClusterCompletion {
  import opened BrokerHandlers
  import opened BrokerInvariant
  import opened BrokerModel
  import opened ClusterInvariant
  import opened ClusterProtocol
  import opened ClusterReplies
  import opened ClusterRestart
  import opened ClusterSafety
  import opened Options
  import Runs

  // ---- every request was sent ----

  ghost predicate RequestAt(c: State, a: NodeId, id: RequestId) {
    a in c.nodes && id in c.nodes[a].past.issued ==>
      var x := c.nodes[a].past.issued[id];
      x.target in c.nodes && Packet(AddressOf(c, x.target), TwoWay(a, x.target, id, x.payload)) in c.net
  }

  ghost predicate RequestsSent(c: State) {
    forall a, id :: RequestAt(c, a, id)
  }

  lemma ActKeepsSent(c: State, n: NodeId, e: Event, r: Effect, c': State, a: NodeId, id: RequestId)
    requires ClusterInvariant.Inv(c) && RequestAt(c, a, id) && Acts(c, n, e, r, c')
    ensures RequestAt(c', a, id)
  {
    assert NodeAt(c, n);
    ClusterGrows(c, n, e, r, c');
    if a in c.nodes && id in c'.nodes[a].past.issued {
      assert GrowsAt(c, c', a);
      if id !in c.nodes[a].past.issued {
        OnlySendingIssues(c.nodes[n], e, r, id);
        SocketLeadsHome(c, c.nodes[n], e.to);
        RequestGoesOut(c.nodes[n], e.to, e.data, r);
        assert r.sends[0] in PacketsOf(r.sends);
      }
      assert GrowsAt(c, c', c'.nodes[a].past.issued[id].target);
    }
  }

  lemma StepKeepsSent(c: State, c': State)
    requires ClusterInvariant.Inv(c) && RequestsSent(c) && Step(c, c')
    ensures RequestsSent(c')
  {
    forall a, id ensures RequestAt(c', a, id) {
      assert RequestAt(c, a, id);
      if n: NodeId, e, r :| Acts(c, n, e, r, c') {
        ActKeepsSent(c, n, e, r, c', a, id);
      }
    }
  }

  /** Every request that a node has on record is under way to its target's address: the network may repeat
      it at any time. */
  lemma EveryRequestIsSent(run: seq<State>, i: nat, a: NodeId, id: RequestId)
    requires IsRun(run) && i < |run| && a in run[i].nodes && id in run[i].nodes[a].past.issued
    ensures var x := run[i].nodes[a].past.issued[id];
            && x.target in run[i].nodes
            && Packet(run[i].nodes[x.target].config.address, TwoWay(a, x.target, id, x.payload)) in run[i].net
  {
    forall c | Init(c) ensures ClusterInvariant.Inv(c) && RequestsSent(c) {
      InitHolds(c);
    }
    forall c, c' | ClusterInvariant.Inv(c) && RequestsSent(c) && Step(c, c')
      ensures ClusterInvariant.Inv(c') && RequestsSent(c')
    {
      StepKeeps(c, c');
      StepKeepsSent(c, c');
    }
    Runs.Invariant(Protocol(), c => ClusterInvariant.Inv(c) && RequestsSent(c), run, i);
    assert RequestAt(run[i], a, id);
  }

  // ---- the handler runs ----

  /** Nothing has changed but at node n, and all packets are still under way. */
  ghost predicate OnlyAt(c: State, c': State, n: NodeId) {
    && c'.nodes.Keys == c.nodes.Keys && c'.down == c.down && c.net <= c'.net
    && forall k :: k in c.nodes && k != n ==> c'.nodes[k] == c.nodes[k]
  }

  lemma RequestArrives(run: seq<State>, a: NodeId, n: NodeId, id: RequestId, question: Payload) returns (c': State)
    requires IsRun(run) && n in Runs.Last(run).nodes && n !in Runs.Last(run).down && a != n
    requires Packet(Runs.Last(run).nodes[n].config.address, TwoWay(a, n, id, question)) in Runs.Last(run).net
    ensures IsRun(run + [c']) && OnlyAt(Runs.Last(run), c', n) && (a, id, question) in c'.nodes[n].handling
    ensures c'.nodes[n].config == Runs.Last(run).nodes[n].config
  {
    var c, m := Runs.Last(run), TwoWay(a, n, id, question);
    EveryStateOk(run, |run| - 1);
    assert NodeAt(c, n);
    var r := Receive(c.nodes[n], m);
    RequestIsHandled(c.nodes[n], a, id, question, r);
    c' := After(c, n, r);
    ActMore(run, n, Received(m), r);
  }

  lemma HandlerAnswers(run: seq<State>, n: NodeId, q: (NodeId, RequestId, Payload), data: Payload) returns (c': State)
    requires IsRun(run) && n in Runs.Last(run).nodes && n !in Runs.Last(run).down
    requires q in Runs.Last(run).nodes[n].handling
    ensures IsRun(run + [c']) && OnlyAt(Runs.Last(run), c', n)
    ensures Answer(q.0, q.1, q.2, data) in c'.nodes[n].past.answers
    ensures c'.nodes[n].config == Runs.Last(run).nodes[n].config
  {
    var c := Runs.Last(run);
    EveryStateOk(run, |run| - 1);
    assert NodeAt(c, n);
    var r := FinishRequest(c.nodes[n], q, data);
    ReplyIsKept(c.nodes[n], q, data, r);
    c' := After(c, n, r);
    ActMore(run, n, HandlerFinished(q, data), r);
  }

  /** A request that is under way to a running node can set off its handler, and whatever the handler
      answers is on record then. */
  lemma RequestCanBeAnswered(run: seq<State>, a: NodeId, n: NodeId, id: RequestId, question: Payload, data: Payload)
    returns (more: seq<State>)
    requires IsRun(run) && n in Runs.Last(run).nodes && n !in Runs.Last(run).down && a != n
    requires Packet(Runs.Last(run).nodes[n].config.address, TwoWay(a, n, id, question)) in Runs.Last(run).net
    ensures |more| == 2 && IsRun(run + more) && OnlyAt(Runs.Last(run), more[1], n)
    ensures Answer(a, id, question, data) in more[1].nodes[n].past.answers
    ensures more[1].nodes[n].config == Runs.Last(run).nodes[n].config
  {
    var c1 := RequestArrives(run, a, n, id, question);
    var c2 := HandlerAnswers(run + [c1], n, (a, id, question), data);
    more := [c1, c2];
    assert run + more == run + [c1] + [c2];
  }

  // ---- a node makes itself known ----

  /** Some peers, among them a given one. */
  lemma {:induction false} PickSome(from: set<NodeId>, k: nat) returns (peers: seq<NodeId>)
    requires k <= |from|
    ensures |peers| == k && (forall i :: 0 <= i < k ==> peers[i] in from)
    ensures forall i, j :: 0 <= i < j < k ==> peers[i] != peers[j]
    decreases k
  {
    if k == 0 {
      peers := [];
    } else {
      var n :| n in from;
      var rest := PickSome(from - {n}, k - 1);
      peers := [n] + rest;
    }
  }

  lemma PeersWith(b: Broker, n: NodeId) returns (peers: seq<NodeId>)
    requires b.self in b.table && n in b.table && n != b.self && b.config.fanout > 0
    ensures PicksPeers(b, peers) && n in peers
  {
    var others := b.table.Keys - {b.self};
    assert |others| == |b.table| - 1;
    var k := if b.config.fanout < |b.table| - 1 then b.config.fanout else |b.table| - 1;
    assert |others - {n}| == |others| - 1;
    var rest := PickSome(others - {n}, k - 1);
    peers := [n] + rest;
    assert peers[0] == n;
  }

  lemma {:induction false} ListSome(table: map<NodeId, NodeState>, keys: set<NodeId>) returns (states: seq<NodeState>)
    requires keys <= table.Keys && forall n :: n in table ==> table[n].id == n
    ensures |states| == |keys|
    ensures forall i :: 0 <= i < |states| ==> states[i].id in keys && table[states[i].id] == states[i]
    ensures forall n :: n in keys ==> table[n] in states
    decreases |keys|
  {
    if keys == {} {
      states := [];
    } else {
      var n :| n in keys;
      var rest := ListSome(table, keys - {n});
      states := [table[n]] + rest;
      assert states[0] == table[n];
      forall m | m in keys ensures table[m] in states {
        if m != n {
          assert table[m] in rest;
        }
      }
    }
  }

  lemma TableListed(b: Broker) returns (states: seq<NodeState>)
    requires forall n :: n in b.table ==> b.table[n].id == n
    ensures ListsTable(b, states)
  {
    states := ListSome(b.table, b.table.Keys);
  }

  /** Learning of a node, without a conflict, leaves no reply deferred for it. */
  lemma {:induction false} LearningFlushes(b: Broker, states: seq<NodeState>, n: NodeId, i: nat)
    requires BrokerInvariant.Inv(b) && LearnAll(b, states).error == None
    requires i < |states| && states[i].id == n != b.self
    ensures n !in LearnAll(b, states).broker.deferred
    decreases states
  {
    var first := Learn(b, states[0]);
    LearnKeepsDeferred(b, states[0], states[0].id, states[0].address);
    LearnKeeps(b, states[0]);
    if i == 0 {
      LearnAllDefersNothing(first.broker, states[1..], n);
    } else {
      LearningFlushes(first.broker, states[1..], n, i - 1);
    }
  }

  /** Two nodes have what they had, but for news about nodes, and all packets are still under way. */
  ghost predicate OnlyNews(c: State, c': State, a: NodeId) {
    && c'.nodes.Keys == c.nodes.Keys && c'.down == c.down && c.net <= c'.net && a in c.nodes
    && c'.nodes[a].outstanding == c.nodes[a].outstanding && c'.nodes[a].past.completed == c.nodes[a].past.completed
    && c'.nodes[a].config == c.nodes[a].config
  }

  lemma GossipSent(b: Broker, now: nat, peers: seq<NodeId>, states: seq<NodeState>, r: Effect, n: NodeId)
    requires BrokerInvariant.Inv(b) && Does(b, GossipDue(now, peers, states), r) && b.config.fanout > 0
    requires n in b.sockets && n in peers
    ensures Packet(b.sockets[n], Gossip(b.self, states)) in r.sends && r.broker == Stamp(b, now)
    ensures exists i: nat :: i < |states| && states[i].id == b.self
  {
    BroadcastKeeps(b, now, peers, states);
    GossipGoesOut(b, now, peers, states, r);
    var k :| 0 <= k < |peers| && peers[k] == n;
    assert r.sends[k] == Packet(b.sockets[n], Gossip(b.self, states));
    var own := r.broker.table[b.self];
    assert own in states && own.id == b.self;
    var i :| 0 <= i < |states| && states[i] == own;
  }

  /** A gossip round that goes to a given node, and what it says about the sender. */
  lemma GossipTo(b: Broker, n: NodeId) returns (e: Event, r: Effect, states: seq<NodeState>, i: nat)
    requires BrokerInvariant.Inv(b) && n in b.sockets && b.config.fanout > 0
    ensures e.GossipDue? && e.now == b.table[b.self].lastSeen && Does(b, e, r) && r.broker == Stamp(b, e.now)
    ensures Packet(b.sockets[n], Gossip(b.self, states)) in r.sends
    ensures i < |states| && states[i].id == b.self
  {
    var now := b.table[b.self].lastSeen;
    var peers := PeersWith(b, n);
    StampKeeps(b, now);
    states := TableListed(Stamp(b, now));
    e, r := GossipDue(now, peers, states), Broadcast(b, now, peers, states);
    GossipSent(b, now, peers, states, r, n);
    i :| i < |states| && states[i].id == b.self;
  }

  /** Node a tells node b, whom it knows, of itself. */
  lemma Tells(run: seq<State>, a: NodeId, b: NodeId) returns (c': State, states: seq<NodeState>, i: nat)
    requires IsRun(run) && a in Runs.Last(run).nodes && a !in Runs.Last(run).down
    requires b in Runs.Last(run).nodes[a].sockets && Runs.Last(run).nodes[a].config.fanout > 0
    ensures IsRun(run + [c']) && OnlyNews(Runs.Last(run), c', a) && b in c'.nodes
    ensures b != a && c'.nodes[b] == Runs.Last(run).nodes[b]
    ensures i < |states| && states[i].id == a && Packet(c'.nodes[b].config.address, Gossip(a, states)) in c'.net
  {
    var c := Runs.Last(run);
    OwnSocket(run, a, b);
    EveryStateOk(run, |run| - 1);
    assert NodeAt(c, a);
    var e, r;
    e, r, states, i := GossipTo(c.nodes[a], b);
    c' := After(c, a, r);
    ActMore(run, a, e, r);
  }

  lemma HearingFlushes(c: State, a: NodeId, b: NodeId, states: seq<NodeState>, i: nat, reply: Reply)
    returns (r: Effect)
    requires ClusterInvariant.Inv(c) && a in c.nodes && b in c.nodes && a != b && i < |states| && states[i].id == a
    requires Packet(c.nodes[b].config.address, Gossip(a, states)) in c.net
    requires a in c.nodes[b].deferred && reply in c.nodes[b].deferred[a]
    ensures Does(c.nodes[b], Received(Gossip(a, states)), r) && ReplyTo(AddressOf(c, a), b, a, reply) in r.sends
  {
    r := LearnAll(c.nodes[b], states);
    assert NodeAt(c, b);
    GossipIsGenuine(c, Packet(c.nodes[b].config.address, Gossip(a, states)));
    GenuineNeverConflicts(c, c.nodes[b], states);
    LearningFlushes(c.nodes[b], states, a, i);
    LearnAllKeepsDeferred(c.nodes[b], states, a, AddressOf(c, a));
  }

  /** A node that hears of another sends it whatever it had deferred for it. */
  lemma Hears(run: seq<State>, a: NodeId, b: NodeId, states: seq<NodeState>, i: nat, reply: Reply)
    returns (c': State)
    requires IsRun(run) && a in Runs.Last(run).nodes && b in Runs.Last(run).nodes && a != b
    requires b !in Runs.Last(run).down && i < |states| && states[i].id == a
    requires Packet(Runs.Last(run).nodes[b].config.address, Gossip(a, states)) in Runs.Last(run).net
    requires a in Runs.Last(run).nodes[b].deferred && reply in Runs.Last(run).nodes[b].deferred[a]
    ensures IsRun(run + [c']) && OnlyNews(Runs.Last(run), c', a)
    ensures ReplyTo(c'.nodes[a].config.address, b, a, reply) in c'.net
  {
    var c := Runs.Last(run);
    EveryStateOk(run, |run| - 1);
    var r := HearingFlushes(c, a, b, states, i, reply);
    c' := After(c, b, r);
    ActMore(run, b, Received(Gossip(a, states)), r);
  }

  // ---- the reply arrives ----

  /** A reply to an outstanding request that is under way can complete it. */
  lemma ReplyCanComplete(run: seq<State>, a: NodeId, b: NodeId, id: RequestId, data: Payload)
    returns (more: seq<State>)
    requires IsRun(run) && a in Runs.Last(run).nodes && a !in Runs.Last(run).down
    requires id in Runs.Last(run).nodes[a].outstanding && !Runs.Last(run).nodes[a].outstanding[id].failed
    requires Packet(Runs.Last(run).nodes[a].config.address, TwoWay(a, b, id, data)) in Runs.Last(run).net
    ensures |more| == 2 && IsRun(run + more) && a in more[1].nodes
    ensures more[1].nodes[a].past.completed
         == Runs.Last(run).nodes[a].past.completed + [Completion(id, Replied(data))]
  {
    var c := Runs.Last(run);
    EveryStateOk(run, |run| - 1);
    assert NodeAt(c, a);
    var m := TwoWay(a, b, id, data);
    var received := Receive(c.nodes[a], m);
    ResponseCompletes(c.nodes[a], b, id, data, received);
    var c1 := After(c, a, received);
    ActMore(run, a, Received(m), received);
    var resumed := Effect(ResumeRequest(received.broker, id), [], None);
    var c2 := After(c1, a, resumed);
    ActMore(run + [c1], a, RequestResumed(id), resumed);
    more := [c1, c2];
    assert run + more == run + [c1] + [c2];
  }

  lemma DeferredCanArrive(run: seq<State>, a: NodeId, b: NodeId, reply: Reply) returns (more: seq<State>)
    requires IsRun(run) && a in Runs.Last(run).nodes && a !in Runs.Last(run).down && b !in Runs.Last(run).down
    requires b in Runs.Last(run).nodes[a].sockets && Runs.Last(run).nodes[a].config.fanout > 0
    requires b in Runs.Last(run).nodes
    requires a in Runs.Last(run).nodes[b].deferred && reply in Runs.Last(run).nodes[b].deferred[a]
    ensures |more| == 2 && IsRun(run + more) && OnlyNews(Runs.Last(run), more[1], a)
    ensures ReplyTo(more[1].nodes[a].config.address, b, a, reply) in more[1].net
  {
    var c1, states, i := Tells(run, a, b);
    var c2 := Hears(run + [c1], a, b, states, i, reply);
    more := [c1, c2];
    assert run + more == run + [c1] + [c2];
  }

  /** A request that is outstanding and not signalled, between running nodes at different addresses, can
      complete with whatever its target's handler answers: also when the target does not know the
      requester yet. */
  lemma RequestCanComplete(run: seq<State>, a: NodeId, id: RequestId, data: Payload) returns (more: seq<State>)
    requires IsRun(run) && a in Runs.Last(run).nodes && a !in Runs.Last(run).down
    requires Runs.Last(run).nodes[a].config.fanout > 0 && id in Runs.Last(run).nodes[a].outstanding
    requires Runs.Last(run).nodes[a].outstanding[id].permits > 0
    requires Runs.Last(run).nodes[a].outstanding[id].target !in Runs.Last(run).down
    ensures IsRun(run + more) && more != [] && a in Runs.Last(more).nodes
    ensures Runs.Last(more).nodes[a].past.completed
         == Runs.Last(run).nodes[a].past.completed + [Completion(id, Replied(data))]
  {
    var c := Runs.Last(run);
    EveryStateOk(run, |run| - 1);
    assert NodeAt(c, a);
    assert RequestOk(c.nodes[a], id, c.nodes[a].outstanding[id]);
    var b := c.nodes[a].outstanding[id].target;
    SocketLeadsHome(c, c.nodes[a], b);
    EveryRequestIsSent(run, |run| - 1, a, id);
    var question := c.nodes[a].past.issued[id].payload;
    var answered := RequestCanBeAnswered(run, a, b, id, question, data);
    var run2 := run + answered;
    assert Runs.Last(run2) == answered[1];
    EveryAnswerIsReplied(run2, |run2| - 1, b, Answer(a, id, question, data));
    if Packet(c.nodes[a].config.address, TwoWay(a, b, id, data)) in answered[1].net {
      var done := ReplyCanComplete(run2, a, b, id, data);
      more := answered + done;
      assert run + more == run2 + done;
    } else {
      var told := DeferredCanArrive(run2, a, b, Reply(a, id, data));
      assert Runs.Last(run2 + told) == told[1];
      var done := ReplyCanComplete(run2 + told, a, b, id, data);
      more := answered + told + done;
      assert run + more == run2 + told + done;
    }
  }
}
