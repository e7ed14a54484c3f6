/** Two nodes at one address: a node that crashed and was restarted has a new id and its old address, and
    others may still believe in its predecessor. Exactly then a request can be taken for its own reply, and
    packets for the predecessor fail the address check. */
module ClusterRestart {
  import opened Options
  import opened BrokerModel
  import opened BrokerInvariant
  import opened ClusterProtocol
  import opened ClusterInvariant
  import opened ClusterSafety
  import Runs

  // ---- continuing a run ----

  lemma OneMore(run: seq<State>, c': State)
    requires IsRun(run) && Step(Runs.Last(run), c')
    ensures IsRun(run + [c'])
  {
    Runs.OneMore(Protocol(), run, c');
  }

  function After(c: State, n: NodeId, r: Effect): State {
    State(c.nodes[n := r.broker], c.down, c.net + PacketsOf(r.sends))
  }

  lemma ActMore(run: seq<State>, n: NodeId, e: Event, r: Effect)
    requires IsRun(run) && Acts(Runs.Last(run), n, e, r, After(Runs.Last(run), n, r))
    ensures IsRun(run + [After(Runs.Last(run), n, r)])
  {
    OneMore(run, After(Runs.Last(run), n, r));
  }

  ghost predicate KeptBy(c: State, c': State) {
    forall n :: n in c.nodes ==> n in c'.nodes && BrokerGrows(c.nodes[n], c'.nodes[n])
  }

  lemma StepGrows(c: State, c': State)
    requires ClusterInvariant.Inv(c) && Step(c, c')
    ensures KeptBy(c, c')
  {
    if n: NodeId, e, r :| Acts(c, n, e, r, c') {
      ClusterGrows(c, n, e, r, c');
      forall m | m in c.nodes ensures m in c'.nodes && BrokerGrows(c.nodes[m], c'.nodes[m]) {
        assert GrowsAt(c, c', m);
      }
    }
  }

  ghost function Kept(): (State, State) -> bool {
    (c, c') => KeptBy(c, c')
  }

  lemma KeptChain(c: State, mid: State, c': State)
    requires KeptBy(c, mid) && KeptBy(mid, c')
    ensures KeptBy(c, c')
  {
    forall n | n in c.nodes ensures n in c'.nodes && BrokerGrows(c.nodes[n], c'.nodes[n]) {
      assert BrokerGrows(c.nodes[n], mid.nodes[n]) && BrokerGrows(mid.nodes[n], c'.nodes[n]);
    }
  }

  lemma KeptIsAnOrder()
    ensures Runs.Order(Kept())
  {
    forall c ensures KeptBy(c, c) {
    }
    forall c, mid, c' | KeptBy(c, mid) && KeptBy(mid, c') ensures KeptBy(c, c') {
      KeptChain(c, mid, c');
    }
  }

  /** Addresses, issued requests and answers on record stay as they are. */
  lemma RunGrows(run: seq<State>, i: nat, j: nat)
    requires IsRun(run) && i <= j < |run|
    ensures KeptBy(run[i], run[j])
  {
    forall c | Init(c) ensures ClusterInvariant.Inv(c) {
      InitHolds(c);
    }
    forall c, c' | ClusterInvariant.Inv(c) && Step(c, c') ensures ClusterInvariant.Inv(c') && KeptBy(c, c') {
      StepKeeps(c, c');
      StepGrows(c, c');
    }
    KeptIsAnOrder();
    Runs.Monotone(Protocol(), c => ClusterInvariant.Inv(c), Kept(), run, i, j);
  }

  // ---- a request to the own address ----

  /** A socket leads to the own address exactly if its node listens there too. */
  lemma OwnSocket(run: seq<State>, a: NodeId, to: NodeId)
    requires IsRun(run) && a in Runs.Last(run).nodes && to in Runs.Last(run).nodes[a].sockets
    ensures to in Runs.Last(run).nodes && to != a
    ensures Runs.Last(run).nodes[a].sockets[to] == Runs.Last(run).nodes[to].config.address
  {
    EveryStateOk(run, |run| - 1);
    assert NodeAt(Runs.Last(run), a);
    SocketLeadsHome(Runs.Last(run), Runs.Last(run).nodes[a], to);
  }

  lemma NextIsUnanswered(run: seq<State>, a: NodeId, to: NodeId)
    requires IsRun(run) && a in Runs.Last(run).nodes && to in Runs.Last(run).nodes
    ensures forall x :: x in Runs.Last(run).nodes[to].past.answers ==>
              x.requester != a || x.request != Runs.Last(run).nodes[a].nextRequest
  {
    EveryStateOk(run, |run| - 1);
    var c := Runs.Last(run);
    assert NodeAt(c, a) && NodeAt(c, to);
    forall x | x in c.nodes[to].past.answers ensures x.requester != a || x.request != c.nodes[a].nextRequest {
      assert AnswerAt(c, c.nodes[to], x);
    }
  }

  /** A request to the own address can come back at once and be taken for its own reply. */
  lemma RequestEchoes(run: seq<State>, a: NodeId, to: NodeId, data: Payload) returns (more: seq<State>)
    requires IsRun(run) && a in Runs.Last(run).nodes && to in Runs.Last(run).nodes[a].sockets
    requires a !in Runs.Last(run).down
    requires Runs.Last(run).nodes[a].sockets[to] == Runs.Last(run).nodes[a].config.address
    ensures |more| == 3 && IsRun(run + more)
    ensures Sends(Runs.Last(run), a, to, data, more[0])
    ensures forall n :: n in Runs.Last(run).nodes && n != a ==>
              n in more[2].nodes && more[2].nodes[n] == Runs.Last(run).nodes[n]
    ensures a in more[2].nodes && !Matched(more[2], a, Runs.Last(run).nodes[a].nextRequest)
    ensures more[2].nodes[a].past.completed
         == Runs.Last(run).nodes[a].past.completed + [Completion(Runs.Last(run).nodes[a].nextRequest, Replied(data))]
    ensures more[2].nodes[a].past.issued
         == Runs.Last(run).nodes[a].past.issued[Runs.Last(run).nodes[a].nextRequest := Issue(to, data)]
  {
    OwnSocket(run, a, to);
    NextIsUnanswered(run, a, to);
    EveryStateOk(run, |run| - 1);
    var c := Runs.Last(run);
    assert NodeAt(c, a);
    var b, id := c.nodes[a], c.nodes[a].nextRequest;
    var m := TwoWay(a, to, id, data);
    var sent := SendRequest(b, to, data);
    var c1 := After(c, a, sent);
    ActMore(run, a, RequestSent(to, data), sent);
    assert sent.sends[0] == Packet(b.config.address, m);
    var received := Receive(sent.broker, m);
    var c2 := After(c1, a, received);
    ActMore(run + [c1], a, Received(m), received);
    var resumed := Effect(ResumeRequest(received.broker, id), [], None);
    var c3 := After(c2, a, resumed);
    ActMore(run + [c1] + [c2], a, RequestResumed(id), resumed);
    more := [c1, c2, c3];
    assert run + more == run + [c1] + [c2] + [c3];
    assert c3.nodes[a].past.completed[|b.past.completed|] == Completion(id, Replied(data));
  }

  /** Every normal completion of a request carries an answer of its target to it. */
  ghost predicate Matched(c: State, a: NodeId, id: RequestId)
    requires a in c.nodes
  {
    forall x :: x in c.nodes[a].past.completed && x.request == id && x.outcome.Replied? ==>
      && id in c.nodes[a].past.issued
      && Answered(c, a, c.nodes[a].past.issued[id].target, id, x.outcome.payload)
  }

  ghost predicate Sends(c: State, a: NodeId, to: NodeId, data: Payload, c': State) {
    a in c.nodes && Acts(c, a, RequestSent(to, data), SendRequest(c.nodes[a], to, data), c')
  }

  /** A continuation in which the request is sent at once. */
  ghost predicate Continues(run: seq<State>, a: NodeId, to: NodeId, data: Payload, more: seq<State>)
    requires run != []
  {
    more != [] && IsRun(run + more) && Sends(Runs.Last(run), a, to, data, more[0])
  }

  lemma SendingIssues(c: State, a: NodeId, to: NodeId, data: Payload, c': State)
    requires ClusterInvariant.Inv(c) && Sends(c, a, to, data, c')
    requires to in c.nodes[a].sockets && to in c.nodes && to != a
    ensures Issued(c', a, to, c.nodes[a].nextRequest)
    ensures c'.nodes[a].config == c.nodes[a].config && c'.nodes[to].config == c.nodes[to].config
  {
    assert NodeAt(c, a);
  }

  lemma IssuedStays(run: seq<State>, i: nat, j: nat, a: NodeId, to: NodeId, id: RequestId)
    requires IsRun(run) && i <= j < |run| && Issued(run[i], a, to, id)
    ensures Issued(run[j], a, to, id)
    ensures run[j].nodes[a].config == run[i].nodes[a].config && run[j].nodes[to].config == run[i].nodes[to].config
  {
    RunGrows(run, i, j);
    assert BrokerGrows(run[i].nodes[a], run[j].nodes[a]);
  }

  lemma IssueStays(run: seq<State>, a: NodeId, to: NodeId, data: Payload, more: seq<State>)
    requires IsRun(run) && a in Runs.Last(run).nodes && to in Runs.Last(run).nodes[a].sockets
    requires Continues(run, a, to, data, more)
    ensures to in Runs.Last(run).nodes && Runs.Last(run).nodes[a].sockets[to] == Runs.Last(run).nodes[to].config.address
    ensures Issued(Runs.Last(more), a, to, Runs.Last(run).nodes[a].nextRequest)
    ensures Runs.Last(more).nodes[a].config == Runs.Last(run).nodes[a].config
    ensures Runs.Last(more).nodes[to].config == Runs.Last(run).nodes[to].config
  {
    var all := run + more;
    OwnSocket(run, a, to);
    EveryStateOk(run, |run| - 1);
    SendingIssues(Runs.Last(run), a, to, data, more[0]);
    assert all[|run|] == more[0];
    IssuedStays(all, |run|, |all| - 1, a, to, Runs.Last(run).nodes[a].nextRequest);
  }

  lemma FarRequestsMatch(run: seq<State>, a: NodeId, to: NodeId, data: Payload, more: seq<State>)
    requires IsRun(run) && a in Runs.Last(run).nodes && to in Runs.Last(run).nodes[a].sockets
    requires Runs.Last(run).nodes[a].sockets[to] != Runs.Last(run).nodes[a].config.address
    requires Continues(run, a, to, data, more)
    ensures a in Runs.Last(more).nodes && Matched(Runs.Last(more), a, Runs.Last(run).nodes[a].nextRequest)
  {
    IssueStays(run, a, to, data, more);
    FarCompletionsMatch(run + more, a, to, Runs.Last(run).nodes[a].nextRequest);
  }

  lemma FarCompletionsMatch(run: seq<State>, a: NodeId, to: NodeId, id: RequestId)
    requires IsRun(run) && Issued(Runs.Last(run), a, to, id)
    requires Runs.Last(run).nodes[to].config.address != Runs.Last(run).nodes[a].config.address
    ensures Matched(Runs.Last(run), a, id)
  {
    var c := Runs.Last(run);
    forall x | x in c.nodes[a].past.completed && x.request == id && x.outcome.Replied?
      ensures Answered(c, a, to, id, x.outcome.payload)
    {
      var j :| 0 <= j < |c.nodes[a].past.completed| && c.nodes[a].past.completed[j] == x;
      RepliesMatchRequests(run, |run| - 1, a, j);
    }
  }

  /** In every reachable state: a request of a running node to one it is connected to is certain to be
      answered by that one only, whatever happens from then on, exactly if the socket does not lead to
      the own address. */
  lemma MatchingIsExact(run: seq<State>, a: NodeId, to: NodeId, data: Payload)
    requires IsRun(run) && a in Runs.Last(run).nodes && to in Runs.Last(run).nodes[a].sockets
    requires a !in Runs.Last(run).down
    ensures Runs.Last(run).nodes[a].sockets[to] != Runs.Last(run).nodes[a].config.address <==>
              forall more :: Continues(run, a, to, data, more) ==>
                a in Runs.Last(more).nodes && Matched(Runs.Last(more), a, Runs.Last(run).nodes[a].nextRequest)
  {
    if Runs.Last(run).nodes[a].sockets[to] != Runs.Last(run).nodes[a].config.address {
      forall more | Continues(run, a, to, data, more)
        ensures a in Runs.Last(more).nodes && Matched(Runs.Last(more), a, Runs.Last(run).nodes[a].nextRequest)
      {
        FarRequestsMatch(run, a, to, data, more);
      }
    } else {
      var more := RequestEchoes(run, a, to, data);
      assert Continues(run, a, to, data, more);
    }
  }

  // ---- packets for somebody at another node's address ----

  /** The packet reaches node n and fails its address check. */
  ghost predicate Strays(c: State, p: Packet, n: NodeId) {
    && p in c.net && n in c.nodes && p.to == c.nodes[n].config.address
    && Receive(c.nodes[n], p.message).error == Some(NotAddressedHere)
  }

  ghost predicate SameAddress(c: State, m: NodeId, n: NodeId) {
    m != n && Near(c, m, n)
  }

  /** A request of node a to node b strays to another running node exactly if that one listens on b's
      address. */
  lemma AddressCheckIsExact(run: seq<State>, a: NodeId, b: NodeId, data: Payload, n: NodeId, r: Effect)
    requires IsRun(run) && a in Runs.Last(run).nodes && b in Runs.Last(run).nodes[a].sockets
    requires a !in Runs.Last(run).down && n in Runs.Last(run).nodes
    requires r == SendRequest(Runs.Last(run).nodes[a], b, data)
    ensures IsRun(run + [After(Runs.Last(run), a, r)]) && |r.sends| == 1
    ensures Strays(After(Runs.Last(run), a, r), r.sends[0], n) <==> n != a && SameAddress(Runs.Last(run), b, n)
  {
    OwnSocket(run, a, b);
    EveryStateOk(run, |run| - 1);
    assert NodeAt(Runs.Last(run), a) && NodeAt(Runs.Last(run), n);
    ActMore(run, a, RequestSent(b, data), r);
    assert r.sends[0] in PacketsOf(r.sends);
  }

  /** A reply, sent at once or flushed later, goes to the requester's address. */
  lemma RepliesGoToTheRequester(c: State, b: NodeId, e: Event, r: Effect, c': State, p: Packet)
    requires ClusterInvariant.Inv(c) && Acts(c, b, e, r, c') && p in r.sends && p.message.TwoWay?
    requires !e.RequestSent?
    ensures p.message.responder == b && p.message.requester in c.nodes
    ensures p.to == c.nodes[p.message.requester].config.address
  {
    assert NodeAt(c, b);
    match e
    case HandlerFinished(request, data) => SocketLeadsHome(c, c.nodes[b], request.0);
    case GossipDue(now, peers, states) => GossipSends(c.nodes[b], now, peers, states, p);
    case Received(m) =>
      GossipIsGenuine(c, Packet(c.nodes[b].config.address, m));
      LearnAllIsTame(c.nodes[b], m.states);
      var i :| 0 <= i < |m.states| && Flushes(c.nodes[b], m.states[i], p);
    case _ =>
  }

  /** The two nodes of a packet that involves a running responder are not at one address. */
  lemma ResponderElsewhere(c: State, p: Packet)
    requires ClusterInvariant.Inv(c) && p in c.net && p.message.TwoWay? && p.message.responder !in c.down
    ensures Issued(c, p.message.requester, p.message.responder, p.message.request)
    ensures !Near(c, p.message.requester, p.message.responder)
  {
    assert PacketAt(c, p) && IssuedAt(c, p.message.requester, p.message.request);
  }

  lemma StraysToItsAddress(c: State, p: Packet, n: NodeId)
    requires p in c.net && p.message.TwoWay? && n in c.nodes && c.nodes[n].self == n
    requires p.message.requester in c.nodes && p.to == c.nodes[p.message.requester].config.address
    requires p.message.responder in c.nodes && !Near(c, p.message.requester, p.message.responder)
    ensures Strays(c, p, n) <==> SameAddress(c, p.message.requester, n)
  {
  }

  lemma RepliesKeepAddresses(c: State, b: NodeId, e: Event, r: Effect, c': State, p: Packet, n: NodeId)
    requires ClusterInvariant.Inv(c) && Acts(c, b, e, r, c') && p in r.sends && p.message.TwoWay?
    requires !e.RequestSent? && n in c.nodes
    ensures p.message.requester in c'.nodes && p.to == c'.nodes[p.message.requester].config.address
    ensures p.message.responder in c'.nodes && !Near(c', p.message.requester, p.message.responder)
    ensures n in c'.nodes && c'.nodes[n].self == n && p in c'.net
  {
    RepliesGoToTheRequester(c, b, e, r, c', p);
    ActKeeps(c, b, e, r, c');
    ResponderElsewhere(c', p);
    ClusterGrows(c, b, e, r, c');
    assert GrowsAt(c, c', p.message.requester) && GrowsAt(c, c', b) && GrowsAt(c, c', n);
  }

  /** A reply to node a, sent at once or flushed later, strays exactly to a node other than a that
      listens on a's address. */
  lemma ReplyCheckIsExact(run: seq<State>, b: NodeId, e: Event, r: Effect, p: Packet, n: NodeId)
    requires IsRun(run) && Acts(Runs.Last(run), b, e, r, After(Runs.Last(run), b, r)) && !e.RequestSent?
    requires p in r.sends && p.message.TwoWay? && n in Runs.Last(run).nodes
    ensures IsRun(run + [After(Runs.Last(run), b, r)])
    ensures Strays(After(Runs.Last(run), b, r), p, n)
            <==> SameAddress(After(Runs.Last(run), b, r), p.message.requester, n)
  {
    var c' := After(Runs.Last(run), b, r);
    EveryStateOk(run, |run| - 1);
    RepliesKeepAddresses(Runs.Last(run), b, e, r, c', p, n);
    StraysToItsAddress(c', p, n);
    ActMore(run, b, e, r);
  }

  // ---- how it comes about ----

  /** Node 1 knows the hub, node 3, at start; node 2 is node 1 restarted. */
  ghost predicate Setting(first: Config, hub: Config, second: Config) {
    && Starts(first) && Starts(hub) && Starts(second) && hub.contact == ""
    && first.contact == hub.address && second.address == first.address
  }

  predicate Starts(config: Config) {
    config.address != "" && config.contact != config.address && config.fanout > 0
  }

  function Own(n: NodeId, config: Config): NodeState {
    NodeState(0, n, config.address, config.name)
  }

  function New(n: NodeId, config: Config): Broker
    requires Starts(config)
  {
    Create(n, config, 0).value
  }

  function Adding(c: State, n: NodeId, config: Config): State
    requires Starts(config)
  {
    c.(nodes := c.nodes[n := New(n, config)])
  }

  lemma JoinMore(run: seq<State>, n: NodeId, config: Config)
    requires IsRun(run) && n !in Runs.Last(run).nodes && Starts(config)
    requires forall m :: m in Runs.Last(run).nodes && Runs.Last(run).nodes[m].config.address == config.address ==>
               m in Runs.Last(run).down
    ensures IsRun(run + [Adding(Runs.Last(run), n, config)])
  {
    assert Joins(Runs.Last(run), n, config, 0, Adding(Runs.Last(run), n, config));
    OneMore(run, Adding(Runs.Last(run), n, config));
  }

  lemma FirstTells(first: Config) returns (r: Effect)
    requires Starts(first) && first.contact != ""
    ensures Does(New(1, first), GossipDue(0, [], [Own(1, first)]), r)
    ensures r.sends == [Packet(first.contact, Gossip(1, [Own(1, first)]))]
    ensures r.broker.past.answers == {} && r.broker.config == first
  {
    var b, own := New(1, first), Own(1, first);
    assert own in [own] && Stamp(b, 0).table == map[1 := own];
    r := Broadcast(b, 0, [], [own]);
    assert ToPeers(Stamp(b, 0), [], Gossip(1, [own])) == Effect(Stamp(b, 0), [], None);
  }

  /** A node that is owed nothing hears one state of a new node. */
  lemma Hears(b: Broker, s: NodeState)
    requires BrokerInvariant.Inv(b) && s.id !in b.table && b.deferred == map[]
    ensures LearnAll(b, [s]) == Effect(Joined(b, s), [], None) && Joined(b, s).deferred == map[]
    ensures BrokerInvariant.Inv(Joined(b, s))
  {
    NewNodeJoins(b, s);
    JoinedKeeps(b, s);
    assert LearnAll(Joined(b, s), [s][1..]) == Effect(Joined(b, s), [], None);
  }

  lemma HearsBoth(b: Broker, s: NodeState, t: NodeState)
    requires BrokerInvariant.Inv(b) && s.id !in b.table && t.id !in b.table && s.id != t.id && b.deferred == map[]
    ensures LearnAll(b, [s, t]) == Effect(Joined(Joined(b, s), t), [], None)
  {
    Hears(b, s);
    NewNodeJoins(b, s);
    Hears(Joined(b, s), t);
    assert [s, t][1..] == [t];
  }

  lemma HubTable(first: Config, hub: Config)
    requires Starts(first) && Starts(hub)
    ensures var b := Joined(New(3, hub), Own(1, first));
            && b.self == 3 && b.config == hub && b.table == map[3 := Own(3, hub), 1 := Own(1, first)]
            && |b.table| == 2 && b.sockets == map[1 := first.address] && BrokerInvariant.Inv(b)
  {
    CreateHolds(3, hub, 0);
    Hears(New(3, hub), Own(1, first));
    assert |map[3 := Own(3, hub), 1 := Own(1, first)].Keys| == |{1, 3}|;
  }

  lemma HubConfig(first: Config, hub: Config)
    requires Starts(first) && Starts(hub)
    ensures Joined(New(3, hub), Own(1, first)).config == hub
  {
  }

  lemma HubTells(b: Broker, mine: NodeState, s: NodeState)
    requires b.self == 3 && b.table == map[3 := mine, 1 := s] && |b.table| == 2 && 1 in b.sockets
    requires mine.id == 3 && s.id == 1 && mine.lastSeen == 0 && b.config.fanout > 0 && b.config.contact == ""
    ensures Does(b, GossipDue(0, [1], [s, mine]), Broadcast(b, 0, [1], [s, mine]))
    ensures Broadcast(b, 0, [1], [s, mine]).sends == [Packet(b.sockets[1], Gossip(3, [s, mine]))]
  {
    var both := [s, mine];
    assert both[0] in both && both[1] in both && Stamp(b, 0).table == b.table;
    assert ToPeers(Stamp(b, 0), [1][1..], Gossip(3, both)) == Effect(Stamp(b, 0), [], None);
  }

  /** A node tells, and the packet reaches a listener. */
  lemma TellMore(run: seq<State>, n: NodeId, e: Event, told: Effect, p: Packet, k: NodeId, heard: Effect)
    requires IsRun(run) && n in Runs.Last(run).nodes && k in Runs.Last(run).nodes && k != n && told.sends == [p]
    requires Does(Runs.Last(run).nodes[n], e, told) && Does(Runs.Last(run).nodes[k], Received(p.message), heard)
    requires n !in Runs.Last(run).down && k !in Runs.Last(run).down
    requires e.GossipDue? && Runs.Last(run).nodes[n].self == n && n in Runs.Last(run).nodes[n].table
    requires Runs.Last(run).nodes[n].table[n].lastSeen <= e.now && p.to == Runs.Last(run).nodes[k].config.address
    ensures IsRun(run + [After(Runs.Last(run), n, told), After(After(Runs.Last(run), n, told), k, heard)])
  {
    var c1 := After(Runs.Last(run), n, told);
    ActMore(run, n, e, told);
    assert p in told.sends;
    ActMore(run + [c1], k, Received(p.message), heard);
    assert run + [c1] + [After(c1, k, heard)] == run + [c1, After(c1, k, heard)];
  }

  lemma BothJoin(first: Config, hub: Config) returns (run: seq<State>)
    requires Starts(first) && Starts(hub) && first.address != hub.address
    ensures |run| == 3 && IsRun(run) && Runs.Last(run).nodes == map[1 := New(1, first), 3 := New(3, hub)]
    ensures Runs.Last(run).down == {}
  {
    run := [State(map[], {}, {})];
    JoinMore(run, 1, first);
    run := run + [Adding(Runs.Last(run), 1, first)];
    JoinMore(run, 3, hub);
    run := run + [Adding(Runs.Last(run), 3, hub)];
  }

  lemma HubHears(first: Config, hub: Config) returns (r: Effect)
    requires Starts(first) && Starts(hub)
    ensures Does(New(3, hub), Received(Gossip(1, [Own(1, first)])), r)
    ensures r.broker == Joined(New(3, hub), Own(1, first))
  {
    CreateHolds(3, hub, 0);
    Hears(New(3, hub), Own(1, first));
    r := Effect(Joined(New(3, hub), Own(1, first)), [], None);
  }

  lemma OwnEntry(n: NodeId, config: Config)
    requires Starts(config)
    ensures var b := New(n, config);
            b.self == n && b.config == config && n in b.table && b.table[n].lastSeen == 0
  {
  }

  /** Node 1 tells the hub of itself, and the hub learns of it. */
  lemma HubLearns(run: seq<State>, first: Config, hub: Config) returns (more: seq<State>)
    requires IsRun(run) && Starts(first) && Starts(hub) && first.contact == hub.address
    requires Runs.Last(run).nodes.Keys == {1, 3}
    requires Runs.Last(run).nodes[1] == New(1, first) && Runs.Last(run).nodes[3] == New(3, hub)
    requires Runs.Last(run).down == {}
    ensures |more| == 2 && IsRun(run + more) && Runs.Last(more).nodes.Keys == {1, 3} && Runs.Last(more).down == {}
    ensures Runs.Last(more).nodes[1].past.answers == {} && Runs.Last(more).nodes[1].config == first
    ensures Runs.Last(more).nodes[3] == Joined(New(3, hub), Own(1, first))
  {
    var told := FirstTells(first);
    var heard := HubHears(first, hub);
    OwnEntry(1, first);
    OwnEntry(3, hub);
    TellMore(run, 1, GossipDue(0, [], [Own(1, first)]), told, told.sends[0], 3, heard);
    more := [After(Runs.Last(run), 1, told), After(After(Runs.Last(run), 1, told), 3, heard)];
  }

  /** The hub tells node 2, believing that it writes to node 1. */
  lemma SecondLearns(run: seq<State>, first: Config, hub: Config, second: Config) returns (more: seq<State>)
    requires IsRun(run) && Setting(first, hub, second) && Runs.Last(run).nodes.Keys == {1, 2, 3}
    requires Runs.Last(run).nodes[3] == Joined(New(3, hub), Own(1, first)) && Runs.Last(run).nodes[2] == New(2, second)
    requires Runs.Last(run).down == {1}
    ensures |more| == 2 && IsRun(run + more) && {1, 2} <= Runs.Last(more).nodes.Keys && Runs.Last(more).down == {1}
    ensures Runs.Last(more).nodes[1] == Runs.Last(run).nodes[1]
    ensures Runs.Last(more).nodes[2] == Joined(Joined(New(2, second), Own(1, first)), Own(3, hub))
  {
    var b, s, mine := Runs.Last(run).nodes[3], Own(1, first), Own(3, hub);
    HubTable(first, hub);
    HubTells(b, mine, s);
    CreateHolds(2, second, 0);
    HearsBoth(New(2, second), s, mine);
    var told := Broadcast(b, 0, [1], [s, mine]);
    var heard := Effect(Joined(Joined(New(2, second), s), mine), [], None);
    TellMore(run, 3, GossipDue(0, [1], [s, mine]), told, told.sends[0], 2, heard);
    more := [After(Runs.Last(run), 3, told), After(After(Runs.Last(run), 3, told), 2, heard)];
  }

  function Crashing(c: State, n: NodeId): State {
    c.(down := c.down + {n})
  }

  lemma CrashMore(run: seq<State>, n: NodeId)
    requires IsRun(run) && n in Runs.Last(run).nodes
    ensures IsRun(run + [Crashing(Runs.Last(run), n)])
  {
    assert Crashes(Runs.Last(run), n, Crashing(Runs.Last(run), n));
    OneMore(run, Crashing(Runs.Last(run), n));
  }

  /** Node 1 crashes, and node 2 is started at its address. */
  lemma Restart(start: seq<State>, first: Config, hub: Config, second: Config) returns (more: seq<State>)
    requires IsRun(start) && Starts(second) && second.address == first.address != hub.address
    requires Runs.Last(start).nodes.Keys == {1, 3} && Runs.Last(start).down == {}
    requires Runs.Last(start).nodes[1].config == first && Runs.Last(start).nodes[3].config == hub
    ensures |more| == 2 && IsRun(start + more) && more[0].down == more[1].down == {1}
    ensures more[1].nodes == Runs.Last(start).nodes[2 := New(2, second)]
  {
    CrashMore(start, 1);
    var c1 := Crashing(Runs.Last(start), 1);
    JoinMore(start + [c1], 2, second);
    more := [c1, Adding(c1, 2, second)];
    assert start + more == start + [c1] + [Adding(c1, 2, second)];
  }

  /** After the restart the hub tells node 2 of node 1. */
  lemma SecondJoins(start: seq<State>, first: Config, hub: Config, second: Config) returns (run: seq<State>)
    requires IsRun(start) && Setting(first, hub, second) && Runs.Last(start).nodes.Keys == {1, 3}
    requires Runs.Last(start).nodes[3] == Joined(New(3, hub), Own(1, first)) && Runs.Last(start).down == {}
    requires Runs.Last(start).nodes[1].config == first
    ensures |run| == |start| + 4 && run[..|start|] == start && IsRun(run) && {1, 2} <= Runs.Last(run).nodes.Keys
    ensures run[|start|].down == Runs.Last(run).down == {1}
    ensures Runs.Last(run).nodes[1] == Runs.Last(start).nodes[1]
    ensures Runs.Last(run).nodes[2] == Joined(Joined(New(2, second), Own(1, first)), Own(3, hub))
  {
    HubConfig(first, hub);
    var restarted := Restart(start, first, hub, second);
    assert Runs.Last(start + restarted) == restarted[1];
    var more := SecondLearns(start + restarted, first, hub, second);
    run := start + restarted + more;
  }

  lemma SecondBelieves(first: Config, hub: Config, second: Config)
    requires Setting(first, hub, second)
    ensures var b := Joined(Joined(New(2, second), Own(1, first)), Own(3, hub));
            && b.config == second && 1 in b.sockets && b.sockets[1] == b.config.address
            && b.nextRequest == 0 && b.past.issued == map[] && b.past.completed == []
  {
  }

  /** A run in which node 1 crashes before node 2 is started at its address, and node 2's request to
      node 1 completes with its own payload although node 1 never answered anything. */
  lemma RestartedNodeAnswersItself(first: Config, hub: Config, second: Config, data: Payload)
    returns (run: seq<State>)
    requires Setting(first, hub, second)
    ensures |run| == 12 && IsRun(run)
    ensures 1 in run[5].down && 2 !in run[4].nodes && 1 in run[11].nodes && 2 in run[11].nodes
    ensures run[11].nodes[1].past.answers == {}
    ensures run[11].nodes[2].past.issued == map[0 := Issue(1, data)]
    ensures run[11].nodes[2].past.completed == [Completion(0, Replied(data))]
  {
    var start := BothJoin(first, hub);
    var heard := HubLearns(start, first, hub);
    start := start + heard;
    assert Runs.Last(start) == Runs.Last(heard);
    run := SecondJoins(start, first, hub, second);
    assert run[4] == run[..5][4];
    SecondBelieves(first, hub, second);
    var echo := RequestEchoes(run, 2, 1, data);
    run := run + echo;
  }
}
