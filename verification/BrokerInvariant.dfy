/** What every handler of a message broker keeps, whatever messages arrive. */
module BrokerInvariant {
  import opened BrokerModel
  import opened Numbers
  import opened Options

  // ---- membership: sockets are the known nodes, and nobody connected is owed a deferred reply ----

  ghost predicate SocketsOk(b: Broker) {
    && b.self in b.table && b.self !in b.sockets
    && (forall n :: n in b.table ==> b.table[n].id == n)
    && (forall n :: n in b.sockets <==> n in b.table && n != b.self)
    && (forall n :: n in b.sockets ==> b.sockets[n] == b.table[n].address)
  }

  ghost predicate DeferredFor(n: NodeId, rs: seq<Reply>) {
    rs != [] && forall i :: 0 <= i < |rs| ==> rs[i].requester == n
  }

  ghost predicate DeferredOk(b: Broker) {
    forall n :: n in b.deferred ==> n !in b.sockets && DeferredFor(n, b.deferred[n])
  }

  // ---- gossip: the table is the newest of what was heard ----

  ghost predicate Covers(table: map<NodeId, NodeState>, s: NodeState) {
    && s.id in table && s.address == table[s.id].address && s.name == table[s.id].name
    && s.lastSeen <= table[s.id].lastSeen
  }

  ghost predicate HeardOk(b: Broker) {
    && (forall n :: n in b.table ==> b.table[n] in b.past.heard)
    && (forall s :: s in b.past.heard ==> Covers(b.table, s))
  }

  // ---- requests ----

  ghost predicate RequestOk(b: Broker, id: RequestId, o: Outstanding) {
    && id < b.nextRequest && id in b.past.issued && b.past.issued[id].target == o.target != b.self
    && o.permits <= 1 && (o.permits == 1 <==> o.response == None && !o.failed)
    && (o.permits == 1 ==> o.target in b.sockets)
  }

  ghost predicate CompletionOk(b: Broker, c: Completion) {
    && c.request in b.past.issued && c.request !in b.outstanding
    && (c.outcome.NodeLost? ==> c.outcome.node == b.past.issued[c.request].target)
  }

  ghost predicate Finished(b: Broker, id: RequestId) {
    exists i :: 0 <= i < |b.past.completed| && b.past.completed[i].request == id
  }

  ghost predicate RequestsOk(b: Broker) {
    && (forall id :: id in b.past.issued ==> id in b.outstanding || Finished(b, id))
    && (forall id :: id in b.outstanding ==> RequestOk(b, id, b.outstanding[id]))
    && (forall id :: id in b.past.issued ==> id < b.nextRequest)
    && (forall i :: 0 <= i < |b.past.completed| ==> CompletionOk(b, b.past.completed[i]))
    && (forall i, j :: 0 <= i < j < |b.past.completed| ==>
          b.past.completed[i].request != b.past.completed[j].request)
  }

  // ---- waiters ----

  /** The condition held at one of the moments since .. until. */
  ghost predicate Held(condition: View -> bool, moments: seq<View>, since: nat, until: int) {
    exists j :: since <= j <= until < |moments| && condition(moments[j])
  }

  ghost predicate WaiterOk(moments: seq<View>, w: Waiter) {
    && w.condition == w.history.condition && w.history.since < |moments|
    && w.deadline == Deadline(w.history.begun, w.history.timeout)
    && (w.met <==> Held(w.condition, moments, w.history.since, |moments| - 1))
    && w.permits <= 1 && (w.permits == 1 <==> !w.met && w.history.overdue == None)
    && (w.history.overdue.Some? ==> w.deadline <= w.history.overdue.value)
  }

  ghost predicate WaitedOk(moments: seq<View>, w: Waited) {
    && w.wait.since <= w.until < |moments|
    && (w.met <==> Held(w.wait.condition, moments, w.wait.since, w.until))
    && (!w.met ==> w.wait.overdue.Some? && Deadline(w.wait.begun, w.wait.timeout) <= w.wait.overdue.value)
  }

  ghost predicate WaitsOk(b: Broker) {
    && |b.past.moments| > 0
    && (forall i :: 0 <= i < |b.waiters| ==> WaiterOk(b.past.moments, b.waiters[i]))
    && (forall i :: 0 <= i < |b.past.waits| ==> WaitedOk(b.past.moments, b.past.waits[i]))
  }

  /** The last moment is the present. */
  ghost predicate UpToDate(b: Broker) {
    |b.past.moments| > 0 && b.past.moments[|b.past.moments| - 1] == ViewOf(b.table)
  }

  ghost predicate Inv(b: Broker) {
    SocketsOk(b) && DeferredOk(b) && HeardOk(b) && RequestsOk(b) && WaitsOk(b) && UpToDate(b)
  }

  lemma CreateHolds(self: NodeId, config: Config, now: nat)
    requires Create(self, config, now).Some?
    ensures Inv(Create(self, config, now).value)
  {
  }

  // ---- parts of the state that a handler leaves alone ----

  lemma RequestsFrame(b: Broker, r: Broker)
    requires RequestsOk(b) && r.self == b.self && r.nextRequest == b.nextRequest && r.outstanding == b.outstanding
    requires r.past.issued == b.past.issued && r.past.completed == b.past.completed
    requires forall n :: n in b.sockets ==> n in r.sockets
    ensures RequestsOk(r)
  {
    forall id | id in r.outstanding ensures RequestOk(r, id, r.outstanding[id]) {
      assert RequestOk(b, id, b.outstanding[id]);
    }
    CompletionsFrame(b, r);
  }

  lemma CompletionsFrame(b: Broker, r: Broker)
    requires RequestsOk(b) && r.past.completed == b.past.completed
    requires forall id :: id in b.past.issued ==> id in r.past.issued && r.past.issued[id] == b.past.issued[id]
    requires forall id :: id in b.past.issued && id in r.outstanding ==> id in b.outstanding
    ensures forall i :: 0 <= i < |r.past.completed| ==> CompletionOk(r, r.past.completed[i])
    ensures forall id :: Finished(b, id) ==> Finished(r, id)
  {
    forall i | 0 <= i < |r.past.completed| ensures CompletionOk(r, r.past.completed[i]) {
      assert CompletionOk(b, b.past.completed[i]);
    }
  }

  lemma DeferredFrame(b: Broker, r: Broker)
    requires DeferredOk(b)
    requires forall n :: n in r.deferred ==> n in b.deferred && r.deferred[n] == b.deferred[n]
    requires forall n :: n in r.deferred && n in r.sockets ==> n in b.sockets
    ensures DeferredOk(r)
  {
    forall n | n in r.deferred ensures n !in r.sockets && DeferredFor(n, r.deferred[n]) {
      assert DeferredFor(n, b.deferred[n]);
    }
  }

  lemma TableFrame(b: Broker, r: Broker)
    requires SocketsOk(b) && HeardOk(b) && DeferredOk(b)
    requires r.self == b.self && r.table == b.table && r.sockets == b.sockets && r.deferred == b.deferred
    requires r.past.heard == b.past.heard
    ensures SocketsOk(r) && HeardOk(r) && DeferredOk(r)
  {
  }

  lemma WaitsFrame(b: Broker, r: Broker)
    requires WaitsOk(b) && UpToDate(b) && r.waiters == b.waiters
    requires r.past.moments == b.past.moments && r.past.waits == b.past.waits && ViewOf(r.table) == ViewOf(b.table)
    ensures WaitsOk(r) && UpToDate(r)
  {
    forall i | 0 <= i < |r.waiters| ensures WaiterOk(r.past.moments, r.waiters[i]) {
      assert WaiterOk(b.past.moments, b.waiters[i]);
    }
  }

  // ---- waiters are kept ----

  lemma MomentsGrow(condition: View -> bool, moments: seq<View>, view: View, since: nat)
    requires since < |moments|
    ensures Held(condition, moments + [view], since, |moments|) <==>
              Held(condition, moments, since, |moments| - 1) || condition(view)
  {
    var more := moments + [view];
    if Held(condition, moments, since, |moments| - 1) {
      var j :| since <= j <= |moments| - 1 && condition(moments[j]);
      assert condition(more[j]);
    }
    assert condition(view) ==> condition(more[|moments|]);
  }

  lemma PastIsFixed(moments: seq<View>, view: View, w: Waited)
    requires WaitedOk(moments, w)
    ensures WaitedOk(moments + [view], w)
  {
    var more := moments + [view];
    if Held(w.wait.condition, moments, w.wait.since, w.until) {
      var j :| w.wait.since <= j <= w.until && w.wait.condition(moments[j]);
      assert w.wait.condition(more[j]);
    }
  }

  lemma EvaluateKeepsWaits(b: Broker)
    requires WaitsOk(b)
    ensures WaitsOk(Evaluate(b)) && UpToDate(Evaluate(b))
  {
    var r, view := Evaluate(b), ViewOf(b.table);
    forall i | 0 <= i < |r.waiters| ensures WaiterOk(r.past.moments, r.waiters[i]) {
      assert WaiterOk(b.past.moments, b.waiters[i]);
      MomentsGrow(b.waiters[i].condition, b.past.moments, view, b.waiters[i].history.since);
    }
    forall i | 0 <= i < |r.past.waits| ensures WaitedOk(r.past.moments, r.past.waits[i]) {
      PastIsFixed(b.past.moments, view, b.past.waits[i]);
    }
  }

  lemma WaitForKeeps(b: Broker, condition: View -> bool, now: nat, timeout: nat)
    requires Inv(b)
    ensures Inv(WaitFor(b, condition, now, timeout))
  {
    var r, last := WaitFor(b, condition, now, timeout), |b.past.moments| - 1;
    RequestsFrame(b, r);
    TableFrame(b, r);
    assert Held(condition, b.past.moments, last, last) <==> condition(b.past.moments[last]);
    forall i | 0 <= i < |r.waiters| ensures WaiterOk(r.past.moments, r.waiters[i]) {
    }
  }

  lemma CheckWaitersKeeps(b: Broker, now: nat)
    requires Inv(b)
    ensures Inv(CheckWaiters(b, now))
  {
    RequestsFrame(b, CheckWaiters(b, now));
    TableFrame(b, CheckWaiters(b, now));
  }

  lemma ResumeWaiterKeeps(b: Broker, i: nat)
    requires Inv(b) && i < |b.waiters| && b.waiters[i].permits <= 0
    ensures Inv(ResumeWaiter(b, i))
  {
    RequestsFrame(b, ResumeWaiter(b, i));
    TableFrame(b, ResumeWaiter(b, i));
    assert WaiterOk(b.past.moments, b.waiters[i]);
  }

  // ---- requests are kept ----

  lemma SendRequestKeepsRequests(b: Broker, to: NodeId, data: Payload)
    requires RequestsOk(b)
    ensures RequestsOk(SendRequest(b, to, data).broker)
  {
    var r := SendRequest(b, to, data).broker;
    forall id | id in r.outstanding ensures RequestOk(r, id, r.outstanding[id]) {
      if id in b.outstanding {
        assert RequestOk(b, id, b.outstanding[id]);
      }
    }
    CompletionsFrame(b, r);
  }

  lemma SendRequestKeeps(b: Broker, to: NodeId, data: Payload)
    requires Inv(b)
    ensures Inv(SendRequest(b, to, data).broker)
  {
    SendRequestKeepsRequests(b, to, data);
    TableFrame(b, SendRequest(b, to, data).broker);
    WaitsFrame(b, SendRequest(b, to, data).broker);
  }

  lemma HandleResponseKeepsRequests(b: Broker, id: RequestId, payload: Payload)
    requires RequestsOk(b)
    ensures RequestsOk(HandleResponse(b, id, payload))
  {
    var r := HandleResponse(b, id, payload);
    forall j | j in r.outstanding ensures RequestOk(r, j, r.outstanding[j]) {
      assert RequestOk(b, j, b.outstanding[j]);
    }
    CompletionsFrame(b, r);
  }

  lemma HandleResponseKeeps(b: Broker, id: RequestId, payload: Payload)
    requires Inv(b)
    ensures Inv(HandleResponse(b, id, payload))
  {
    HandleResponseKeepsRequests(b, id, payload);
    TableFrame(b, HandleResponse(b, id, payload));
    WaitsFrame(b, HandleResponse(b, id, payload));
  }

  lemma ResumeRequestKeeps(b: Broker, id: RequestId)
    requires Inv(b) && id in b.outstanding && b.outstanding[id].permits <= 0
    ensures Inv(ResumeRequest(b, id))
  {
    var r := ResumeRequest(b, id);
    assert RequestOk(b, id, b.outstanding[id]);
    forall j | j in r.outstanding ensures RequestOk(r, j, r.outstanding[j]) {
      assert RequestOk(b, j, b.outstanding[j]);
    }
    forall i | 0 <= i < |r.past.completed| ensures CompletionOk(r, r.past.completed[i]) {
      if i < |b.past.completed| {
        assert CompletionOk(b, b.past.completed[i]);
      }
    }
    forall j | j in r.past.issued ensures j in r.outstanding || Finished(r, j) {
      if j == id {
        assert r.past.completed[|b.past.completed|].request == j;
      } else if Finished(b, j) {
        var i :| 0 <= i < |b.past.completed| && b.past.completed[i].request == j;
        assert r.past.completed[i].request == j;
      }
    }
    forall i, j | 0 <= i < j < |r.past.completed|
      ensures r.past.completed[i].request != r.past.completed[j].request
    {
      assert CompletionOk(b, b.past.completed[i]);
    }
  }

  lemma SendReplyKeeps(b: Broker, reply: Reply)
    requires Inv(b)
    ensures Inv(SendReply(b, reply).broker)
  {
    var r := SendReply(b, reply).broker;
    RequestsFrame(b, r);
    forall n | n in r.deferred ensures n !in r.sockets && DeferredFor(n, r.deferred[n]) {
      assert n in b.deferred ==> DeferredFor(n, b.deferred[n]);
    }
  }

  lemma HandlingKeeps(b: Broker, handling: multiset<(NodeId, RequestId, Payload)>, answers: set<Answer>)
    requires Inv(b)
    ensures Inv(b.(handling := handling, past := b.past.(answers := answers)))
  {
    var r := b.(handling := handling, past := b.past.(answers := answers));
    RequestsFrame(b, r);
  }

  // ---- membership is kept ----

  /** Replies to one connected node are all sent, in order. */
  lemma {:induction false} AllSent(b: Broker, n: NodeId, rs: seq<Reply>)
    requires n in b.sockets && forall i :: 0 <= i < |rs| ==> rs[i].requester == n
    ensures SendReplies(b, rs).broker == b && |SendReplies(b, rs).sends| == |rs|
    ensures forall i :: 0 <= i < |rs| ==>
              SendReplies(b, rs).sends[i] == Packet(b.sockets[n], TwoWay(n, b.self, rs[i].request, rs[i].data))
  {
    if rs != [] {
      AllSent(b, n, rs[1..]);
    }
  }

  /** The broker after it learnt of a new node. */
  function Joined(b: Broker, s: NodeState): Broker {
    Evaluate(b.(table := b.table[s.id := s], sockets := b.sockets[s.id := s.address],
                deferred := b.deferred - {s.id}, past := b.past.(heard := b.past.heard + {s})))
  }

  /** Learning of a new node connects to it and sends exactly the replies that were deferred for it. */
  lemma NewNodeJoins(b: Broker, s: NodeState)
    requires DeferredOk(b) && s.id !in b.table
    ensures Learn(b, s).broker == Joined(b, s) && Learn(b, s).error == None
    ensures |Learn(b, s).sends| == if s.id in b.deferred then |b.deferred[s.id]| else 0
    ensures forall i :: 0 <= i < |Learn(b, s).sends| ==>
              var r := b.deferred[s.id][i];
              Learn(b, s).sends[i] == Packet(s.address, TwoWay(s.id, b.self, r.request, r.data))
  {
    var known := b.(table := b.table[s.id := s], past := b.past.(heard := b.past.heard + {s}));
    var connected := Evaluate(known.(sockets := b.sockets[s.id := s.address]));
    if s.id in b.deferred {
      AllSent(connected.(deferred := connected.deferred - {s.id}), s.id, b.deferred[s.id]);
    } else {
      assert b.deferred - {s.id} == b.deferred;
    }
  }

  lemma JoinedKeepsRequests(b: Broker, s: NodeState)
    requires RequestsOk(b)
    ensures RequestsOk(Joined(b, s))
  {
    var r := Joined(b, s);
    RequestsFrame(b, r);
  }

  lemma JoinedKeeps(b: Broker, s: NodeState)
    requires Inv(b) && s.id !in b.table
    ensures Inv(Joined(b, s))
  {
    JoinedKeepsRequests(b, s);
    EvaluateKeepsWaits(b.(table := b.table[s.id := s], sockets := b.sockets[s.id := s.address],
                          deferred := b.deferred - {s.id}, past := b.past.(heard := b.past.heard + {s})));
    var r := Joined(b, s);
    forall h | h in r.past.heard ensures Covers(r.table, h) {
      assert h in b.past.heard ==> Covers(b.table, h);
    }
    DeferredFrame(b, r);
  }

  /** The broker after news of a known node. */
  function Refreshed(b: Broker, s: NodeState): Broker
    requires s.id in b.table
  {
    var known := b.table[s.id];
    b.(table := b.table[s.id := known.(lastSeen := Max(known.lastSeen, s.lastSeen))],
       past := b.past.(heard := b.past.heard + {s}))
  }

  lemma RefreshedKeepsSockets(b: Broker, s: NodeState)
    requires SocketsOk(b) && s.id in b.table
    ensures SocketsOk(Refreshed(b, s)) && ViewOf(Refreshed(b, s).table) == ViewOf(b.table)
  {
  }

  lemma RefreshedKeepsHeard(b: Broker, s: NodeState)
    requires SocketsOk(b) && HeardOk(b) && s.id in b.table
    requires b.table[s.id].address == s.address && b.table[s.id].name == s.name
    ensures HeardOk(Refreshed(b, s))
  {
    var r := Refreshed(b, s);
    forall h | h in r.past.heard ensures Covers(r.table, h) {
      assert h in b.past.heard ==> Covers(b.table, h);
    }
    forall n | n in r.table ensures r.table[n] in r.past.heard {
      assert b.table[n] in b.past.heard;
    }
  }

  lemma RefreshedKeeps(b: Broker, s: NodeState)
    requires Inv(b) && s.id in b.table && b.table[s.id].address == s.address && b.table[s.id].name == s.name
    ensures Inv(Refreshed(b, s))
  {
    var r := Refreshed(b, s);
    RefreshedKeepsSockets(b, s);
    WaitsFrame(b, r);
    RequestsFrame(b, r);
    RefreshedKeepsHeard(b, s);
    DeferredFrame(b, r);
  }

  lemma LearnKeeps(b: Broker, s: NodeState)
    requires Inv(b)
    ensures Inv(Learn(b, s).broker)
  {
    if s.id !in b.table {
      NewNodeJoins(b, s);
      JoinedKeeps(b, s);
    } else if b.table[s.id].address == s.address && b.table[s.id].name == s.name {
      RefreshedKeeps(b, s);
    }
  }

  lemma {:induction false} LearnAllKeeps(b: Broker, states: seq<NodeState>)
    requires Inv(b)
    ensures Inv(LearnAll(b, states).broker)
    decreases states
  {
    if states != [] {
      LearnKeeps(b, states[0]);
      if Learn(b, states[0]).error.None? {
        LearnAllKeeps(Learn(b, states[0]).broker, states[1..]);
      }
    }
  }

  lemma LostKeepsRequests(b: Broker, n: NodeId)
    requires RequestsOk(b) && n != b.self
    ensures RequestsOk(OnNodeLost(b, n))
  {
    var r := OnNodeLost(b, n);
    forall id | id in r.outstanding ensures RequestOk(r, id, r.outstanding[id]) {
      assert RequestOk(b, id, b.outstanding[id]);
    }
    CompletionsFrame(b, r);
  }

  lemma LostKeeps(b: Broker, n: NodeId)
    requires Inv(b) && n != b.self
    ensures Inv(OnNodeLost(b, n))
  {
    LostKeepsRequests(b, n);
    EvaluateKeepsWaits(b.(outstanding := map id | id in b.outstanding :: FailIfTarget(b.outstanding[id], n),
                          table := b.table - {n}, sockets := b.sockets - {n},
                          past := b.past.(heard := Forget(b.past.heard, n))));
    var r := OnNodeLost(b, n);
    forall h | h in r.past.heard ensures Covers(r.table, h) {
      assert Covers(b.table, h);
    }
    forall m | m in r.table ensures r.table[m] in r.past.heard {
      assert b.table[m] in b.past.heard;
    }
    DeferredFrame(b, r);
  }

  lemma {:induction false} AllLostKeeps(b: Broker, lost: seq<NodeId>)
    requires Inv(b) && forall i :: 0 <= i < |lost| ==> lost[i] != b.self
    ensures Inv(OnNodesLost(b, lost)) && OnNodesLost(b, lost).self == b.self
    decreases lost
  {
    if lost != [] {
      LostKeeps(b, lost[0]);
      AllLostKeeps(OnNodeLost(b, lost[0]), lost[1..]);
    }
  }

  lemma StampKeepsSockets(b: Broker, now: nat)
    requires SocketsOk(b)
    ensures SocketsOk(Stamp(b, now)) && ViewOf(Stamp(b, now).table) == ViewOf(b.table)
  {
  }

  lemma StampKeepsHeard(b: Broker, now: nat)
    requires SocketsOk(b) && HeardOk(b)
    ensures HeardOk(Stamp(b, now))
  {
    var r := Stamp(b, now);
    forall h | h in r.past.heard ensures Covers(r.table, h) {
      assert h in b.past.heard ==> Covers(b.table, h);
    }
    forall n | n in r.table ensures r.table[n] in r.past.heard {
      assert b.table[n] in b.past.heard;
    }
  }

  lemma StampKeeps(b: Broker, now: nat)
    requires Inv(b)
    ensures Inv(Stamp(b, now))
  {
    var r := Stamp(b, now);
    StampKeepsSockets(b, now);
    WaitsFrame(b, r);
    RequestsFrame(b, r);
    StampKeepsHeard(b, now);
    DeferredFrame(b, r);
  }

  lemma {:induction false} ToPeersSends(b: Broker, peers: seq<NodeId>, m: Message)
    requires forall i :: 0 <= i < |peers| ==> peers[i] in b.sockets && peers[i] in b.table
    ensures ToPeers(b, peers, m).broker == b && ToPeers(b, peers, m).error == None
    ensures |ToPeers(b, peers, m).sends| == |peers|
    ensures forall i :: 0 <= i < |peers| ==> ToPeers(b, peers, m).sends[i] == Packet(b.sockets[peers[i]], m)
  {
    if peers != [] {
      ToPeersSends(b, peers[1..], m);
    }
  }

  /** Gossip finds every peer it looks up: the MapAt calls never fail. */
  lemma BroadcastKeeps(b: Broker, now: nat, peers: seq<NodeId>, states: seq<NodeState>)
    requires Inv(b) && PicksPeers(b, peers)
    ensures Inv(Broadcast(b, now, peers, states).broker)
    ensures Broadcast(b, now, peers, states).broker == Stamp(b, now)
    ensures Broadcast(b, now, peers, states).error == if b.config.fanout == 0 then Some(NoFanout) else None
  {
    StampKeeps(b, now);
    ToPeersSends(Stamp(b, now), peers, Gossip(b.self, states));
  }

  // ---- every handler ----

  lemma DoesKeeps(b: Broker, e: Event, r: Effect)
    requires Inv(b) && Does(b, e, r)
    ensures Inv(r.broker)
  {
    match e
    case RequestSent(to, data) => SendRequestKeeps(b, to, data);
    case RequestResumed(id) => ResumeRequestKeeps(b, id);
    case WaitBegun(condition, now, timeout) => WaitForKeeps(b, condition, now, timeout);
    case WaitResumed(i) => ResumeWaiterKeeps(b, i);
    case Received(m) => ReceiveKeeps(b, m);
    case HandlerFinished(request, data) =>
      HandlingKeeps(b, b.handling - multiset{request},
                    b.past.answers + {Answer(request.0, request.1, request.2, data)});
      SendReplyKeeps(b.(handling := b.handling - multiset{request},
                        past := b.past.(answers := b.past.answers
                                  + {Answer(request.0, request.1, request.2, data)})),
                     Reply(request.0, request.1, data));
    case GossipDue(now, peers, states) => BroadcastKeeps(b, now, peers, states);
    case HeartbeatDue(now, lost) => AllLostKeeps(b, lost);
    case WaitersDue(now) => CheckWaitersKeeps(b, now);
  }

  lemma ReceiveKeeps(b: Broker, m: Message)
    requires Inv(b)
    ensures Inv(Receive(b, m).broker)
  {
    match m
    case Gossip(from, states) => LearnAllKeeps(b, states);
    case TwoWay(requester, responder, id, payload) =>
      HandleResponseKeeps(b, id, payload);
      HandlingKeeps(b, b.handling + multiset{(requester, id, payload)}, b.past.answers);
  }
}
