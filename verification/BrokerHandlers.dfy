/** What the handlers of a broker do, in the terms of the state before them: which nodes, waiters,
    requests and packets each concerns, and that it leaves the others alone. */
module BrokerHandlers {
  import opened BrokerInvariant
  import opened BrokerModel
  import opened Options

  // ---- heartbeats ----

  lemma {:induction false} LostOnes(b: Broker, lost: seq<NodeId>, n: NodeId, id: RequestId)
    ensures n in OnNodesLost(b, lost).table <==> n in b.table && n !in lost
    ensures n in b.table && n !in lost ==> OnNodesLost(b, lost).table[n] == b.table[n]
    ensures n in OnNodesLost(b, lost).sockets <==> n in b.sockets && n !in lost
    ensures n in b.sockets && n !in lost ==> OnNodesLost(b, lost).sockets[n] == b.sockets[n]
    ensures id in b.outstanding <==> id in OnNodesLost(b, lost).outstanding
    ensures id in b.outstanding && b.outstanding[id].target !in lost ==>
              OnNodesLost(b, lost).outstanding[id] == b.outstanding[id]
    ensures OnNodesLost(b, lost).deferred == b.deferred && OnNodesLost(b, lost).handling == b.handling
    ensures OnNodesLost(b, lost).self == b.self && OnNodesLost(b, lost).config == b.config
    decreases lost
  {
    if lost != [] {
      LostOnes(OnNodeLost(b, lost[0]), lost[1..], n, id);
      assert lost == [lost[0]] + lost[1..];
    }
  }

  /** A heartbeat check keeps exactly the node itself, nodes whose timestamp is not in the past, and nodes
      seen less than the timeout ago; with a node it keeps its socket, and requests to the nodes it keeps
      do not notice. Deferred replies survive the loss of their node. */
  lemma HeartbeatLosesExactly(b: Broker, now: nat, lost: seq<NodeId>, r: Effect, n: NodeId, id: RequestId)
    requires Inv(b) && Does(b, HeartbeatDue(now, lost), r)
    ensures n in r.broker.table <==>
              n in b.table && (n == b.self || b.table[n].lastSeen >= now
                               || now - b.table[n].lastSeen < b.config.heartbeatTimeout)
    ensures n in r.broker.table ==> r.broker.table[n] == b.table[n]
    ensures n in r.broker.sockets <==>
              n in b.sockets && (b.table[n].lastSeen >= now
                                 || now - b.table[n].lastSeen < b.config.heartbeatTimeout)
    ensures n in r.broker.sockets ==> r.broker.sockets[n] == b.sockets[n]
    ensures id in r.broker.outstanding <==> id in b.outstanding
    ensures id in b.outstanding && b.outstanding[id].target in r.broker.sockets ==>
              r.broker.outstanding[id] == b.outstanding[id]
    ensures r.broker.deferred == b.deferred && r.broker.handling == b.handling && r.sends == []
  {
    LostOnes(b, lost, n, id);
    if id in b.outstanding {
      LostOnes(b, lost, b.outstanding[id].target, id);
    }
  }

  lemma {:induction false} ListOf(nodes: set<NodeId>) returns (list: seq<NodeId>)
    ensures forall n :: n in list <==> n in nodes
    ensures forall i, j :: 0 <= i < j < |list| ==> list[i] != list[j]
    decreases |nodes|
  {
    if nodes == {} {
      list := [];
    } else {
      var n :| n in nodes;
      var rest := ListOf(nodes - {n});
      list := [n] + rest;
    }
  }

  /** A heartbeat check can run in every state. */
  lemma HeartbeatCanRun(b: Broker, now: nat) returns (lost: seq<NodeId>, r: Effect)
    ensures Does(b, HeartbeatDue(now, lost), r) && r.error == None
  {
    lost := ListOf(set n | n in b.table && TimedOut(b, n, now));
    forall i | 0 <= i < |lost| ensures lost[i] in b.table && TimedOut(b, lost[i], now) {
      assert lost[i] in lost;
    }
    r := Effect(OnNodesLost(b, lost), [], None);
  }

  // ---- waiters ----

  /** A check signals exactly the unmet waiters whose deadline is now or earlier, and nobody else. */
  lemma DueWaitersAreSignalled(b: Broker, now: nat, r: Effect, i: nat)
    requires Inv(b) && Does(b, WaitersDue(now), r) && i < |b.waiters|
    ensures |r.broker.waiters| == |b.waiters|
    ensures var w, w' := b.waiters[i], r.broker.waiters[i];
            if !w.met && w.deadline <= now then
              w'.permits == w.permits - 1 && w'.permits <= 0 && w' == w.(permits := w'.permits, history := w'.history)
            else w' == w
    ensures r.broker == b.(waiters := r.broker.waiters) && r.sends == []
  {
    assert WaiterOk(b.past.moments, b.waiters[i]);
  }

  /** A waiter whose deadline has come, or whose condition was met, can return after the next check; it is
      the only one to leave, and its result says whether the condition was met. */
  lemma DueWaiterReturns(b: Broker, now: nat, i: nat) returns (checked: Effect, returned: Effect)
    requires Inv(b) && i < |b.waiters| && (b.waiters[i].met || b.waiters[i].deadline <= now)
    ensures Does(b, WaitersDue(now), checked) && Does(checked.broker, WaitResumed(i), returned)
    ensures returned.broker.waiters == checked.broker.waiters[..i] + checked.broker.waiters[i + 1..]
    ensures |returned.broker.past.waits| == |b.past.waits| + 1
    ensures returned.broker.past.waits[|b.past.waits|].met == b.waiters[i].met
  {
    checked := Effect(CheckWaiters(b, now), [], None);
    DueWaitersAreSignalled(b, now, checked, i);
    assert WaiterOk(b.past.moments, b.waiters[i]);
    returned := Effect(ResumeWaiter(checked.broker, i), [], None);
  }

  ghost predicate SameWaiter(b: Broker, c: Broker, i: nat) {
    i < |b.waiters| <= |c.waiters| && c.waiters[i] == b.waiters[i]
  }

  lemma {:induction false} RepliesLeaveWaiters(b: Broker, rs: seq<Reply>)
    ensures SendReplies(b, rs).broker.waiters == b.waiters
    decreases rs
  {
    if rs != [] {
      RepliesLeaveWaiters(SendReply(b, rs[0]).broker, rs[1..]);
    }
  }

  lemma AliveLeavesMet(b: Broker, n: NodeId, i: nat)
    requires n in b.table && i < |b.waiters| && b.waiters[i].met
    ensures SameWaiter(b, OnNodeAlive(b, n).broker, i)
  {
    var connected := Evaluate(b.(sockets := b.sockets[b.table[n].id := b.table[n].address]));
    if n in b.deferred {
      RepliesLeaveWaiters(connected.(deferred := connected.deferred - {n}), b.deferred[n]);
    }
  }

  lemma {:induction false} LearningLeavesMet(b: Broker, states: seq<NodeState>, i: nat)
    requires i < |b.waiters| && b.waiters[i].met
    ensures SameWaiter(b, LearnAll(b, states).broker, i)
    decreases states
  {
    if states != [] {
      var s := states[0];
      if s.id !in b.table {
        AliveLeavesMet(b.(table := b.table[s.id := s], past := b.past.(heard := b.past.heard + {s})), s.id, i);
      }
      if Learn(b, s).error.None? {
        LearningLeavesMet(Learn(b, s).broker, states[1..], i);
      }
    }
  }

  lemma {:induction false} LosingLeavesMet(b: Broker, lost: seq<NodeId>, i: nat)
    requires i < |b.waiters| && b.waiters[i].met
    ensures SameWaiter(b, OnNodesLost(b, lost), i)
    decreases lost
  {
    if lost != [] {
      LosingLeavesMet(OnNodeLost(b, lost[0]), lost[1..], i);
    }
  }

  /** A waiter that was met is signalled once: until some waiter returns, no handler touches it again. */
  lemma MetWaitersStay(b: Broker, e: Event, r: Effect, i: nat)
    requires Does(b, e, r) && !e.WaitResumed? && i < |b.waiters| && b.waiters[i].met
    ensures SameWaiter(b, r.broker, i)
  {
    match e
    case Received(m) =>
      if m.Gossip? {
        LearningLeavesMet(b, m.states, i);
      }
    case HeartbeatDue(now, lost) => LosingLeavesMet(b, lost, i);
    case _ =>
  }

  /** A wait for a condition that holds now is over at once; any other is queued behind those there are,
      with the deadline its timeout leads to, and nobody else notices. */
  lemma WaitBeginsExactly(b: Broker, condition: View -> bool, now: nat, timeout: nat, r: Effect)
    requires Inv(b) && Does(b, WaitBegun(condition, now, timeout), r)
    ensures condition(ViewOf(b.table)) ==>
              && r.broker.waiters == b.waiters && |r.broker.past.waits| == |b.past.waits| + 1
              && r.broker.past.waits[|b.past.waits|].met
    ensures !condition(ViewOf(b.table)) ==>
              && |r.broker.waiters| == |b.waiters| + 1 && r.broker.waiters[..|b.waiters|] == b.waiters
              && r.broker.past.waits == b.past.waits
              && var w := r.broker.waiters[|b.waiters|];
                 w.condition == condition && w.deadline == (now + timeout) % UINT64_RANGE && !w.met && w.permits == 1
    ensures r.broker.table == b.table && r.broker.outstanding == b.outstanding && r.sends == []
  {
  }

  // ---- requests and replies ----

  /** A request to a connected node goes to its socket and is outstanding under a new id; without a
      connection it fails, but its id is used up. */
  lemma RequestGoesOut(b: Broker, to: NodeId, data: Payload, r: Effect)
    requires Inv(b) && Does(b, RequestSent(to, data), r)
    ensures to in b.sockets ==>
              && r.error == None && r.sends == [Packet(b.sockets[to], TwoWay(b.self, to, b.nextRequest, data))]
              && b.nextRequest !in b.outstanding && b.nextRequest in r.broker.outstanding
              && r.broker.outstanding[b.nextRequest].target == to && r.broker.outstanding[b.nextRequest].permits == 1
              && r.broker.nextRequest == b.nextRequest + 1
    ensures to == b.self ==> r == Effect(b, [], Some(RequestToSelf))
    ensures to != b.self && to !in b.sockets ==>
              r == Effect(b.(nextRequest := b.nextRequest + 1), [], Some(NotConnected(to)))
    ensures forall id :: id in b.outstanding ==>
              id in r.broker.outstanding && r.broker.outstanding[id] == b.outstanding[id]
  {
    forall id | id in b.outstanding ensures id != b.nextRequest {
      assert RequestOk(b, id, b.outstanding[id]);
    }
  }

  /** A packet that names this node as the requester is stored as the response of that request, which is
      signalled and, unless its target was lost, will complete with this payload. A request that is no
      longer known changes nothing. */
  lemma ResponseCompletes(b: Broker, responder: NodeId, id: RequestId, payload: Payload, r: Effect)
    requires Inv(b) && Does(b, Received(TwoWay(b.self, responder, id, payload)), r)
    ensures id in b.outstanding ==>
              && id in r.broker.outstanding && r.broker.outstanding[id].permits <= 0
              && (!b.outstanding[id].failed ==> OutcomeOf(r.broker.outstanding[id]) == Replied(payload))
              && (b.outstanding[id].failed ==>
                    OutcomeOf(r.broker.outstanding[id]) == NodeLost(b.outstanding[id].target))
    ensures id !in b.outstanding ==> r.broker == b
    ensures r.broker == b.(outstanding := r.broker.outstanding) && r.sends == [] && r.error == None
    ensures forall k :: k != id ==>
              && (k in r.broker.outstanding <==> k in b.outstanding)
              && (k in b.outstanding ==> r.broker.outstanding[k] == b.outstanding[k])
  {
    if id in b.outstanding {
      assert RequestOk(b, id, b.outstanding[id]);
    }
  }

  /** A request that was signalled finishes with the loss of its target, if that came, and else with its
      response; it is outstanding no more. */
  lemma RequestFinishes(b: Broker, id: RequestId, r: Effect)
    requires Inv(b) && Does(b, RequestResumed(id), r)
    ensures id in b.outstanding && r.broker.outstanding == b.outstanding - {id}
    ensures |r.broker.past.completed| == |b.past.completed| + 1
    ensures var c := r.broker.past.completed[|b.past.completed|];
            && c.request == id
            && (b.outstanding[id].failed ==> c.outcome == NodeLost(b.outstanding[id].target))
            && (!b.outstanding[id].failed ==>
                  b.outstanding[id].response.Some? && c.outcome == Replied(b.outstanding[id].response.value))
    ensures r.broker.table == b.table && r.broker.sockets == b.sockets && r.broker.deferred == b.deferred
  {
    assert RequestOk(b, id, b.outstanding[id]);
  }

  /** A packet that names this node only as the responder sets off its handler, once more for every copy
      that arrives. */
  lemma RequestIsHandled(b: Broker, requester: NodeId, id: RequestId, payload: Payload, r: Effect)
    requires Inv(b) && requester != b.self && Does(b, Received(TwoWay(requester, b.self, id, payload)), r)
    ensures r.broker.handling[(requester, id, payload)] == b.handling[(requester, id, payload)] + 1
    ensures forall q :: q != (requester, id, payload) ==> r.broker.handling[q] == b.handling[q]
    ensures r.broker == b.(handling := r.broker.handling) && r.sends == [] && r.error == None
  {
  }

  /** A handler that finishes leaves one reply with its data: in a packet to the requester's socket, or
      behind the replies that wait for the requester already. */
  lemma ReplyIsKept(b: Broker, q: (NodeId, RequestId, Payload), data: Payload, r: Effect)
    requires Inv(b) && Does(b, HandlerFinished(q, data), r)
    ensures r.broker.handling == b.handling - multiset{q}
    ensures r.broker.past.answers == b.past.answers + {Answer(q.0, q.1, q.2, data)}
    ensures q.0 in b.sockets ==>
              && r.sends == [Packet(b.sockets[q.0], TwoWay(q.0, b.self, q.1, data))]
              && r.broker.deferred == b.deferred
    ensures q.0 !in b.sockets ==>
              && r.sends == [] && q.0 in r.broker.deferred && r.broker.deferred.Keys == b.deferred.Keys + {q.0}
              && r.broker.deferred[q.0] == (if q.0 in b.deferred then b.deferred[q.0] else []) + [Reply(q.0, q.1, data)]
              && forall n :: n in b.deferred && n != q.0 ==> r.broker.deferred[n] == b.deferred[n]
    ensures r.broker.table == b.table && r.broker.outstanding == b.outstanding && r.error == None
  {
  }

  // ---- gossip ----

  /** A gossip round stamps the node's own entry with the time and sends the table to each peer and, if
      one is configured, to the contact, and nothing else. */
  lemma GossipGoesOut(b: Broker, now: nat, peers: seq<NodeId>, states: seq<NodeState>, r: Effect)
    requires Inv(b) && Does(b, GossipDue(now, peers, states), r) && b.config.fanout > 0
    ensures r.broker.table == b.table[b.self := b.table[b.self].(lastSeen := now)] && r.error == None
    ensures r.broker.sockets == b.sockets && r.broker.outstanding == b.outstanding && r.broker.waiters == b.waiters
    ensures forall n :: n in r.broker.table ==> r.broker.table[n] in states
    ensures |peers| == if b.config.fanout < |b.table| - 1 then b.config.fanout else |b.table| - 1
    ensures forall i, j :: 0 <= i < j < |peers| ==> peers[i] != peers[j] && peers[i] != b.self && peers[j] != b.self
    ensures |r.sends| == |peers| + if b.config.contact == "" then 0 else 1
    ensures forall i :: 0 <= i < |peers| ==>
              peers[i] in b.sockets && r.sends[i] == Packet(b.sockets[peers[i]], Gossip(b.self, states))
    ensures b.config.contact != "" ==> r.sends[|peers|] == Packet(b.config.contact, Gossip(b.self, states))
  {
    BroadcastKeeps(b, now, peers, states);
    ToPeersSends(Stamp(b, now), peers, Gossip(b.self, states));
  }

  /** A broker starts only with an address that is not its contact's, knowing nobody but itself. */
  lemma StartsAlone(self: NodeId, config: Config, now: nat)
    ensures Create(self, config, now) == None <==> config.address == "" || config.contact == config.address
    ensures Create(self, config, now).Some? ==>
              var b := Create(self, config, now).value;
              && b.table == map[self := NodeState(now, self, config.address, config.name)] && b.sockets == map[]
              && b.outstanding == map[] && b.deferred == map[] && b.waiters == [] && b.nextRequest == 0
  {
  }
}
