/** The broker as it is written: one object whose handlers update its fields and loop over them.
    Every handler is proved to do exactly what BrokerModel says, so everything proved of runs of the
    model holds of this object. */
module MessageBrokerClass {
  import opened BrokerInvariant
  import opened BrokerModel
  import opened Numbers
  import opened Options

  lemma SendRepliesFrom(b: Broker, rs: seq<Reply>, i: nat, outbox: seq<Packet>)
    requires i < |rs|
    ensures SendReplies(b, rs[i..]).broker == SendReplies(SendReply(b, rs[i]).broker, rs[i + 1..]).broker
    ensures outbox + SendReplies(b, rs[i..]).sends ==
              outbox + SendReply(b, rs[i]).sends + SendReplies(SendReply(b, rs[i]).broker, rs[i + 1..]).sends
  {
    assert rs[i..][1..] == rs[i + 1..];
  }

  lemma LearnAllFrom(b: Broker, states: seq<NodeState>, i: nat)
    requires i < |states|
    ensures var first, all := Learn(b, states[i]), LearnAll(b, states[i..]);
            if first.error.Some? then all == first
            else
              var rest := LearnAll(first.broker, states[i + 1..]);
              all == Effect(rest.broker, first.sends + rest.sends, rest.error)
  {
    assert states[i..][1..] == states[i + 1..];
  }

  lemma Regroup(outbox: seq<Packet>, first: seq<Packet>, rest: seq<Packet>)
    ensures outbox + (first + rest) == outbox + first + rest
  {
  }

  lemma ToPeersFrom(b: Broker, peers: seq<NodeId>, m: Message, i: nat, outbox: seq<Packet>)
    requires i < |peers| && peers[i] in b.table && peers[i] in b.sockets
    ensures ToPeers(b, peers[i..], m).error == ToPeers(b, peers[i + 1..], m).error
    ensures outbox + ToPeers(b, peers[i..], m).sends ==
              outbox + [Packet(b.sockets[peers[i]], m)] + ToPeers(b, peers[i + 1..], m).sends
  {
    assert peers[i..][1..] == peers[i + 1..];
  }

  lemma StampKeepsPeers(b: Broker, now: nat, peers: seq<NodeId>)
    requires SocketsOk(b)
    ensures SocketsOk(Stamp(b, now)) && (PicksPeers(Stamp(b, now), peers) <==> PicksPeers(b, peers))
  {
    assert |Stamp(b, now).table.Keys| == |b.table.Keys| by {
      assert Stamp(b, now).table.Keys == b.table.Keys;
    }
  }

  class MessageBroker {
    const self: NodeId
    const config: Config
    var nextRequest: RequestId
    var deferred: map<NodeId, seq<Reply>>
    var outstanding: map<RequestId, Outstanding>
    var table: map<NodeId, NodeState>
    var waiters: seq<Waiter>
    var sockets: map<NodeId, Address>
    var outbox: seq<Packet>                              // everything the sockets were given
    var handling: multiset<(NodeId, RequestId, Payload)> // suspended handlers
    var past: Past                                       // history: nothing reads it

    ghost function Model(): Broker
      reads this
    {
      Broker(self, config, nextRequest, deferred, outstanding, table, waiters, sockets, handling, past)
    }

    /** The call led to this state, sent these packets and failed with this error, if any. */
    twostate predicate Did(new r: Effect, new error: Option<Error>)
      reads this
    {
      Model() == r.broker && outbox == old(outbox) + r.sends && error == r.error
    }

    constructor (self: NodeId, config: Config, now: nat)
      requires Create(self, config, now).Some?
      ensures Create(self, config, now) == Some(Model()) && outbox == []
      ensures BrokerInvariant.Inv(Model())
    {
      this.self, this.config := self, config;
      nextRequest, deferred, outstanding, waiters, sockets, outbox := 0, map[], map[], [], map[], [];
      table := map[self := NodeState(now, self, config.address, config.name)];
      handling, past := multiset{}, Create(self, config, now).value.past;
      new;
      CreateHolds(self, config, now);
    }

    // ---- cluster-state waiters ----

    method BuildAliveNodeInfoList() returns (view: View)
      ensures view == ViewOf(table)
    {
      view := map[];
      var rest := table.Keys;
      while rest != {}
        invariant rest <= table.Keys
        invariant view.Keys == table.Keys - rest
        invariant forall n :: n in view ==> view[n] == NodeInfo(table[n].address, table[n].name)
      {
        var n :| n in rest;
        view := view[n := NodeInfo(table[n].address, table[n].name)];
        rest := rest - {n};
      }
    }

    method EvaluateClusterStateWaiters()
      modifies this`waiters, this`past
      ensures Model() == Evaluate(old(Model()))
    {
      var view := BuildAliveNodeInfoList();
      for i := 0 to |waiters|
        invariant |waiters| == |old(waiters)| && past == old(past)
        invariant forall j :: 0 <= j < i ==> waiters[j] == WakeIfMet(old(waiters)[j], view)
        invariant forall j :: i <= j < |waiters| ==> waiters[j] == old(waiters)[j]
      {
        var w := waiters[i];
        if !w.met && w.condition(view) {
          waiters := waiters[i := w.(met := true, permits := w.permits - 1)];
        }
      }
      past := past.(moments := past.moments + [view]);
      assert waiters == WakeMet(old(waiters), view);
    }

    method CheckClusterStateWaiterTimeout(now: nat)
      modifies this`waiters
      ensures Does(old(Model()), WaitersDue(now), Effect(Model(), [], None))
    {
      for i := 0 to |waiters|
        invariant |waiters| == |old(waiters)|
        invariant forall j :: 0 <= j < i ==> waiters[j] == WakeIfOverdue(old(waiters)[j], now)
        invariant forall j :: i <= j < |waiters| ==> waiters[j] == old(waiters)[j]
      {
        var w := waiters[i];
        if !w.met && w.deadline <= now {
          waiters := waiters[i := w.(permits := w.permits - 1, history := w.history.(overdue := Some(now)))];
        }
      }
      assert waiters == WakeOverdue(old(waiters), now);
    }

    /** WaitClusterState up to its suspension: it suspends exactly if the condition does not hold. */
    method WaitClusterState(condition: View -> bool, now: nat, timeout: nat) returns (met: bool)
      requires |past.moments| > 0
      modifies this`waiters, this`past
      ensures Does(old(Model()), WaitBegun(condition, now, timeout), Effect(Model(), [], None))
      ensures met <==> condition(ViewOf(table))
      ensures |waiters| == |old(waiters)| + if met then 0 else 1
    {
      var view := BuildAliveNodeInfoList();
      var wait := Wait(condition, |past.moments| - 1, now, timeout, None);
      met := condition(view);
      if met {
        past := past.(waits := past.waits + [Waited(wait, wait.since, true)]);
      } else {
        waiters := waiters + [Waiter(1, Deadline(now, timeout), false, condition, wait)];
      }
    }

    /** WaitClusterState after its suspension. */
    method FinishWait(i: nat) returns (met: bool, view: View)
      requires i < |waiters| && waiters[i].permits <= 0 && |past.moments| > 0
      modifies this`waiters, this`past
      ensures Does(old(Model()), WaitResumed(i), Effect(Model(), [], None))
      ensures met == old(waiters)[i].met && view == ViewOf(table)
    {
      var w := waiters[i];
      met := w.met;
      waiters := waiters[..i] + waiters[i + 1..];
      past := past.(waits := past.waits + [Waited(w.history, |past.moments| - 1, w.met)]);
      view := BuildAliveNodeInfoList();
    }

    // ---- requests and replies ----

    /** SendRequest up to its suspension. */
    method SendRequest(to: NodeId, data: Payload) returns (id: RequestId, error: Option<Error>)
      modifies this`nextRequest, this`outstanding, this`outbox, this`past
      ensures Did(BrokerModel.SendRequest(old(Model()), to, data), error)
      ensures error.None? ==> id == old(nextRequest) && id in outstanding
    {
      id, error := nextRequest, None;
      if to == self {
        error := Some(RequestToSelf);
        return;
      }
      nextRequest := nextRequest + 1;
      if to !in sockets {
        error := Some(NotConnected(to));
        return;
      }
      outbox := outbox + [Packet(sockets[to], TwoWay(self, to, id, data))];
      outstanding := outstanding[id := Outstanding(1, to, None, false)];
      past := past.(issued := past.issued[id := Issue(to, data)]);
    }

    /** SendRequest after its suspension. */
    method FinishSend(id: RequestId) returns (outcome: Outcome)
      requires id in outstanding && outstanding[id].permits <= 0
      modifies this`outstanding, this`past
      ensures Does(old(Model()), RequestResumed(id), Effect(Model(), [], None))
      ensures outcome == OutcomeOf(old(outstanding)[id])
      ensures id !in outstanding
    {
      var o := outstanding[id];
      outstanding := outstanding - {id};
      outcome := if o.failed then NodeLost(o.target) else Replied(if o.response.Some? then o.response.value else []);
      past := past.(completed := past.completed + [Completion(id, outcome)]);
    }

    method HandleRepliedResponse(id: RequestId, payload: Payload)
      modifies this`outstanding
      ensures Model() == HandleResponse(old(Model()), id, payload)
    {
      if id in outstanding {
        var o := outstanding[id];
        outstanding := outstanding[id := o.(response := Some(payload), permits := o.permits - 1)];
      }
    }

    method SendReply(r: Reply)
      modifies this`deferred, this`outbox
      ensures Did(BrokerModel.SendReply(old(Model()), r), None)
    {
      if r.requester !in sockets {
        var waiting := if r.requester in deferred then deferred[r.requester] else [];
        deferred := deferred[r.requester := waiting + [r]];
        return;
      }
      outbox := outbox + [Packet(sockets[r.requester], TwoWay(r.requester, self, r.request, r.data))];
    }

    /** HandleIncomingRequest after the handler produced its data. */
    method FinishHandler(request: (NodeId, RequestId, Payload), data: Payload)
      requires request in handling
      modifies this`handling, this`past, this`deferred, this`outbox
      ensures exists r :: Does(old(Model()), HandlerFinished(request, data), r) && Did(r, None)
    {
      ghost var r := FinishRequest(Model(), request, data);
      handling := handling - multiset{request};
      past := past.(answers := past.answers + {Answer(request.0, request.1, request.2, data)});
      SendReply(Reply(request.0, request.1, data));
      assert Does(old(Model()), HandlerFinished(request, data), r);
    }

    // ---- membership ----

    method OnNodeAlive(n: NodeId)
      requires n in table
      modifies this`sockets, this`waiters, this`past, this`deferred, this`outbox
      ensures Did(BrokerModel.OnNodeAlive(old(Model()), n), None)
    {
      var node := table[n];
      sockets := sockets[node.id := node.address];
      EvaluateClusterStateWaiters();
      if n !in deferred {
        return;
      }
      var replies := deferred[n];
      deferred := deferred - {n};
      FlushDeferred(replies);
    }

    method FlushDeferred(replies: seq<Reply>)
      modifies this`deferred, this`outbox
      ensures Did(SendReplies(old(Model()), replies), None)
    {
      ghost var whole := SendReplies(Model(), replies);
      assert replies[0..] == replies;
      for i := 0 to |replies|
        invariant SendReplies(Model(), replies[i..]).broker == whole.broker
        invariant outbox + SendReplies(Model(), replies[i..]).sends == old(outbox) + whole.sends
      {
        SendRepliesFrom(Model(), replies, i, outbox);
        SendReply(replies[i]);
      }
    }

    /** The requests to a node, collected before any of them is signalled. */
    method RequestsTo(n: NodeId) returns (ids: seq<RequestId>)
      ensures forall id :: id in ids <==> id in outstanding && outstanding[id].target == n
      ensures forall i, j :: 0 <= i < j < |ids| ==> ids[i] != ids[j]
    {
      ids := [];
      var rest := outstanding.Keys;
      while rest != {}
        invariant rest <= outstanding.Keys
        invariant forall id :: id in ids <==> id in outstanding.Keys - rest && outstanding[id].target == n
        invariant forall i, j :: 0 <= i < j < |ids| ==> ids[i] != ids[j]
      {
        var id :| id in rest;
        if outstanding[id].target == n {
          ids := ids + [id];
        }
        rest := rest - {id};
      }
    }

    method FailRequests(n: NodeId)
      modifies this`outstanding
      ensures outstanding == map id | id in old(outstanding) :: FailIfTarget(old(outstanding)[id], n)
    {
      var ids := RequestsTo(n);
      for i := 0 to |ids|
        invariant outstanding.Keys == old(outstanding).Keys
        invariant forall id :: id in outstanding ==>
                    outstanding[id] == if id in ids[..i] then FailIfTarget(old(outstanding)[id], n)
                                       else old(outstanding)[id]
      {
        assert ids[i] in outstanding;
        var o := outstanding[ids[i]];
        outstanding := outstanding[ids[i] := o.(failed := true, permits := o.permits - 1)];
      }
      assert ids[..|ids|] == ids;
    }

    method OnNodeConnectionLost(n: NodeId)
      modifies this`outstanding, this`table, this`sockets, this`waiters, this`past
      ensures Model() == OnNodeLost(old(Model()), n)
    {
      FailRequests(n);
      table := table - {n};
      sockets := sockets - {n};
      past := past.(heard := Forget(past.heard, n));
      EvaluateClusterStateWaiters();
    }

    method CheckHeartbeatTimeout(now: nat) returns (lost: seq<NodeId>)
      modifies this`outstanding, this`table, this`sockets, this`waiters, this`past
      ensures Does(old(Model()), HeartbeatDue(now, lost), Effect(Model(), [], None))
    {
      lost := [];
      var rest := table.Keys;
      while rest != {}
        invariant rest <= table.Keys
        invariant forall i :: 0 <= i < |lost| ==> lost[i] in table.Keys - rest && TimedOut(Model(), lost[i], now)
        invariant forall i, j :: 0 <= i < j < |lost| ==> lost[i] != lost[j]
        invariant forall n :: n in table.Keys - rest && TimedOut(Model(), n, now) ==> n in lost
      {
        var n :| n in rest;
        rest := rest - {n};
        if n == self || table[n].lastSeen >= now || now - table[n].lastSeen < config.heartbeatTimeout {
          continue;
        }
        lost := lost + [n];
      }
      for i := 0 to |lost|
        invariant unchanged(`deferred) && unchanged(`nextRequest) && unchanged(`handling)
        invariant OnNodesLost(Model(), lost[i..]) == OnNodesLost(old(Model()), lost)
      {
        assert lost[i..][0] == lost[i] && lost[i..][1..] == lost[i + 1..];
        OnNodeConnectionLost(lost[i]);
      }
    }

    method HandleGossipMessage(states: seq<NodeState>) returns (error: Option<Error>)
      modifies this`table, this`sockets, this`waiters, this`past, this`deferred, this`outbox
      ensures Did(LearnAll(old(Model()), states), error)
    {
      ghost var whole := LearnAll(Model(), states);
      assert states[0..] == states;
      for i := 0 to |states|
        invariant unchanged(`outstanding) && unchanged(`nextRequest) && unchanged(`handling)
        invariant LearnAll(Model(), states[i..]).broker == whole.broker
        invariant LearnAll(Model(), states[i..]).error == whole.error
        invariant outbox + LearnAll(Model(), states[i..]).sends == old(outbox) + whole.sends
      {
        LearnAllFrom(Model(), states, i);
        Regroup(outbox, Learn(Model(), states[i]).sends,
                LearnAll(Learn(Model(), states[i]).broker, states[i + 1..]).sends);
        error := LearnOne(states[i]);
        if error.Some? {
          return;
        }
      }
      error := None;
    }

    method LearnOne(s: NodeState) returns (error: Option<Error>)
      modifies this`table, this`sockets, this`waiters, this`past, this`deferred, this`outbox
      ensures Did(Learn(old(Model()), s), error)
    {
      error := None;
      if s.id !in table {
        table := table[s.id := s];
        past := past.(heard := past.heard + {s});
        OnNodeAlive(s.id);
        return;
      }
      var known := table[s.id];
      if known.address != s.address {
        error := Some(ConflictingAddress);
        return;
      }
      if known.name != s.name {
        error := Some(ConflictingName);
        return;
      }
      table := table[s.id := known.(lastSeen := Max(known.lastSeen, s.lastSeen))];
      past := past.(heard := past.heard + {s});
    }

    method DispatchReceivedMessage(m: Message) returns (error: Option<Error>)
      modifies this`table, this`sockets, this`waiters, this`past, this`deferred, this`outbox
      modifies this`outstanding, this`handling
      ensures exists r :: Does(old(Model()), Received(m), r) && Did(r, error)
    {
      ghost var r := Receive(Model(), m);
      error := None;
      match m {
        case Gossip(from, states) =>
          error := HandleGossipMessage(states);
        case TwoWay(requester, responder, id, payload) =>
          if requester == self {
            HandleRepliedResponse(id, payload);
          } else if responder == self {
            handling := handling + multiset{(requester, id, payload)};
          } else {
            error := Some(NotAddressedHere);
          }
      }
      assert Does(old(Model()), Received(m), r);
    }

    // ---- gossip ----

    /** Some known nodes other than this one, as many as asked for or all there are. */
    method GetRandomPeers(fanout: nat) returns (peers: seq<NodeId>)
      requires self in table && fanout == config.fanout
      ensures PicksPeers(Model(), peers)
    {
      peers := [];
      var rest := table.Keys - {self};
      while rest != {} && |peers| < fanout
        invariant rest <= table.Keys - {self}
        invariant forall i :: 0 <= i < |peers| ==> peers[i] in table.Keys - {self} - rest
        invariant forall i, j :: 0 <= i < j < |peers| ==> peers[i] != peers[j]
        invariant |peers| + |rest| == |table.Keys| - 1 && |peers| <= fanout
      {
        var n :| n in rest;
        peers := peers + [n];
        rest := rest - {n};
      }
      assert |table| == |table.Keys|;
    }

    method ListStates() returns (states: seq<NodeState>)
      requires SocketsOk(Model())
      ensures ListsTable(Model(), states)
    {
      states := [];
      var rest := table.Keys;
      while rest != {}
        invariant rest <= table.Keys && |states| + |rest| == |table.Keys|
        invariant forall i :: 0 <= i < |states| ==> states[i].id in table && table[states[i].id] == states[i]
        invariant forall n :: n in table.Keys - rest ==> table[n] in states
      {
        var n :| n in rest;
        states := states + [table[n]];
        rest := rest - {n};
      }
      assert |table| == |table.Keys|;
    }

    method SendToPeers(peers: seq<NodeId>, m: Message)
      requires SocketsOk(Model()) && PicksPeers(Model(), peers)
      modifies this`outbox
      ensures outbox == old(outbox) + ToPeers(Model(), peers, m).sends && ToPeers(Model(), peers, m).error == None
    {
      assert peers[0..] == peers;
      for i := 0 to |peers|
        invariant outbox + ToPeers(Model(), peers[i..], m).sends == old(outbox) + ToPeers(Model(), peers, m).sends
        invariant ToPeers(Model(), peers[i..], m).error == ToPeers(Model(), peers, m).error
      {
        ToPeersFrom(Model(), peers, m, i, outbox);
        outbox := outbox + [Packet(sockets[peers[i]], m)];
      }
    }

    method StampOwnEntry(now: nat)
      requires SocketsOk(Model())
      modifies this`table, this`past
      ensures Model() == Stamp(old(Model()), now)
    {
      table := table[self := table[self].(lastSeen := now)];
      past := past.(heard := Forget(past.heard, self) + {table[self]});
    }

    method BroadcastGossip(now: nat)
      returns (error: Option<Error>, peers: seq<NodeId>, states: seq<NodeState>)
      requires SocketsOk(Model())
      modifies this`table, this`past, this`outbox
      ensures PicksPeers(old(Model()), peers) && ListsTable(Stamp(old(Model()), now), states)
      ensures Did(Broadcast(old(Model()), now, peers, states), error)
    {
      error := None;
      ghost var before := Model();
      StampOwnEntry(now);
      StampKeepsPeers(before, now, []);
      states := ListStates();
      peers := GetRandomPeers(config.fanout);
      StampKeepsPeers(before, now, peers);
      if config.fanout == 0 {
        error := Some(NoFanout);
        return;
      }
      var m := Gossip(self, states);
      SendToPeers(peers, m);
      if config.contact != "" {
        outbox := outbox + [Packet(config.contact, m)];
      }
    }
  }
}
