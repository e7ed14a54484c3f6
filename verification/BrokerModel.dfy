/** The message broker of one node: its state, and what each handler does to it. A handler is one
    atomic step up to its first suspension; a resumed coroutine is a later step. */
module BrokerModel {
  import opened Numbers
  import opened Options

  type NodeId = nat
  type RequestId = nat
  type Address = string
  type Payload = seq<bv8>

  datatype NodeState = NodeState(lastSeen: nat, id: NodeId, address: Address, name: string)

  datatype NodeInfo = NodeInfo(address: Address, name: string)

  /** The cluster as predicates see it: the alive nodes, in no particular order. */
  type View = map<NodeId, NodeInfo>

  datatype Message =
    | Gossip(from: NodeId, states: seq<NodeState>)
    | TwoWay(requester: NodeId, responder: NodeId, request: RequestId, payload: Payload)

  /** What a socket carries: the address it is connected to, and the message. */
  datatype Packet = Packet(to: Address, message: Message)

  /** contact is empty if the node knows nobody at start. */
  datatype Config = Config(address: Address, name: string, contact: Address, heartbeatTimeout: nat, fanout: nat)

  /** permits is the value of the request's semaphore; it is drained at zero or below. */
  datatype Outstanding = Outstanding(permits: int, target: NodeId, response: Option<Payload>, failed: bool)

  datatype Reply = Reply(requester: NodeId, request: RequestId, data: Payload)

  /** history: the moment of the registration, its time, the timeout asked for, and the time at
      which a check found the deadline passed. */
  datatype Wait = Wait(condition: View -> bool, since: nat, begun: nat, timeout: nat, overdue: Option<nat>)

  datatype Waiter = Waiter(permits: int, deadline: nat, met: bool, condition: View -> bool, history: Wait)

  datatype Outcome = Replied(payload: Payload) | NodeLost(node: NodeId)

  // ---- history ----

  datatype Issue = Issue(target: NodeId, payload: Payload)

  datatype Answer = Answer(requester: NodeId, request: RequestId, question: Payload, data: Payload)

  datatype Completion = Completion(request: RequestId, outcome: Outcome)

  /** A finished wait: its result, and the last moment before it finished. */
  datatype Waited = Waited(wait: Wait, until: nat, met: bool)

  datatype Past = Past(
    moments: seq<View>,                   // every view the node has had
    heard: set<NodeState>,                // what was learnt about each node since it was last lost
    issued: map<RequestId, Issue>,
    answers: set<Answer>,
    completed: seq<Completion>,
    waits: seq<Waited>
  )

  datatype Broker = Broker(
    self: NodeId,
    config: Config,
    nextRequest: RequestId,
    deferred: map<NodeId, seq<Reply>>,
    outstanding: map<RequestId, Outstanding>,
    table: map<NodeId, NodeState>,
    waiters: seq<Waiter>,
    sockets: map<NodeId, Address>,
    handling: multiset<(NodeId, RequestId, Payload)>,  // requests whose handler is running
    past: Past
  )

  datatype Error =
    | BadConfig
    | ConflictingAddress
    | ConflictingName
    | NotAddressedHere
    | RequestToSelf
    | NotConnected(node: NodeId)
    | NoFanout
    | MissingKey            // a MapAt lookup failed

  datatype Effect = Effect(broker: Broker, sends: seq<Packet>, error: Option<Error>)

  // ---- creation ----

  /** The constructor; None stands for a failed check. */
  function Create(self: NodeId, config: Config, now: nat): Option<Broker> {
    if config.address == "" || config.contact == config.address then None
    else
      var own := NodeState(now, self, config.address, config.name);
      Some(Broker(self, config, 0, map[], map[], map[self := own], [], map[], multiset{},
                  Past([ViewOf(map[self := own])], {own}, map[], {}, [], [])))
  }

  function ViewOf(table: map<NodeId, NodeState>): View {
    map n | n in table :: NodeInfo(table[n].address, table[n].name)
  }

  // ---- waiting for a cluster state ----

  function WakeIfMet(w: Waiter, view: View): Waiter {
    if !w.met && w.condition(view) then w.(met := true, permits := w.permits - 1) else w
  }

  function WakeMet(waiters: seq<Waiter>, view: View): (r: seq<Waiter>)
    ensures |r| == |waiters| && forall i :: 0 <= i < |waiters| ==> r[i] == WakeIfMet(waiters[i], view)
  {
    if waiters == [] then [] else [WakeIfMet(waiters[0], view)] + WakeMet(waiters[1..], view)
  }

  /** Called after every change of the set of alive nodes, so it also records the new view. */
  function Evaluate(b: Broker): Broker {
    b.(waiters := WakeMet(b.waiters, ViewOf(b.table)),
       past := b.past.(moments := b.past.moments + [ViewOf(b.table)]))
  }

  const UINT64_RANGE: nat := 0x1_0000_0000_0000_0000

  /** Deadlines are 64-bit: a huge timeout wraps. */
  function Deadline(now: nat, timeout: nat): nat {
    (now + timeout) % UINT64_RANGE
  }

  function WaitFor(b: Broker, condition: View -> bool, now: nat, timeout: nat): Broker
    requires |b.past.moments| > 0
  {
    var since := |b.past.moments| - 1;
    var wait := Wait(condition, since, now, timeout, None);
    if condition(ViewOf(b.table)) then
      b.(past := b.past.(waits := b.past.waits + [Waited(wait, since, true)]))
    else
      b.(waiters := b.waiters + [Waiter(1, Deadline(now, timeout), false, condition, wait)])
  }

  function WakeIfOverdue(w: Waiter, now: nat): Waiter {
    if !w.met && w.deadline <= now then
      w.(permits := w.permits - 1, history := w.history.(overdue := Some(now)))
    else w
  }

  function WakeOverdue(waiters: seq<Waiter>, now: nat): (r: seq<Waiter>)
    ensures |r| == |waiters| && forall i :: 0 <= i < |waiters| ==> r[i] == WakeIfOverdue(waiters[i], now)
  {
    if waiters == [] then [] else [WakeIfOverdue(waiters[0], now)] + WakeOverdue(waiters[1..], now)
  }

  function CheckWaiters(b: Broker, now: nat): Broker {
    b.(waiters := WakeOverdue(b.waiters, now))
  }

  /** The coroutine of the i-th waiter resumes after its semaphore is drained. */
  function ResumeWaiter(b: Broker, i: nat): Broker
    requires i < |b.waiters| && b.waiters[i].permits <= 0 && |b.past.moments| > 0
  {
    var w := b.waiters[i];
    b.(waiters := b.waiters[..i] + b.waiters[i + 1..],
       past := b.past.(waits := b.past.waits + [Waited(w.history, |b.past.moments| - 1, w.met)]))
  }

  // ---- requests and replies ----

  /** The request id is consumed even if the target is not connected. */
  function SendRequest(b: Broker, to: NodeId, data: Payload): Effect {
    if to == b.self then Effect(b, [], Some(RequestToSelf))
    else
      var id := b.nextRequest;
      if to !in b.sockets then
        Effect(b.(nextRequest := id + 1), [], Some(NotConnected(to)))
      else
        Effect(b.(nextRequest := id + 1,
                  outstanding := b.outstanding[id := Outstanding(1, to, None, false)],
                  past := b.past.(issued := b.past.issued[id := Issue(to, data)])),
               [Packet(b.sockets[to], TwoWay(b.self, to, id, data))], None)
  }

  /** A response to a request that is no longer known is ignored. */
  function HandleResponse(b: Broker, id: RequestId, payload: Payload): Broker {
    if id !in b.outstanding then b
    else
      var o := b.outstanding[id];
      b.(outstanding := b.outstanding[id := o.(response := Some(payload), permits := o.permits - 1)])
  }

  /** An exception takes precedence over a response that also arrived. */
  function OutcomeOf(o: Outstanding): Outcome {
    if o.failed then NodeLost(o.target)
    else match o.response case Some(p) => Replied(p) case None => Replied([])
  }

  function ResumeRequest(b: Broker, id: RequestId): Broker
    requires id in b.outstanding && b.outstanding[id].permits <= 0
  {
    b.(outstanding := b.outstanding - {id},
       past := b.past.(completed := b.past.completed + [Completion(id, OutcomeOf(b.outstanding[id]))]))
  }

  function SendReply(b: Broker, r: Reply): Effect {
    if r.requester in b.sockets then
      Effect(b, [Packet(b.sockets[r.requester], TwoWay(r.requester, b.self, r.request, r.data))], None)
    else
      var waiting := if r.requester in b.deferred then b.deferred[r.requester] else [];
      Effect(b.(deferred := b.deferred[r.requester := waiting + [r]]), [], None)
  }

  function SendReplies(b: Broker, rs: seq<Reply>): Effect
    decreases rs
  {
    if rs == [] then Effect(b, [], None)
    else
      var first := SendReply(b, rs[0]);
      var rest := SendReplies(first.broker, rs[1..]);
      Effect(rest.broker, first.sends + rest.sends, None)
  }

  /** A handler finished: its reply is sent or deferred. */
  function FinishRequest(b: Broker, request: (NodeId, RequestId, Payload), data: Payload): Effect
    requires request in b.handling
  {
    SendReply(b.(handling := b.handling - multiset{request},
                 past := b.past.(answers := b.past.answers
                           + {Answer(request.0, request.1, request.2, data)})),
              Reply(request.0, request.1, data))
  }

  // ---- membership ----

  function OnNodeAlive(b: Broker, n: NodeId): Effect
    requires n in b.table
  {
    var connected := Evaluate(b.(sockets := b.sockets[b.table[n].id := b.table[n].address]));
    if n in b.deferred then
      SendReplies(connected.(deferred := connected.deferred - {n}), b.deferred[n])
    else
      Effect(connected, [], None)
  }

  function FailIfTarget(o: Outstanding, n: NodeId): Outstanding {
    if o.target == n then o.(failed := true, permits := o.permits - 1) else o
  }

  /** Forget what was learnt about one node. */
  function Forget(heard: set<NodeState>, n: NodeId): set<NodeState> {
    set s | s in heard && s.id != n
  }

  function OnNodeLost(b: Broker, n: NodeId): Broker {
    Evaluate(b.(outstanding := map id | id in b.outstanding :: FailIfTarget(b.outstanding[id], n),
                table := b.table - {n},
                sockets := b.sockets - {n},
                past := b.past.(heard := Forget(b.past.heard, n))))
  }

  function OnNodesLost(b: Broker, lost: seq<NodeId>): Broker
    decreases lost
  {
    if lost == [] then b else OnNodesLost(OnNodeLost(b, lost[0]), lost[1..])
  }

  /** A timestamp in the future counts as just seen. */
  predicate TimedOut(b: Broker, n: NodeId, now: nat)
    requires n in b.table
  {
    n != b.self && b.table[n].lastSeen < now && now - b.table[n].lastSeen >= b.config.heartbeatTimeout
  }

  /** The timed-out nodes, in some order of iteration over the table. */
  ghost predicate ListsTimedOut(b: Broker, now: nat, lost: seq<NodeId>) {
    && (forall i :: 0 <= i < |lost| ==> lost[i] in b.table && TimedOut(b, lost[i], now))
    && (forall n :: n in b.table && TimedOut(b, n, now) ==> n in lost)
    && (forall i, j :: 0 <= i < j < |lost| ==> lost[i] != lost[j])
  }

  /** One entry of a gossip message. */
  function Learn(b: Broker, s: NodeState): Effect {
    if s.id !in b.table then
      OnNodeAlive(b.(table := b.table[s.id := s], past := b.past.(heard := b.past.heard + {s})), s.id)
    else
      var known := b.table[s.id];
      if known.address != s.address then Effect(b, [], Some(ConflictingAddress))
      else if known.name != s.name then Effect(b, [], Some(ConflictingName))
      else
        Effect(b.(table := b.table[s.id := known.(lastSeen := Max(known.lastSeen, s.lastSeen))],
                  past := b.past.(heard := b.past.heard + {s})), [], None)
  }

  function SetOf(states: seq<NodeState>): set<NodeState> {
    set s | s in states
  }

  /** A conflict ends the handler; what was learnt before it stays. */
  function LearnAll(b: Broker, states: seq<NodeState>): Effect
    decreases states
  {
    if states == [] then Effect(b, [], None)
    else
      var first := Learn(b, states[0]);
      if first.error.Some? then first
      else
        var rest := LearnAll(first.broker, states[1..]);
        Effect(rest.broker, first.sends + rest.sends, rest.error)
  }

  function Receive(b: Broker, m: Message): Effect {
    match m
    case Gossip(from, states) => LearnAll(b, states)
    case TwoWay(requester, responder, id, payload) =>
      if requester == b.self then Effect(HandleResponse(b, id, payload), [], None)
      else if responder == b.self then
        Effect(b.(handling := b.handling + multiset{(requester, id, payload)}), [], None)
      else Effect(b, [], Some(NotAddressedHere))
  }

  // ---- gossip ----

  function Stamp(b: Broker, now: nat): Broker
    requires b.self in b.table
  {
    var own := b.table[b.self].(lastSeen := now);
    b.(table := b.table[b.self := own], past := b.past.(heard := Forget(b.past.heard, b.self) + {own}))
  }

  /** Some peers: distinct known nodes other than this one, as many as the fanout allows. */
  ghost predicate PicksPeers(b: Broker, peers: seq<NodeId>) {
    && (forall i :: 0 <= i < |peers| ==> peers[i] in b.table && peers[i] != b.self)
    && (forall i, j :: 0 <= i < j < |peers| ==> peers[i] != peers[j])
    && |peers| == if b.config.fanout < |b.table| - 1 then b.config.fanout else |b.table| - 1
  }

  /** The whole table, in some order of iteration. */
  ghost predicate ListsTable(b: Broker, states: seq<NodeState>) {
    && |states| == |b.table|
    && (forall i :: 0 <= i < |states| ==> states[i].id in b.table && b.table[states[i].id] == states[i])
    && (forall n :: n in b.table ==> b.table[n] in states)
  }

  function ToPeers(b: Broker, peers: seq<NodeId>, m: Message): Effect
    decreases peers
  {
    if peers == [] then Effect(b, [], None)
    else if peers[0] !in b.table || peers[0] !in b.sockets then Effect(b, [], Some(MissingKey))
    else
      var rest := ToPeers(b, peers[1..], m);
      Effect(b, [Packet(b.sockets[peers[0]], m)] + rest.sends, rest.error)
  }

  /** The contact node always gets a copy, known or not. */
  function Broadcast(b: Broker, now: nat, peers: seq<NodeId>, states: seq<NodeState>): Effect {
    if b.self !in b.table then Effect(b, [], Some(MissingKey))
    else if b.config.fanout == 0 then Effect(Stamp(b, now), [], Some(NoFanout))
    else
      var m := Gossip(b.self, states);
      var sent := ToPeers(Stamp(b, now), peers, m);
      if sent.error.Some? || b.config.contact == "" then sent
      else sent.(sends := sent.sends + [Packet(b.config.contact, m)])
  }

  // ---- one step of a broker ----

  datatype Event =
    | RequestSent(to: NodeId, data: Payload)
    | RequestResumed(id: RequestId)
    | WaitBegun(condition: View -> bool, now: nat, timeout: nat)
    | WaitResumed(i: nat)
    | Received(m: Message)
    | HandlerFinished(request: (NodeId, RequestId, Payload), data: Payload)
    | GossipDue(now: nat, peers: seq<NodeId>, states: seq<NodeState>)
    | HeartbeatDue(now: nat, lost: seq<NodeId>)
    | WaitersDue(now: nat)

  ghost predicate Does(b: Broker, e: Event, r: Effect) {
    match e
    case RequestSent(to, data) => r == SendRequest(b, to, data)
    case RequestResumed(id) =>
      id in b.outstanding && b.outstanding[id].permits <= 0 && r == Effect(ResumeRequest(b, id), [], None)
    case WaitBegun(condition, now, timeout) =>
      |b.past.moments| > 0 && r == Effect(WaitFor(b, condition, now, timeout), [], None)
    case WaitResumed(i) =>
      && i < |b.waiters| && b.waiters[i].permits <= 0 && |b.past.moments| > 0
      && r == Effect(ResumeWaiter(b, i), [], None)
    case Received(m) => r == Receive(b, m)
    case HandlerFinished(request, data) => request in b.handling && r == FinishRequest(b, request, data)
    case GossipDue(now, peers, states) =>
      && (b.self in b.table ==> PicksPeers(b, peers) && ListsTable(Stamp(b, now), states))
      && r == Broadcast(b, now, peers, states)
    case HeartbeatDue(now, lost) =>
      ListsTimedOut(b, now, lost) && r == Effect(OnNodesLost(b, lost), [], None)
    case WaitersDue(now) => r == Effect(CheckWaiters(b, now), [], None)
  }
}
