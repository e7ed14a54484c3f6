/** A cluster of brokers over a network that drops, duplicates and reorders packets: what was ever
    sent may be delivered any number of times, at any time, or never. */
module ClusterProtocol {
  import opened BrokerModel
  import Runs

  /** down are the nodes that crashed or stopped. */
  datatype State = State(nodes: map<NodeId, Broker>, down: set<NodeId>, net: set<Packet>)

  ghost predicate Init(c: State) {
    c == State(map[], {}, {})
  }

  /** A node joins. Node ids are unique, as they are drawn anew for every process. An address is bound
      by at most one running node, but a node that is down may be restarted at its address. */
  ghost predicate Joins(c: State, n: NodeId, config: Config, now: nat, c': State) {
    && n !in c.nodes && Create(n, config, now).Some?
    && (forall m :: m in c.nodes && c.nodes[m].config.address == config.address ==> m in c.down)
    && c' == c.(nodes := c.nodes[n := Create(n, config, now).value])
  }

  /** A node goes down, for good: what it sent is still delivered, and nobody is told. */
  ghost predicate Crashes(c: State, n: NodeId, c': State) {
    n in c.nodes && c' == c.(down := c.down + {n})
  }

  function PacketsOf(sends: seq<Packet>): set<Packet> {
    set p | p in sends
  }

  /** A node takes one step. It receives only what was sent to its address, and its clock does not
      run backwards between two stamps. */
  ghost predicate Acts(c: State, n: NodeId, e: Event, r: Effect, c': State) {
    && n in c.nodes && n !in c.down && Does(c.nodes[n], e, r)
    && (e.Received? ==> Packet(c.nodes[n].config.address, e.m) in c.net)
    && (e.GossipDue? && n in c.nodes[n].table ==> c.nodes[n].table[n].lastSeen <= e.now)
    && c' == State(c.nodes[n := r.broker], c.down, c.net + PacketsOf(r.sends))
  }

  ghost predicate Step(c: State, c': State) {
    || (exists n: NodeId, config, now: nat :: Joins(c, n, config, now, c'))
    || (exists n: NodeId :: Crashes(c, n, c'))
    || (exists n: NodeId, e, r :: Acts(c, n, e, r, c'))
  }

  ghost function Protocol(): Runs.System<State> {
    Runs.System(c => Init(c), (c, c') => Step(c, c'))
  }

  ghost predicate IsRun(run: seq<State>) {
    Runs.IsRun(Protocol(), run)
  }
}
