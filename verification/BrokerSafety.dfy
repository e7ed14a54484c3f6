/** What every run of one message broker guarantees, whatever it receives. */
module BrokerSafety {
  import opened Options
  import opened BrokerModel
  import opened BrokerInvariant
  import Runs

  ghost predicate Init(self: NodeId, config: Config, b: Broker) {
    exists now: nat :: Create(self, config, now) == Some(b)
  }

  ghost predicate Step(b: Broker, b': Broker) {
    exists e, r :: Does(b, e, r) && r.broker == b'
  }

  ghost function Protocol(self: NodeId, config: Config): Runs.System<Broker> {
    Runs.System(b => Init(self, config, b), (b, b') => Step(b, b'))
  }

  ghost predicate IsRun(self: NodeId, config: Config, run: seq<Broker>) {
    Runs.IsRun(Protocol(self, config), run)
  }

  lemma InvIsInductive(self: NodeId, config: Config)
    ensures Runs.Inductive(Protocol(self, config), (b: Broker) => Inv(b))
  {
    forall b | Init(self, config, b) ensures Inv(b) {
      var now: nat :| Create(self, config, now) == Some(b);
      CreateHolds(self, config, now);
    }
    forall b, b' | Inv(b) && Step(b, b') ensures Inv(b') {
      var e, r :| Does(b, e, r) && r.broker == b';
      DoesKeeps(b, e, r);
    }
  }

  lemma EveryStateOk(self: NodeId, config: Config, run: seq<Broker>, i: nat)
    requires IsRun(self, config, run) && i < |run|
    ensures Inv(run[i])
  {
    InvIsInductive(self, config);
    Runs.Invariant(Protocol(self, config), b => Inv(b), run, i);
  }

  // ---- no hung request ----

  /** The sockets are those of the known nodes except this one; a request that nothing has signalled
      targets a connected node; a connected node is owed no deferred reply; and the next request id is
      not in use. */
  lemma NoHungRequest(self: NodeId, config: Config, run: seq<Broker>, i: nat)
    requires IsRun(self, config, run) && i < |run|
    ensures run[i].sockets.Keys == run[i].table.Keys - {run[i].self}
    ensures forall id :: id in run[i].outstanding && run[i].outstanding[id].permits > 0 ==>
              run[i].outstanding[id].target in run[i].sockets
    ensures run[i].deferred.Keys !! run[i].sockets.Keys
    ensures run[i].nextRequest !in run[i].outstanding
  {
    EveryStateOk(self, config, run, i);
    forall id | id in run[i].outstanding && run[i].outstanding[id].permits > 0
      ensures run[i].outstanding[id].target in run[i].sockets
    {
      assert RequestOk(run[i], id, run[i].outstanding[id]);
    }
  }

  /** A request is signalled and fails once its target is among the lost nodes. */
  lemma {:induction false} LostFails(b: Broker, lost: seq<NodeId>, id: RequestId)
    requires id in b.outstanding
    ensures id in OnNodesLost(b, lost).outstanding
    ensures var o, o' := b.outstanding[id], OnNodesLost(b, lost).outstanding[id];
            && o'.target == o.target && o'.permits <= o.permits
            && (o'.failed <==> o.failed || o.target in lost)
    decreases lost
  {
    if lost != [] {
      LostFails(OnNodeLost(b, lost[0]), lost[1..], id);
      assert lost == [lost[0]] + lost[1..];
    }
  }

  /** Losing nodes fails every request to them: it can resume, and it will report the loss. */
  lemma LosingANodeFailsItsRequests(b: Broker, now: nat, lost: seq<NodeId>, r: Effect, id: RequestId)
    requires Inv(b) && Does(b, HeartbeatDue(now, lost), r) && id in b.outstanding
    requires b.outstanding[id].target in b.table && TimedOut(b, b.outstanding[id].target, now)
    ensures id in r.broker.outstanding && r.broker.outstanding[id].permits <= 0
    ensures OutcomeOf(r.broker.outstanding[id]) == NodeLost(b.outstanding[id].target)
  {
    LostFails(b, lost, id);
    DoesKeeps(b, HeartbeatDue(now, lost), r);
    assert RequestOk(r.broker, id, r.broker.outstanding[id]);
  }

  /** Every request that was sent is outstanding or finished, never both, and finishes at most once;
      the only failure it reports is the loss of its target. */
  lemma RequestsFinishOnce(self: NodeId, config: Config, run: seq<Broker>, i: nat, id: RequestId)
    requires IsRun(self, config, run) && i < |run| && id in run[i].past.issued
    ensures id in run[i].outstanding <==> !Finished(run[i], id)
    ensures forall j, k :: 0 <= j < k < |run[i].past.completed| && run[i].past.completed[j].request == id ==>
              run[i].past.completed[k].request != id
    ensures forall j :: 0 <= j < |run[i].past.completed| && run[i].past.completed[j].request == id
                        && run[i].past.completed[j].outcome.NodeLost? ==>
              run[i].past.completed[j].outcome.node == run[i].past.issued[id].target
  {
    EveryStateOk(self, config, run, i);
    var b := run[i];
    if Finished(b, id) {
      var j :| 0 <= j < |b.past.completed| && b.past.completed[j].request == id;
      assert CompletionOk(b, b.past.completed[j]);
    }
    forall j | 0 <= j < |b.past.completed| && b.past.completed[j].request == id
                        && b.past.completed[j].outcome.NodeLost?
      ensures b.past.completed[j].outcome.node == b.past.issued[id].target
    {
      assert CompletionOk(b, b.past.completed[j]);
    }
  }

  /** The table lookups of a gossip round never fail; only a fanout of zero is refused. */
  lemma LookupsNeverFail(self: NodeId, config: Config, run: seq<Broker>, i: nat, now: nat,
                         peers: seq<NodeId>, states: seq<NodeState>, r: Effect)
    requires IsRun(self, config, run) && i < |run| && Does(run[i], GossipDue(now, peers, states), r)
    ensures r.error == if run[i].config.fanout == 0 then Some(NoFanout) else None
  {
    EveryStateOk(self, config, run, i);
    BroadcastKeeps(run[i], now, peers, states);
  }

  // ---- no missed wake-up ----

  /** Between handlers a waiter is marked met exactly if its condition held at some moment since it
      registered; one that is not marked is not satisfied now; a marked one is free to resume. */
  lemma NoMissedWakeUp(self: NodeId, config: Config, run: seq<Broker>, i: nat, w: nat)
    requires IsRun(self, config, run) && i < |run| && w < |run[i].waiters|
    ensures var b, x := run[i], run[i].waiters[w];
            && (x.met <==> Held(x.condition, b.past.moments, x.history.since, |b.past.moments| - 1))
            && (x.met ==> x.permits <= 0)
            && (!x.met ==> !x.condition(ViewOf(b.table)))
  {
    EveryStateOk(self, config, run, i);
    var b, x := run[i], run[i].waiters[w];
    assert WaiterOk(b.past.moments, x);
    if !x.met {
      assert !Held(x.condition, b.past.moments, x.history.since, |b.past.moments| - 1);
    }
  }

  /** A wait reports met exactly if the condition held at some moment while it lasted; otherwise a
      check found its timeout elapsed, unless the 64-bit deadline wrapped. */
  lemma WaitResultsAreRight(self: NodeId, config: Config, run: seq<Broker>, i: nat, w: nat)
    requires IsRun(self, config, run) && i < |run| && w < |run[i].past.waits|
    ensures var b, x := run[i], run[i].past.waits[w];
            && (x.met <==> Held(x.wait.condition, b.past.moments, x.wait.since, x.until))
            && (!x.met ==> x.wait.overdue.Some? && Deadline(x.wait.begun, x.wait.timeout) <= x.wait.overdue.value)
            && (!x.met && x.wait.begun + x.wait.timeout < UINT64_RANGE ==>
                  x.wait.overdue.value - x.wait.begun >= x.wait.timeout)
  {
    EveryStateOk(self, config, run, i);
  }

  /** A check at a later time counts a deadline as passed exactly if the timeout has elapsed or the
      64-bit deadline wrapped; a wrapped deadline expires at the first check. */
  lemma TimeoutIsExactUnlessItWraps(begun: nat, timeout: nat, now: nat)
    requires begun <= now < UINT64_RANGE && timeout < UINT64_RANGE
    ensures Deadline(begun, timeout) <= now <==> now - begun >= timeout || begun + timeout >= UINT64_RANGE
  {
    if begun + timeout >= UINT64_RANGE {
      assert Deadline(begun, timeout) == begun + timeout - UINT64_RANGE;
    } else {
      assert Deadline(begun, timeout) == begun + timeout;
    }
  }

  lemma OneMore(self: NodeId, config: Config, run: seq<Broker>, e: Event, r: Effect)
    requires IsRun(self, config, run) && Does(Runs.Last(run), e, r)
    ensures IsRun(self, config, run + [r.broker])
  {
    assert Step(Runs.Last(run), r.broker);
    Runs.OneMore(Protocol(self, config), run, r.broker);
  }

  /** A wait for this condition that begins now. */
  function NewWait(b: Broker, condition: View -> bool, now: nat, timeout: nat): Wait
    requires |b.past.moments| > 0
  {
    Wait(condition, |b.past.moments| - 1, now, timeout, None)
  }

  /** A wait whose deadline wraps can give up at once. */
  lemma WrappedDeadlineExpires(self: NodeId, config: Config, run: seq<Broker>, condition: View -> bool,
                               now: nat, timeout: nat) returns (more: seq<Broker>)
    requires IsRun(self, config, run) && !condition(ViewOf(Runs.Last(run).table)) && |Runs.Last(run).past.moments| > 0
    requires now < UINT64_RANGE && timeout < UINT64_RANGE <= now + timeout
    ensures |more| == 3 && IsRun(self, config, run + more)
    ensures more[0] == WaitFor(Runs.Last(run), condition, now, timeout)
    ensures more[2].past.waits == Runs.Last(run).past.waits
              + [Waited(NewWait(Runs.Last(run), condition, now, timeout).(overdue := Some(now)),
                        |Runs.Last(run).past.moments| - 1, false)]
  {
    var b, n := Runs.Last(run), |Runs.Last(run).waiters|;
    TimeoutIsExactUnlessItWraps(now, timeout, now);
    var b1 := WaitFor(b, condition, now, timeout);
    OneMore(self, config, run, WaitBegun(condition, now, timeout), Effect(b1, [], None));
    var b2 := CheckWaiters(b1, now);
    OneMore(self, config, run + [b1], WaitersDue(now), Effect(b2, [], None));
    assert b2.waiters[n] == WakeIfOverdue(b1.waiters[n], now);
    var b3 := ResumeWaiter(b2, n);
    OneMore(self, config, run + [b1] + [b2], WaitResumed(n), Effect(b3, [], None));
    more := [b1, b2, b3];
    assert run + more == run + [b1] + [b2] + [b3];
  }

  /** A finished wait that gave up although its timeout had not elapsed. */
  ghost predicate GaveUpEarly(b: Broker, condition: View -> bool, now: nat, timeout: nat) {
    exists w :: 0 <= w < |b.past.waits| && !b.past.waits[w].met && b.past.waits[w].wait.condition == condition
                && b.past.waits[w].wait.begun == now && b.past.waits[w].wait.timeout == timeout
                && b.past.waits[w].wait.overdue.Some? && b.past.waits[w].wait.overdue.value - now < timeout
  }

  /** In every reachable state: some wait that begins at this time, for a condition that is false, can
      give up early exactly if its deadline wraps. */
  lemma GivingUpEarlyIsExact(self: NodeId, config: Config, run: seq<Broker>, condition: View -> bool,
                             now: nat, timeout: nat)
    requires IsRun(self, config, run) && !condition(ViewOf(Runs.Last(run).table))
    requires now < UINT64_RANGE && 0 < timeout < UINT64_RANGE
    ensures (exists more :: && IsRun(self, config, run + more)
                            && GaveUpEarly(Runs.Last(run + more), condition, now, timeout))
            <==> now + timeout >= UINT64_RANGE
  {
    EveryStateOk(self, config, run, |run| - 1);
    if now + timeout >= UINT64_RANGE {
      var more := WrappedDeadlineExpires(self, config, run, condition, now, timeout);
      assert Runs.Last(run + more) == more[2];
      assert !more[2].past.waits[|Runs.Last(run).past.waits|].met;
      assert GaveUpEarly(Runs.Last(run + more), condition, now, timeout);
    } else if more :| IsRun(self, config, run + more) && GaveUpEarly(Runs.Last(run + more), condition, now, timeout) {
      var b := Runs.Last(run + more);
      var w :| 0 <= w < |b.past.waits| && !b.past.waits[w].met && b.past.waits[w].wait.condition == condition
               && b.past.waits[w].wait.begun == now && b.past.waits[w].wait.timeout == timeout
               && b.past.waits[w].wait.overdue.Some? && b.past.waits[w].wait.overdue.value - now < timeout;
      WaitResultsAreRight(self, config, run + more, |run + more| - 1, w);
      assert false;
    }
  }

  /** The longest timeout, 2^64 - 1 milliseconds, is over in the millisecond in which the wait began. */
  lemma LongestTimeoutIsNone(self: NodeId, config: Config, now: nat) returns (run: seq<Broker>)
    requires Create(self, config, now).Some? && 0 < now < UINT64_RANGE
    ensures IsRun(self, config, run) && |run| == 4 && |run[3].past.waits| == 1
    ensures var x := run[3].past.waits[0];
            !x.met && x.wait.timeout == UINT64_RANGE - 1 && x.wait.begun == now && x.wait.overdue == Some(now)
  {
    run := [Create(self, config, now).value];
    var more := WrappedDeadlineExpires(self, config, run, (v: View) => false, now, UINT64_RANGE - 1);
    run := run + more;
  }

  // ---- gossip is a join ----

  ghost predicate Consistent(known: set<NodeState>) {
    forall s, t :: s in known && t in known && s.id == t.id ==> s.address == t.address && s.name == t.name
  }

  lemma HeardIsConsistent(b: Broker)
    requires HeardOk(b)
    ensures Consistent(b.past.heard)
  {
    forall s, t | s in b.past.heard && t in b.past.heard && s.id == t.id
      ensures s.address == t.address && s.name == t.name
    {
      assert Covers(b.table, s) && Covers(b.table, t);
    }
  }

  lemma LearnHears(b: Broker, s: NodeState)
    requires Inv(b)
    ensures Learn(b, s).error == None <==> Consistent(b.past.heard + {s})
    ensures Learn(b, s).error == None ==> Learn(b, s).broker.past.heard == b.past.heard + {s}
  {
    if s.id !in b.table {
      NewNodeJoins(b, s);
    }
    if Learn(b, s).error == None {
      LearnKeeps(b, s);
      HeardIsConsistent(Learn(b, s).broker);
    } else {
      assert b.table[s.id] in b.past.heard;
    }
  }

  /** A conflict check fires exactly if the message contradicts itself or what is already known. */
  lemma {:induction false} ConflictsAreReal(b: Broker, states: seq<NodeState>)
    requires Inv(b)
    ensures LearnAll(b, states).error == None <==> Consistent(b.past.heard + SetOf(states))
    ensures LearnAll(b, states).error == None ==>
              LearnAll(b, states).broker.past.heard == b.past.heard + SetOf(states)
    decreases states
  {
    if states == [] {
      HeardIsConsistent(b);
      assert b.past.heard + SetOf(states) == b.past.heard;
    } else {
      var s, all := states[0], b.past.heard + SetOf(states);
      LearnHears(b, s);
      assert states == [s] + states[1..];
      assert all == b.past.heard + {s} + SetOf(states[1..]);
      if Learn(b, s).error == None {
        LearnKeeps(b, s);
        ConflictsAreReal(Learn(b, s).broker, states[1..]);
      } else {
        var x, y :| x in b.past.heard + {s} && y in b.past.heard + {s} && x.id == y.id
                    && !(x.address == y.address && x.name == y.name);
        assert x in all && y in all;
      }
    }
  }

  lemma SameEntry(b: Broker, c: Broker, n: NodeId)
    requires HeardOk(b) && HeardOk(c) && SocketsOk(b) && SocketsOk(c) && b.past.heard == c.past.heard
    requires n in b.table
    ensures n in c.table && c.table[n] == b.table[n]
  {
    assert b.table[n] in c.past.heard && Covers(c.table, b.table[n]);
    assert c.table[n] in b.past.heard && Covers(b.table, c.table[n]);
  }

  /** What was heard determines the table: it is the newest state of each node. */
  lemma HeardDeterminesTable(b: Broker, c: Broker)
    requires HeardOk(b) && HeardOk(c) && SocketsOk(b) && SocketsOk(c) && b.past.heard == c.past.heard
    ensures b.table == c.table
  {
    forall n | n in b.table ensures n in c.table && c.table[n] == b.table[n] {
      SameEntry(b, c, n);
    }
    forall n | n in c.table ensures n in b.table {
      SameEntry(c, b, n);
    }
  }

  /** Neither the order nor the repetition of gossip matters: two messages, or two sequences of
      messages, with the same states lead to the same table. */
  lemma OrderAndDuplicationDoNotMatter(b: Broker, states: seq<NodeState>, again: seq<NodeState>)
    requires Inv(b) && SetOf(states) == SetOf(again) && LearnAll(b, states).error == None
    ensures LearnAll(b, again).error == None
    ensures LearnAll(b, again).broker.table == LearnAll(b, states).broker.table
  {
    ConflictsAreReal(b, states);
    ConflictsAreReal(b, again);
    LearnAllKeeps(b, states);
    LearnAllKeeps(b, again);
    HeardDeterminesTable(LearnAll(b, states).broker, LearnAll(b, again).broker);
  }

  /** In every run the table is the newest of everything heard about each node since it was last
      lost (for the node itself: since it last stamped its own entry). */
  lemma TableIsTheNewest(self: NodeId, config: Config, run: seq<Broker>, i: nat, n: NodeId)
    requires IsRun(self, config, run) && i < |run|
    ensures n in run[i].table <==> exists s :: s in run[i].past.heard && s.id == n
    ensures n in run[i].table ==> run[i].table[n] in run[i].past.heard
    ensures n in run[i].table ==> forall s :: s in run[i].past.heard && s.id == n ==>
              && s.lastSeen <= run[i].table[n].lastSeen
              && s == run[i].table[n].(lastSeen := s.lastSeen)
  {
    EveryStateOk(self, config, run, i);
    var b := run[i];
    if n in b.table {
      assert b.table[n] in b.past.heard && b.table[n].id == n;
      forall s | s in b.past.heard && s.id == n
        ensures s.lastSeen <= b.table[n].lastSeen && s == b.table[n].(lastSeen := s.lastSeen)
      {
        assert Covers(b.table, s);
      }
    }
    if s :| s in b.past.heard && s.id == n {
      assert Covers(b.table, s);
    }
  }
}
