/** Queues and pool never wait for what the memory they share cannot give: whatever one of them is about to
    do, it can do. */
module PooledCalls {
  import opened Options
  import Pool = NodePoolProtocol
  import PoolInvariant = NodePoolInvariant
  import PoolSafety = NodePoolSafety
  import opened PooledQueues
  import Queue = LinkedQueue

  /** The queues after one of them, number k, became q in this memory. */
  function WithQueue(s: State, pool: Pool.State, value: seq<Value>, k: nat, q: Queue.State): (s': State)
    ensures s'.pool == pool && s'.value == value && |s'.queues| == |s.queues|
    ensures |value| == |pool.shared.next| ==> Others(s, k, s')
    ensures k < |s.queues| ==> s'.queues[k] == q
  {
    State(pool, value, seq(|s.queues|, j requires 0 <= j < |s.queues| =>
                             if j == k then q else Seen(s.queues[j], pool.shared.next, value)))
  }

  /** The node at the head of a thread's list can be taken, and whatever value is constructed in it, its
      next_chunk_ may hold anything then. */
  lemma CanTake(c: nat, s: State, t: nat, junk: Option<nat>) returns (x: nat, pool: Pool.State)
    requires Inv(c, s) && t < |s.pool.threads| && s.pool.threads[t].size > 0
    requires s.pool.threads[t].pc == Pool.Idle || s.pool.threads[t].pc == Pool.Filled
    ensures s.pool.threads[t].head == Some(x) && x < |s.value|
    ensures |pool.shared.next| == |s.value| && pool.shared.next[x] == None
    ensures |pool.shared.link| == |s.pool.shared.link| && x < |pool.shared.link| && pool.shared.link[x] == junk
    ensures forall s': State :: s'.pool == pool && |s'.value| == |s.value|
                         && (forall y: nat :: y < |s.value| && y != x ==> s'.value[y] == s.value[y])
                         ==> Takes(c, s, t, x, s')
  {
    var g, l := s.pool.shared, s.pool.threads[t];
    assert PoolInvariant.LocalOk(c, g, t, l) && PoolInvariant.ListAt(g, l.list, l.size - 1);
    x := l.head.value;
    var g', l' := PoolSafety.NextTake(c, g, t, l);
    var taken := Pool.State(g', s.pool.threads[t := l']);
    assert Pool.StepOf(c, s.pool, t, Pool.Take, taken);
    pool := taken.(shared := g'.(link := g'.link[x := junk]));
    assert taken == pool.(shared := pool.shared.(link := g.link));
  }

  /** In every run: a thread of the pool that has a node can hand it to any producer that needs one, even if
      the value the producer constructs garbles next_chunk_ in the worst way. */
  lemma AllocationIsOpen(c: nat, run: seq<State>, i: nat, t: nat, k: nat, u: nat, values: seq<Value>,
                         junk: Option<nat>)
    requires IsRun(c, run) && i < |run| && t < |run[i].pool.threads| && run[i].pool.threads[t].size > 0
    requires run[i].pool.threads[t].pc == Pool.Idle || run[i].pool.threads[t].pc == Pool.Filled
    requires k < |run[i].queues| && u < |run[i].queues[k].threads| && MayTake(run[i].queues[k].threads[u], values)
    ensures exists x: nat, s' :: Allocates(c, run[i], t, k, u, x, values, s')
                            && x < |s'.pool.shared.link| && s'.pool.shared.link[x] == junk
  {
    var s := run[i];
    EveryStateOk(c, run, i);
    var x, pool := CanTake(c, s, t, junk);
    assert QueueAt(s, k);
    var q := s.queues[k];
    var v := ValueFor(q.threads[u], values);
    var s' := WithQueue(s, pool, s.value[x := v], k,
                        q.(shared := Queue.Fresh(q.shared, u, x, v),
                           threads := q.threads[u := WithNode(q.threads[u], x, values)]));
    assert Allocates(c, s, t, k, u, x, values, s');
  }

  /** In every run: the consumer that passed a node can give it back through any idle thread of the pool. */
  lemma GivingBackIsOpen(c: nat, run: seq<State>, i: nat, k: nat, t: nat)
    requires IsRun(c, run) && i < |run| && k < |run[i].queues| && t < |run[i].pool.threads|
    requires run[i].queues[k].reader.Passed? && run[i].pool.threads[t].pc == Pool.Idle
    ensures exists s' :: GivesBack(c, run[i], k, t, s')
  {
    var s := run[i];
    EveryStateOk(c, run, i);
    assert QueueAt(s, k) && PoolInvariant.LocalOk(c, s.pool.shared, t, s.pool.threads[t]);
    var q, x := s.queues[k], s.queues[k].reader.node;
    assert Uses(s, k, x) && UserAt(s, x);
    var g', l' := PoolSafety.NextGive(c, s.pool.shared, t, s.pool.threads[t], x);
    var a, h, r := Queue.NextRead(q.shared, q.reader, s.pool.threads[t].head);
    var s' := WithQueue(s, Pool.State(g', s.pool.threads[t := l']), s.value, k, Queue.State(h, r, q.threads));
    assert GivesBack(c, s, k, t, s');
  }

  /** In every run: a producer that has its nodes, and a consumer that has no node to give back, can go on
      in the shared memory. */
  lemma QueuesGoOn(c: nat, run: seq<State>, i: nat, k: nat, u: nat)
    requires IsRun(c, run) && i < |run| && k < |run[i].queues| && u < |run[i].queues[k].threads|
    ensures var l := run[i].queues[k].threads[u];
            l.Extending? || l.Exchanged? || (l.Built? && |l.nodes| == |l.values|) ==>
              exists a, s' :: Produces(run[i], k, u, a, s')
    ensures !run[i].queues[k].reader.Passed? ==> exists a, s' :: Consumes(run[i], k, a, s')
  {
    var s, q := run[i], run[i].queues[k];
    EveryStateOk(c, run, i);
    assert QueueAt(s, k) && Queue.LocalOk(q.shared, u, q.threads[u]);
    var l := q.threads[u];
    if l.Extending? || l.Exchanged? || (l.Built? && |l.nodes| == |l.values|) {
      var a, g', l' := Queue.NextAccess(q.shared, u, l);
      var s' := WithQueue(s, s.pool.(shared := s.pool.shared.(next := g'.next)), s.value, k,
                          Queue.State(g', q.reader, q.threads[u := l']));
      assert Produces(s, k, u, a, s');
    }
    if !q.reader.Passed? {
      var a, g', r := Queue.NextRead(q.shared, q.reader, None);
      var s' := WithQueue(s, s.pool, s.value, k, Queue.State(g', r, q.threads));
      assert Consumes(s, k, a, s');
    }
  }

  /** In every run: a thread inside the pool that does not wait for the mutex can go on, and when it writes
      next_chunk_ anything may become of the value that was there. */
  lemma PoolGoesOn(c: nat, run: seq<State>, i: nat, t: nat, junk: Value)
    requires IsRun(c, run) && i < |run| && t < |run[i].pool.threads|
    requires var l := run[i].pool.threads[t]; l.pc != Pool.Filled && (l.pc == Pool.Idle ==> l.size == 0)
    requires run[i].pool.threads[t].pc.Want? ==> !run[i].pool.shared.mutex
    ensures exists a, s' :: PoolWorks(c, run[i], t, a, s')
                            && forall x: nat :: Garbles(run[i], t, a, x) && x < |s'.value| ==> s'.value[x] == junk
  {
    var s := run[i];
    EveryStateOk(c, run, i);
    var g, l := s.pool.shared, s.pool.threads[t];
    assert PoolInvariant.LocalOk(c, g, t, l);
    var a, g', l' := PoolSafety.NextAccess(c, g, t, l);
    var value := seq(|g'.next|, (x: nat) =>
                       if x < |s.value| && !Garbles(s, t, a, x) then s.value[x] else junk);
    var s' := WithQueue(s, Pool.State(g', s.pool.threads[t := l']), value, |s.queues|,
                        Queue.State(Queue.Shared([], [], 0, 0, [], [], 0, [], []), Queue.Waiting, []));
    assert Pool.StepOf(c, s.pool, t, a, s'.pool);
    assert PoolWorks(c, s, t, a, s');
  }
}
