/** What one thread of the weak-priority pool can do by itself, whatever the others are in the middle of, as
    long as they do not hold the locks it needs. */
module WeakPoolCalls {
  import opened Options
  import Runs
  import opened WeakPoolProtocol
  import opened WeakPoolSafety

  function After(s: State, t: nat, g: Shared, l: Local): State
    requires t < |s.threads|
  {
    State(g, s.threads[t := l])
  }

  /** A continuation that changes the shared state and thread t to these. */
  ghost predicate Leads(run: seq<State>, more: seq<State>, t: nat, g: Shared, l: Local) {
    run != [] && t < |Runs.Last(run).threads| && Runs.Leads(Protocol(), run, more, After(Runs.Last(run), t, g, l))
  }

  lemma One(run: seq<State>, t: nat, a: Action, g: Shared, l: Local) returns (more: seq<State>)
    requires IsRun(run) && t < |Runs.Last(run).threads|
    requires Move(Runs.Last(run).shared, Runs.Last(run).threads[t], a, g, l)
    ensures Leads(run, more, t, g, l)
  {
    var s' := After(Runs.Last(run), t, g, l);
    assert StepOf(Runs.Last(run), t, a, s');
    Runs.OneMore(Protocol(), run, s');
    more := [s'];
  }

  lemma Then(run: seq<State>, first: seq<State>, t: nat, g1: Shared, l1: Local, a: Action, g: Shared, l: Local)
    returns (more: seq<State>)
    requires Leads(run, first, t, g1, l1) && Move(g1, l1, a, g, l)
    ensures Leads(run, more, t, g, l)
  {
    var s1, s2 := After(Runs.Last(run), t, g1, l1), After(Runs.Last(run), t, g, l);
    assert s1.threads[t := l] == s2.threads;
    assert StepOf(s1, t, a, s2);
    more := Runs.GoOn(Protocol(), run, first, s1, s2);
  }

  function WithSub(g: Shared, q: nat, sub: SubQueue): Shared
    requires q < |g.subs|
  {
    g.(subs := g.subs[q := sub])
  }

  // ---- enqueueing ----

  /** A sub-queue with one more operation on top of a stack. */
  function Pushed(sub: SubQueue, task: Task): SubQueue
    requires task.priority < |sub.slots|
  {
    sub.(slots := sub.slots[task.priority := sub.slots[task.priority] + [task.op]], bits := sub.bits + {task.priority})
  }

  lemma PushesAlone(run: seq<State>, first: seq<State>, t: nat, g: Shared, l: Local) returns (more: seq<State>)
    requires Leads(run, first, t, g, l) && l.pc.Entering? && l.pc.q < |g.subs| && !g.subs[l.pc.q].locked
    requires l.pc.task.priority < |g.subs[l.pc.q].slots|
    ensures Leads(run, more, t, WithSub(g, l.pc.q, Pushed(g.subs[l.pc.q], l.pc.task)).(permits := g.permits + 1),
                  l.(pc := Free))
  {
    var q, task, sub := l.pc.q, l.pc.task, g.subs[l.pc.q];
    var g1 := WithSub(g, q, sub.(locked := true));
    var locked := Then(run, first, t, g, l, Lock, g1, l.(pc := Pushing(task, q)));
    var slots := sub.slots[task.priority := sub.slots[task.priority] + [task.op]];
    var g2 := WithSub(g, q, sub.(locked := true, slots := slots));
    var pushed := Then(run, locked, t, g1, l.(pc := Pushing(task, q)), Push, g2, l.(pc := Marking(q, task.priority)));
    var g3 := WithSub(g, q, Pushed(sub, task).(locked := true));
    var marked := Then(run, pushed, t, g2, l.(pc := Marking(q, task.priority)), Mark, g3, l.(pc := Releasing(q)));
    var g4 := WithSub(g, q, Pushed(sub, task));
    assert Pushed(sub, task).(locked := false) == Pushed(sub, task);
    var unlocked := Then(run, marked, t, g3, l.(pc := Releasing(q)), Unlock, g4, l.(pc := Signalling));
    more := Then(run, unlocked, t, g4, l.(pc := Signalling), Signal, g4.(permits := g4.permits + 1), l.(pc := Free));
  }

  /** The task that does not stay with the worker, if there is one. */
  function GivenAway(l: Local, task: Task): Option<Task> {
    if l.worker && l.local.None? then None
    else if l.worker && task.priority < l.local.value.priority then l.local
    else Some(task)
  }

  function Kept(l: Local, task: Task): Option<Task> {
    if l.worker && (l.local.None? || task.priority < l.local.value.priority) then Some(task) else l.local
  }

  /** From every reachable state a thread that runs no operation, or executes one, can enqueue by itself, if
      the sub-queue it draws is not locked: the more urgent of the new operation and the one in a worker's
      slot stays there, and the other one goes on top of its stack, marked and signalled. */
  lemma EnqueueAlone(run: seq<State>, t: nat, priority: nat, q: nat) returns (more: seq<State>)
    requires IsRun(run) && t < |Runs.Last(run).threads| && priority < LEVELS
    requires var l := Runs.Last(run).threads[t]; l.pc.Free? && (l.worker ==> l.current.Some?)
    requires q < |Runs.Last(run).shared.subs| && !Runs.Last(run).shared.subs[q].locked
    ensures var g, l := Runs.Last(run).shared, Runs.Last(run).threads[t];
            var task := Task(g.enqueued, priority);
            && |g.subs[q].slots| == LEVELS
            && match GivenAway(l, task)
               case None => Leads(run, more, t, g.(enqueued := g.enqueued + 1), l.(local := Kept(l, task)))
               case Some(given) =>
                 && given.priority < LEVELS
                 && Leads(run, more, t, WithSub(g, q, Pushed(g.subs[q], given))
                                        .(permits := g.permits + 1, enqueued := g.enqueued + 1),
                          l.(local := Kept(l, task)))
  {
    var g, l := Runs.Last(run).shared, Runs.Last(run).threads[t];
    EveryStateOk(run, |run| - 1);
    assert WeakPoolSafety.LocalOk(g, l);
    var task := Task(g.enqueued, priority);
    var g1 := g.(enqueued := g.enqueued + 1);
    if l.worker && l.local.None? {
      more := One(run, t, Enqueue(priority, q), g1, l.(local := Some(task)));
    } else {
      var given := GivenAway(l, task).value;
      var l1 := l.(local := Kept(l, task), pc := Entering(given, q));
      var first := One(run, t, Enqueue(priority, q), g1, l1);
      more := PushesAlone(run, first, t, g1, l1);
    }
  }

  // ---- dequeueing ----

  /** The first level at which either of two sub-queues holds an operation. */
  ghost predicate IsFirstLevel(g: Shared, a: nat, b: nat, p: nat) {
    && (StackAt(g, a, p) != [] || StackAt(g, b, p) != [])
    && forall r :: 0 <= r < p ==> StackAt(g, a, r) == [] && StackAt(g, b, r) == []
  }

  /** The sub-queue after the last operation of a level was popped. */
  function PoppedAt(sub: SubQueue, p: nat): SubQueue
    requires p < |sub.slots| && sub.slots[p] != []
  {
    var slot := sub.slots[p];
    sub.(slots := sub.slots[p := slot[..|slot| - 1]], bits := if |slot| == 1 then sub.bits - {p} else sub.bits)
  }

  lemma PopsAlone(run: seq<State>, first: seq<State>, t: nat, g: Shared, l: Local, p: nat) returns (more: seq<State>)
    requires Leads(run, first, t, g, l) && l.pc.Locking? && l.pc.q < |g.subs| && !g.subs[l.pc.q].locked
    requires IsLowest(p, g.subs[l.pc.q].bits) && p < |g.subs[l.pc.q].slots| && g.subs[l.pc.q].slots[p] != []
    ensures var op := Last(g.subs[l.pc.q].slots[p]);
            Leads(run, more, t, WithSub(g, l.pc.q, PoppedAt(g.subs[l.pc.q], p)).(executed := g.executed + [op]),
                  l.(current := Some(op), pc := Free))
  {
    var q, sub, other := l.pc.q, g.subs[l.pc.q], l.pc.other;
    var slot := sub.slots[p];
    var op := Last(slot);
    var g1 := WithSub(g, q, sub.(locked := true));
    var looking := l.(pc := Looking(q, other));
    var locked := Then(run, first, t, g, l, Lock, g1, looking);
    var sub2 := sub.(locked := true, slots := sub.slots[p := slot[..|slot| - 1]]);
    var g2, g3 := WithSub(g, q, sub2), WithSub(g, q, PoppedAt(sub, p).(locked := true));
    var leaving := l.(pc := Leaving(q, Some(op), None));
    var popped;
    if |slot| == 1 {
      var clearing := l.(pc := Clearing(q, p, op));
      var looked := Then(run, locked, t, g1, looking, Look(p), g2, clearing);
      popped := Then(run, looked, t, g2, clearing, Clear, g3, leaving);
    } else {
      popped := Then(run, locked, t, g1, looking, Look(p), g3, leaving);
    }
    var g4 := WithSub(g, q, PoppedAt(sub, p));
    assert g3.subs[q := g3.subs[q].(locked := false)] == g4.subs;
    more := Then(run, popped, t, g3, leaving, Leave, g4.(executed := g.executed + [op]),
                 l.(current := Some(op), pc := Free));
  }

  /** An unlocked sub-queue's bitmap tells its stacks. */
  lemma UnlockedAgrees(s: State, q: nat, p: nat)
    requires WeakPoolSafety.Inv(s) && q < |s.shared.subs| && !s.shared.subs[q].locked
    ensures p in s.shared.subs[q].bits <==> StackAt(s.shared, q, p) != []
  {
    assert LockAt(s, q) && BitAt(s, q, p);
    WeightsPositive(s.threads, q, p);
    Counting.SumMonotone(Editing(q, p), HoldsLock(q), s.threads);
  }

  /** Where the worker goes first: to the sub-queue whose lowest level is lower. */
  lemma ChoosesLower(s: State, a: nat, b: nat, p: nat)
    requires WeakPoolSafety.Inv(s) && a < |s.shared.subs| && b < |s.shared.subs| && IsFirstLevel(s.shared, a, b, p)
    requires !s.shared.subs[a].locked && !s.shared.subs[b].locked
    ensures s.shared.subs[a].bits != {} || s.shared.subs[b].bits != {}
    ensures var q := if Prefers(s.shared.subs[a].bits, s.shared.subs[b].bits) then b else a;
            IsLowest(p, s.shared.subs[q].bits) && StackAt(s.shared, q, p) != []
  {
    var x, y := s.shared.subs[a].bits, s.shared.subs[b].bits;
    forall r: nat ensures (r in x <==> StackAt(s.shared, a, r) != []) && (r in y <==> StackAt(s.shared, b, r) != []) {
      UnlockedAgrees(s, a, r);
      UnlockedAgrees(s, b, r);
    }
    if p in x {
      assert IsLowest(p, x);
    } else {
      assert IsLowest(p, y);
      if x != {} {
        var k := LowestOf(x);
        assert IsLowest(k, x) && p < k;
      }
    }
  }

  lemma {:induction false} LowestOf(bits: set<nat>) returns (p: nat)
    requires bits != {}
    ensures IsLowest(p, bits)
    decreases |bits|
  {
    var x :| x in bits;
    if bits == {x} {
      p := x;
    } else {
      var rest := bits - {x};
      var least := LowestOf(rest);
      p := if least < x then least else x;
      forall r | r in bits ensures p <= r {
        assert r == x || r in rest;
      }
    }
  }

  /** From every reachable state with a permit, an idle worker that draws two unlocked sub-queues of which
      one holds an operation takes by itself the top of the lowest level of both, and executes it. */
  lemma DequeueAlone(run: seq<State>, t: nat, a: nat, b: nat, p: nat) returns (more: seq<State>)
    requires IsRun(run) && t < |Runs.Last(run).threads| && a != b
    requires var l := Runs.Last(run).threads[t]; l.worker && l.current.None? && l.pc.Free?
    requires Runs.Last(run).shared.permits > 0 && a < |Runs.Last(run).shared.subs| && b < |Runs.Last(run).shared.subs|
    requires !Runs.Last(run).shared.subs[a].locked && !Runs.Last(run).shared.subs[b].locked
    requires IsFirstLevel(Runs.Last(run).shared, a, b, p)
    ensures var g, l := Runs.Last(run).shared, Runs.Last(run).threads[t];
            var q := if Prefers(g.subs[a].bits, g.subs[b].bits) then b else a;
            && StackAt(g, q, p) != [] && p < |g.subs[q].slots|
            && Leads(run, more, t, WithSub(g, q, PoppedAt(g.subs[q], p))
                                   .(permits := g.permits - 1, executed := g.executed + [Last(StackAt(g, q, p))]),
                     l.(current := Some(Last(StackAt(g, q, p)))))
  {
    var g, l := Runs.Last(run).shared, Runs.Last(run).threads[t];
    EveryStateOk(run, |run| - 1);
    ChoosesLower(Runs.Last(run), a, b, p);
    var q := if Prefers(g.subs[a].bits, g.subs[b].bits) then b else a;
    var g1 := g.(permits := g.permits - 1);
    var permitted := One(run, t, Wait, g1, l.(pc := Permitted));
    var l2 := l.(pc := SawFirst(a, b, g.subs[a].bits));
    var peeked := Then(run, permitted, t, g1, l.(pc := Permitted), PeekFirst(a, b), g1, l2);
    var l3 := l.(pc := Locking(q, Some(if q == b then a else b)));
    var chosen := Then(run, peeked, t, g1, l2, PeekSecond, g1, l3);
    more := PopsAlone(run, chosen, t, g1, l3, p);
    assert l3.(current := Some(Last(StackAt(g, q, p))), pc := Free) == l.(current := Some(Last(StackAt(g, q, p))));
  }

  /** A worker that ends an operation executes by itself the one in its slot, if there is one. */
  lemma EndAlone(run: seq<State>, t: nat) returns (more: seq<State>)
    requires IsRun(run) && t < |Runs.Last(run).threads|
    requires var l := Runs.Last(run).threads[t]; l.worker && l.current.Some? && l.pc.Free?
    ensures var g, l := Runs.Last(run).shared, Runs.Last(run).threads[t];
            match l.local
            case Some(task) =>
              Leads(run, more, t, g.(executed := g.executed + [task.op]), l.(local := None, current := Some(task.op)))
            case None => Leads(run, more, t, g, l.(current := None))
  {
    var g, l := Runs.Last(run).shared, Runs.Last(run).threads[t];
    match l.local
    case Some(task) =>
      more := One(run, t, EndExecute, g.(executed := g.executed + [task.op]),
                  l.(local := None, current := Some(task.op)));
    case None => more := One(run, t, EndExecute, g, l.(current := None));
  }

  // ---- no access is blocked ----

  /** The access that a thread makes next, unless it waits for a lock. */
  lemma NextAccess(g: Shared, l: Local) returns (a: Action, g': Shared, l': Local)
    requires Shaped(g) && WeakPoolSafety.LocalOk(g, l) && !l.pc.Free?
    requires l.pc.Entering? || l.pc.Locking? ==> !g.subs[l.pc.q].locked
    requires l.pc.Looking? ==> forall p: nat :: Agrees(g.subs[l.pc.q], p)
    ensures Move(g, l, a, g', l')
  {
    g' := g;
    match l.pc
    case Entering(task, q) =>
      a, g', l' := Lock, WithSub(g, q, g.subs[q].(locked := true)), l.(pc := Pushing(task, q));
    case Pushing(task, q) =>
      var slots := g.subs[q].slots;
      a, l' := Push, l.(pc := Marking(q, task.priority));
      g' := WithSub(g, q, g.subs[q].(slots := slots[task.priority := slots[task.priority] + [task.op]]));
    case Marking(q, p) =>
      a, g', l' := Mark, WithSub(g, q, g.subs[q].(bits := g.subs[q].bits + {p})), l.(pc := Releasing(q));
    case Releasing(q) => a, g', l' := Unlock, WithSub(g, q, g.subs[q].(locked := false)), l.(pc := Signalling);
    case Signalling => a, g', l' := Signal, g.(permits := g.permits + 1), l.(pc := Free);
    case Permitted => a, l' := PeekFirst(0, 1), l.(pc := SawFirst(0, 1, g.subs[0].bits));
    case SawFirst(x, y, bits) =>
      a := PeekSecond;
      l' := l.(pc := if bits == {} && g.subs[y].bits == {} then Permitted
                     else if Prefers(bits, g.subs[y].bits) then Locking(y, Some(x)) else Locking(x, Some(y)));
    case Locking(q, other) =>
      a, g', l' := Lock, WithSub(g, q, g.subs[q].(locked := true)), l.(pc := Looking(q, other));
    case Looking(q, other) => a, g', l' := NextLook(g, l);
    case Clearing(q, p, op) =>
      a, g' := Clear, WithSub(g, q, g.subs[q].(bits := g.subs[q].bits - {p}));
      l' := l.(pc := Leaving(q, Some(op), None));
    case Leaving(q, found, other) =>
      a, g' := Leave, WithSub(g, q, g.subs[q].(locked := false));
      match found {
        case Some(op) => g', l' := g'.(executed := g.executed + [op]), l.(current := Some(op), pc := Free);
        case None => l' := l.(pc := match other case Some(o) => Locking(o, None) case None => Permitted);
      }
  }

  lemma NextLook(g: Shared, l: Local) returns (a: Action, g': Shared, l': Local)
    requires Shaped(g) && l.pc.Looking? && l.pc.q < |g.subs| && forall p: nat :: Agrees(g.subs[l.pc.q], p)
    ensures Move(g, l, a, g', l')
  {
    var sub, q := g.subs[l.pc.q], l.pc.q;
    if sub.bits == {} {
      a, g', l' := Look(0), g, l.(pc := Leaving(q, None, l.pc.other));
    } else {
      var p := LowestOf(sub.bits);
      assert Agrees(sub, p);
      var slot := sub.slots[p];
      a, g' := Look(p), WithSub(g, q, sub.(slots := sub.slots[p := slot[..|slot| - 1]]));
      l' := l.(pc := if |slot| == 1 then Clearing(q, p, Last(slot)) else Leaving(q, Some(Last(slot)), None));
    }
  }

  /** A thread that is not waiting for a lock always has a next access: an empty sub-queue sends a worker on
      to the other one or back to its loop. */
  lemma NeverStuck(run: seq<State>, i: nat, t: nat)
    requires IsRun(run) && i < |run| && t < |run[i].threads| && !run[i].threads[t].pc.Free?
    requires var pc := run[i].threads[t].pc;
             pc.Entering? || pc.Locking? ==> pc.q < |run[i].shared.subs| && !run[i].shared.subs[pc.q].locked
    ensures exists a, s' :: StepOf(run[i], t, a, s')
  {
    var s := run[i];
    EveryStateOk(run, i);
    assert WeakPoolSafety.LocalOk(s.shared, s.threads[t]);
    if s.threads[t].pc.Looking? {
      forall p: nat ensures Agrees(s.shared.subs[s.threads[t].pc.q], p) {
        LookerSeesTheTruth(s, t, p);
      }
    }
    var a, g', l' := NextAccess(s.shared, s.threads[t]);
    assert StepOf(s, t, a, State(g', s.threads[t := l']));
  }
}
