/** What one activation of an actor gets done: it stops before its limit only if it found each mailbox
    without a message to pop. */
module ActorDrain {
  import opened ActorProtocol
  import Mailbox
  import opened Numbers

  predicate Visiting(l: Local) {
    l.Draining? || l.Popped? || l.Executing?
  }

  predicate InDrain(l: Local) {
    Visiting(l) || l.Drained?
  }

  /** From step r, in which thread t reads its limit, to state i the thread drains the mailboxes. */
  ghost predicate OneDrain(c: Config, run: seq<State>, t: nat, r: nat, i: nat) {
    && r < i < |run| && StepOf(c, run[r], t, ReadLimit, run[r + 1])
    && forall k :: r < k <= i ==> t < |run[k].threads| && InDrain(run[k].threads[t])
  }

  /** At one of these moments the mailbox had no message to pop: it was empty, or the oldest message was
      not visible yet. */
  ghost predicate Missed(run: seq<State>, b: nat, r: nat, i: nat) {
    exists m :: r < m < i <= |run| && MissedAt(run, b, m)
  }

  ghost predicate MissedAt(run: seq<State>, b: nat, m: int) {
    0 <= m < |run| && b < |run[m].shared.boxes| && !Mailbox.HeadVisible(run[m].shared.boxes[b])
  }

  ghost predicate AllMissed(run: seq<State>, n: nat, r: nat, i: nat) {
    forall b: nat :: b < n ==> Missed(run, b, r, i)
  }

  lemma LaterMissed(run: seq<State>, n: nat, r: nat, i: nat, j: nat)
    requires AllMissed(run, n, r, i) && i <= j <= |run|
    ensures AllMissed(run, n, r, j)
  {
    forall b: nat | b < n ensures Missed(run, b, r, j) {
      assert Missed(run, b, r, i);
      var m :| r < m < i && MissedAt(run, b, m);
    }
  }

  // ---- one step of the thread that drains ----

  ghost predicate DrainStep(s: State, t: nat, s': State)
    requires t < |s.threads|
  {
    && |s'.threads| == |s.threads| && |s'.shared.boxes| == |s.shared.boxes|
    && var l, l' := s.threads[t], s'.threads[t];
       && (l.Drained? ==> l' == l)
       && (Visiting(l) && Visiting(l') ==>
             && l'.limit == l.limit
             && (l'.box == l.box
                 || (l'.box == l.box + 1 && l.box < |s.shared.boxes| && !Mailbox.HeadVisible(s.shared.boxes[l.box]))))
       && (Visiting(l) && l'.Drained? ==> l'.done >= Max(1, l.limit) || l.box >= |s.shared.boxes|)
  }

  ghost predicate DrainStepAt(run: seq<State>, t: nat, k: nat) {
    k + 1 < |run| && t < |run[k].threads| && t < |run[k + 1].threads|
    && InDrain(run[k].threads[t]) && InDrain(run[k + 1].threads[t]) ==>
      DrainStep(run[k], t, run[k + 1])
  }

  lemma OwnMove(c: Config, s: State, t: nat, a: Action, s': State)
    requires StepOf(c, s, t, a, s') && InDrain(s.threads[t]) && InDrain(s'.threads[t])
    ensures DrainStep(s, t, s')
  {
  }

  lemma DrainSteps(c: Config, run: seq<State>, t: nat, k: nat)
    requires IsRun(c, run)
    ensures DrainStepAt(run, t, k)
  {
    if k + 1 < |run| {
      assert Protocol(c).next(run[k], run[k + 1]);
      var u: nat, a :| StepOf(c, run[k], u, a, run[k + 1]);
      if t < |run[k].threads| && u != t {
        assert run[k + 1].threads[t] == run[k].threads[t];
      } else if t < |run[k].threads| && InDrain(run[k].threads[t]) && InDrain(run[k + 1].threads[t]) {
        OwnMove(c, run[k], t, a, run[k + 1]);
      }
    }
  }

  // ---- the whole drain ----

  ghost predicate DrainOk(run: seq<State>, t: nat, r: nat, i: nat, limit: nat)
    requires i < |run| && t < |run[i].threads| && InDrain(run[i].threads[t])
  {
    var l := run[i].threads[t];
    if l.Drained? then l.done >= Max(1, limit) || AllMissed(run, |run[i].shared.boxes|, r, i)
    else l.limit == limit && AllMissed(run, l.box, r, i)
  }

  lemma DrainGoesOn(run: seq<State>, t: nat, r: nat, k: nat, limit: nat)
    requires r < k < |run| - 1 && t < |run[k].threads| && t < |run[k + 1].threads|
    requires InDrain(run[k].threads[t]) && InDrain(run[k + 1].threads[t])
    requires DrainStepAt(run, t, k) && DrainOk(run, t, r, k, limit)
    ensures DrainOk(run, t, r, k + 1, limit)
  {
    var l, l' := run[k].threads[t], run[k + 1].threads[t];
    if l.Drained? {
      if l.done < Max(1, limit) {
        LaterMissed(run, |run[k].shared.boxes|, r, k, k + 1);
      }
    } else {
      LaterMissed(run, l.box, r, k, k + 1);
      if !l'.Drained? && l'.box == l.box + 1 {
        assert MissedAt(run, l.box, k);
      }
    }
  }

  lemma {:induction false} DrainSoFar(c: Config, run: seq<State>, t: nat, r: nat, i: nat)
    requires OneDrain(c, run, t, r, i) && forall k :: DrainStepAt(run, t, k)
    ensures DrainOk(run, t, r, i, Min(c.maxPerActivation, AsSizeT(run[r].shared.count)))
    decreases i
  {
    if i > r + 1 {
      var k: nat := i - 1;
      assert DrainStepAt(run, t, k);
      DrainSoFar(c, run, t, r, k);
      DrainGoesOn(run, t, r, k, Min(c.maxPerActivation, AsSizeT(run[r].shared.count)));
    }
  }

  /** An activation that stops before it has executed max(1, limit) messages visited every mailbox: each of
      them had no message to pop at a moment since the limit was read. */
  lemma StopsEarlyOnlyIfEmpty(c: Config, run: seq<State>, t: nat, r: nat, i: nat, b: nat)
    requires IsRun(c, run) && OneDrain(c, run, t, r, i) && run[i].threads[t].Drained?
    requires run[i].threads[t].done < Max(1, Min(c.maxPerActivation, AsSizeT(run[r].shared.count)))
    requires b < |run[i].shared.boxes|
    ensures exists m :: r < m < i && b < |run[m].shared.boxes| && !Mailbox.HeadVisible(run[m].shared.boxes[b])
  {
    forall k: nat ensures DrainStepAt(run, t, k) {
      DrainSteps(c, run, t, k);
    }
    DrainSoFar(c, run, t, r, i);
    assert Missed(run, b, r, i);
    var m :| r < m < i && MissedAt(run, b, m);
  }
}
