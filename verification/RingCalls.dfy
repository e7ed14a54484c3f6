/** What a call on the ring can do by itself, whatever the other threads are in the middle of. */
module RingCalls {
  import Modular
  import opened RingProtocol
  import opened RingSafety
  import Runs

  function After(s: State, t: nat, g: Shared, l: Local): State
    requires t < |s.threads|
  {
    State(g, s.reader, s.threads[t := l])
  }

  lemma ProducerMore(n: nat, run: seq<State>, t: nat, a: Action, g: Shared, l: Local)
    requires IsRun(n, run) && t < |Runs.Last(run).threads| && n > 0 && |Runs.Last(run).shared.cells| == n
    requires Move(n, Runs.Last(run).shared, Runs.Last(run).threads[t], a, g, l)
    ensures IsRun(n, run + [After(Runs.Last(run), t, g, l)])
  {
    var s' := After(Runs.Last(run), t, g, l);
    assert ProducerStep(n, Runs.Last(run), t, a, s');
    Runs.OneMore(Protocol(n), run, s');
  }

  lemma ConsumerMore(n: nat, run: seq<State>, a: ReaderAction, s': State)
    requires IsRun(n, run) && ConsumerStep(n, Runs.Last(run), a, s')
    ensures IsRun(n, run + [s'])
  {
    Runs.OneMore(Protocol(n), run, s');
  }

  lemma LastIsOk(n: nat, run: seq<State>)
    requires IsRun(n, run)
    ensures RingSafety.Inv(n, Runs.Last(run)) && n >= 2 && |Runs.Last(run).shared.cells| == n
  {
    EveryStateOk(n, run, |run| - 1);
  }

  // ---- pushing ----

  /** How many positions are claimed and not released. */
  function InUse(s: State): int {
    s.shared.enqueuePos - ReleasedCount(s.shared, s.reader)
  }

  lemma FirstReads(n: nat, run: seq<State>, t: nat, v: Value) returns (more: seq<State>)
    requires IsRun(n, run) && t < |Runs.Last(run).threads| && Runs.Last(run).threads[t] == Idle
    ensures |more| == 2 && IsRun(n, run + more)
    ensures more[1] == After(Runs.Last(run), t, Runs.Last(run).shared, Loaded(Runs.Last(run).shared.enqueuePos, v))
  {
    var s := Runs.Last(run);
    LastIsOk(n, run);
    var s1 := After(s, t, s.shared, Started(v));
    ProducerMore(n, run, t, Start(v), s.shared, Started(v));
    var s2 := After(s1, t, s.shared, Loaded(s.shared.enqueuePos, v));
    ProducerMore(n, run + [s1], t, Load, s.shared, Loaded(s.shared.enqueuePos, v));
    more := [s1, s2];
    assert run + more == run + [s1] + [s2];
    assert s2.threads == s.threads[t := Loaded(s.shared.enqueuePos, v)];
  }

  /** The cell at the next position is free exactly if the ring is not full. */
  lemma NextCell(n: nat, s: State)
    requires RingSafety.Inv(n, s)
    ensures n > 0 && |s.shared.cells| == n && InUse(s) <= n
    ensures InUse(s) < n ==> s.shared.cells[Slot(s.shared.enqueuePos, n)].sequence == s.shared.enqueuePos
    ensures InUse(s) == n ==> s.shared.cells[Slot(s.shared.enqueuePos, n)].sequence < s.shared.enqueuePos
  {
    var g, rel := s.shared, ReleasedCount(s.shared, s.reader);
    if InUse(s) < n {
      assert CellOk(n, g, g.enqueuePos);
    } else {
      assert CellOk(n, g, rel);
      Modular.OneRoundLater(rel, n);
    }
  }

  lemma Claims(n: nat, run: seq<State>, t: nat, v: Value) returns (more: seq<State>)
    requires IsRun(n, run) && t < |Runs.Last(run).threads| && InUse(Runs.Last(run)) < n
    requires Runs.Last(run).threads[t] == Loaded(Runs.Last(run).shared.enqueuePos, v)
    ensures |more| == 2 && IsRun(n, run + more)
    ensures var s := Runs.Last(run);
            more[1] == After(s, t, s.shared.(enqueuePos := s.shared.enqueuePos + 1, claims := s.shared.claims + [v]),
                             Claimed(s.shared.enqueuePos, v))
  {
    var s, pos := Runs.Last(run), Runs.Last(run).shared.enqueuePos;
    LastIsOk(n, run);
    NextCell(n, s);
    var s1 := After(s, t, s.shared, Ready(pos, v));
    ProducerMore(n, run, t, ReadSequence, s.shared, Ready(pos, v));
    var g := s.shared.(enqueuePos := pos + 1, claims := s.shared.claims + [v]);
    var s2 := After(s1, t, g, Claimed(pos, v));
    ProducerMore(n, run + [s1], t, Cas(false), g, Claimed(pos, v));
    more := [s1, s2];
    assert run + more == run + [s1] + [s2];
    assert s2.threads == s.threads[t := Claimed(pos, v)];
  }

  lemma Publishes(n: nat, run: seq<State>, t: nat) returns (more: seq<State>)
    requires IsRun(n, run) && t < |Runs.Last(run).threads| && Runs.Last(run).threads[t].Claimed?
    ensures |more| == 2 && IsRun(n, run + more)
    ensures more[1].threads == Runs.Last(run).threads[t := Idle] && more[1].reader == Runs.Last(run).reader
    ensures more[1].shared.claims == Runs.Last(run).shared.claims
    ensures |more[1].shared.cells| == n && n > 0
    ensures var l := Runs.Last(run).threads[t]; more[1].shared.cells[Slot(l.pos, n)] == Cell(l.pos + 1, l.v)
  {
    var s, l := Runs.Last(run), Runs.Last(run).threads[t];
    LastIsOk(n, run);
    var i := Slot(l.pos, n);
    var g1 := s.shared.(cells := s.shared.cells[i := s.shared.cells[i].(data := l.v)]);
    var s1 := After(s, t, g1, Filled(l.pos));
    ProducerMore(n, run, t, Fill, g1, Filled(l.pos));
    var g2 := g1.(cells := g1.cells[i := g1.cells[i].(sequence := l.pos + 1)]);
    var s2 := After(s1, t, g2, Idle);
    ProducerMore(n, run + [s1], t, Publish, g2, Idle);
    more := [s1, s2];
    assert run + more == run + [s1] + [s2];
    assert s2.threads == s.threads[t := Idle];
  }

  /** From every reachable state an idle producer can push by itself: if fewer than capacity positions are
      in use its value is claimed, written and visible in the end, and otherwise it returns without. */
  lemma PushAlone(n: nat, run: seq<State>, t: nat, v: Value) returns (more: seq<State>)
    requires IsRun(n, run) && t < |Runs.Last(run).threads| && Runs.Last(run).threads[t] == Idle
    ensures more != [] && IsRun(n, run + more) && n > 0 && |Runs.Last(more).shared.cells| == n
    ensures Runs.Last(more).threads == Runs.Last(run).threads && Runs.Last(more).reader == Runs.Last(run).reader
    ensures InUse(Runs.Last(run)) < n ==>
              && Runs.Last(more).shared.claims == Runs.Last(run).shared.claims + [v]
              && Runs.Last(more).shared.cells[Slot(|Runs.Last(run).shared.claims|, n)].sequence
                 == |Runs.Last(run).shared.claims| + 1
    ensures InUse(Runs.Last(run)) >= n ==> Runs.Last(more).shared == Runs.Last(run).shared
  {
    var s := Runs.Last(run);
    LastIsOk(n, run);
    NextCell(n, s);
    var began := FirstReads(n, run, t, v);
    var run2 := run + began;
    assert Runs.Last(run2) == began[1];
    if InUse(s) < n {
      var claimed := Claims(n, run2, t, v);
      assert Runs.Last(run2 + claimed) == claimed[1];
      var done := Publishes(n, run2 + claimed, t);
      more := began + claimed + done;
      assert run + more == run2 + claimed + done;
    } else {
      var s3 := After(began[1], t, s.shared, Idle);
      ProducerMore(n, run2, t, ReadSequence, s.shared, Idle);
      more := began + [s3];
      assert run + more == run2 + [s3];
    }
    assert Runs.Last(more).threads == s.threads;
  }

  // ---- popping ----

  /** From every reachable state between two pops: if the oldest place is visible the consumer can pop it
      by itself, and otherwise one look ends the pop. */
  lemma PopAlone(n: nat, run: seq<State>) returns (more: seq<State>)
    requires IsRun(n, run) && Runs.Last(run).reader == Waiting
    ensures more != [] && IsRun(n, run + more) && Runs.Last(more).reader == Waiting
    ensures Runs.Last(more).threads == Runs.Last(run).threads
    ensures n > 0 && |Runs.Last(run).shared.cells| == n
    ensures var g, g' := Runs.Last(run).shared, Runs.Last(more).shared;
            if g.cells[Slot(g.dequeuePos, n)].sequence == g.dequeuePos + 1 then
              && g.dequeuePos < |g.claims| && g'.taken == g.taken + [g.claims[g.dequeuePos]]
              && g'.dequeuePos == g.dequeuePos + 1
            else g' == g
  {
    var s := Runs.Last(run);
    LastIsOk(n, run);
    var g, i := s.shared, Slot(s.shared.dequeuePos, n);
    assert CellOk(n, g, g.dequeuePos);
    if g.cells[i].sequence == g.dequeuePos + 1 {
      var s1 := s.(reader := Saw);
      ConsumerMore(n, run, Look, s1);
      var s2 := s1.(shared := g.(taken := g.taken + [g.cells[i].data]), reader := Took);
      ConsumerMore(n, run + [s1], Take, s2);
      var cells := g.cells[i := g.cells[i].(sequence := g.dequeuePos + n)];
      var s3 := s2.(shared := s2.shared.(cells := cells), reader := Released);
      ConsumerMore(n, run + [s1] + [s2], Release, s3);
      var s4 := s3.(shared := s3.shared.(dequeuePos := g.dequeuePos + 1), reader := Waiting);
      ConsumerMore(n, run + [s1] + [s2] + [s3], Advance, s4);
      more := [s1, s2, s3, s4];
      assert run + more == run + [s1] + [s2] + [s3] + [s4];
    } else {
      more := [s];
      ConsumerMore(n, run, Look, s);
    }
  }
}
