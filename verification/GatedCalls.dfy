/** What a call on the gated queue can do by itself, whatever the other threads are in the middle of. */
module GatedCalls {
  import opened GatedQueue
  import opened Numbers
  import Runs

  function After(s: State, t: nat, g: Shared, l: Local): State
    requires t < |s.threads|
  {
    State(g, s.threads[t := l])
  }

  /** A continuation that changes the shared state and thread t to these. */
  ghost predicate Leads(initial: nat, run: seq<State>, more: seq<State>, t: nat, g: Shared, l: Local) {
    && run != [] && t < |Runs.Last(run).threads|
    && Runs.Leads(Protocol(initial), run, more, After(Runs.Last(run), t, g, l))
  }

  lemma One(initial: nat, run: seq<State>, t: nat, a: Action, g: Shared, l: Local) returns (more: seq<State>)
    requires IsRun(initial, run) && t < |Runs.Last(run).threads|
    requires Move(Runs.Last(run).shared, Runs.Last(run).threads[t], a, g, l)
    ensures Leads(initial, run, more, t, g, l)
  {
    var s' := After(Runs.Last(run), t, g, l);
    assert StepOf(Runs.Last(run), t, a, s');
    Runs.OneMore(Protocol(initial), run, s');
    more := [s'];
  }

  lemma Then(initial: nat, run: seq<State>, first: seq<State>, t: nat, g1: Shared, l1: Local,
             a: Action, g: Shared, l: Local) returns (more: seq<State>)
    requires Leads(initial, run, first, t, g1, l1) && Move(g1, l1, a, g, l)
    ensures Leads(initial, run, more, t, g, l)
  {
    var s1, s2 := After(Runs.Last(run), t, g1, l1), After(Runs.Last(run), t, g, l);
    assert s1.threads[t := l] == s2.threads;
    assert StepOf(s1, t, a, s2);
    more := Runs.GoOn(Protocol(initial), run, first, s1, s2);
  }

  // ---- enqueue and signal ----

  lemma {:induction false} PostsAll(initial: nat, run: seq<State>, first: seq<State>, t: nat, g1: Shared, r: nat)
    returns (more: seq<State>)
    requires Leads(initial, run, first, t, g1, Posting(r))
    ensures Leads(initial, run, more, t, g1.(os := g1.os + r), Idle)
    decreases r
  {
    if r == 0 {
      more := Then(initial, run, first, t, g1, Posting(0), Post, g1, Idle);
    } else {
      var g := g1.(os := g1.os + 1);
      var next := Then(initial, run, first, t, g1, Posting(r), Post, g, Posting(r - 1));
      more := PostsAll(initial, run, next, t, g, r - 1);
    }
  }

  /** From every reachable state an idle producer can enqueue n elements by itself: there are n more
      elements and permits, and as many releases for sleeping waits as the count was short of. */
  lemma EnqueueAlone(initial: nat, run: seq<State>, t: nat, n: nat) returns (more: seq<State>)
    requires IsRun(initial, run) && t < |Runs.Last(run).threads| && Runs.Last(run).threads[t] == Idle
    ensures var g := Runs.Last(run).shared;
            Leads(initial, run, more, t,
                  Shared(g.count + n, g.os + Pos(Min(-g.count, n)), g.elements + n, g.signalled + n, g.acquired), Idle)
  {
    var g := Runs.Last(run).shared;
    var g1 := g.(elements := g.elements + n);
    var first := One(initial, run, t, Enqueue(n), g1, Enqueued(n));
    var g2 := g1.(count := g.count + n, signalled := g.signalled + n);
    var r := Pos(Min(-g.count, n));
    if r > 0 {
      var posting := Then(initial, run, first, t, g1, Enqueued(n), Signal, g2, Posting(r));
      more := PostsAll(initial, run, posting, t, g2, r);
    } else {
      more := Then(initial, run, first, t, g1, Enqueued(n), Signal, g2, Idle);
    }
  }

  // ---- waits that find permits ----

  /** From every reachable state an idle thread can try, or begin to wait, by itself: with permits in the
      count it gets min(max, count) of them; a try without gets nothing. */
  lemma TakesAlone(initial: nat, run: seq<State>, t: nat, mode: Mode, max: nat) returns (more: seq<State>)
    requires IsRun(initial, run) && t < |Runs.Last(run).threads| && Runs.Last(run).threads[t] == Idle
    requires Runs.Last(run).shared.count > 0 || mode == Try
    ensures var g := Runs.Last(run).shared;
            var got := Min(max, Pos(g.count));
            Leads(initial, run, more, t, g.(count := g.count - got, acquired := g.acquired + got), Done(mode, max, got))
  {
    var g := Runs.Last(run).shared;
    var got := Min(max, Pos(g.count));
    var first := One(initial, run, t, Begin(mode, max), g, Trying(First, mode, max, 0));
    var loaded := Loaded(First, mode, max, 0, g.count);
    var second := Then(initial, run, first, t, g, Trying(First, mode, max, 0), Load, g, loaded);
    more := Then(initial, run, second, t, g, loaded, Cas(false),
                 g.(count := g.count - got, acquired := g.acquired + got), Done(mode, max, got));
  }

  lemma {:induction false} SpinsAll(run: seq<State>, first: seq<State>, t: nat, g1: Shared, n: nat)
    returns (more: seq<State>)
    requires Leads(0, run, first, t, g1, Dequeuing(n)) && 0 < n <= g1.elements
    ensures Leads(0, run, more, t, g1.(elements := g1.elements - n), Idle)
    decreases n
  {
    var g := g1.(elements := g1.elements - 1);
    if n == 1 {
      more := Then(0, run, first, t, g1, Dequeuing(1), Dequeue, g, Idle);
    } else {
      var next := Then(0, run, first, t, g1, Dequeuing(n), Dequeue, g, Dequeuing(n - 1));
      more := SpinsAll(run, next, t, g, n - 1);
    }
  }

  /** From every reachable state an idle consumer can take min(max, count) elements out of the queue by
      itself, and ends with nothing exactly if there is no permit for it. */
  lemma DequeueAlone(run: seq<State>, t: nat, max: nat) returns (more: seq<State>)
    requires IsRun(0, run) && t < |Runs.Last(run).threads| && Runs.Last(run).threads[t] == Idle
    ensures var g := Runs.Last(run).shared;
            var got := Min(max, Pos(g.count));
            && got <= g.elements
            && Leads(0, run, more, t, g.(count := g.count - got, elements := g.elements - got,
                                         acquired := g.acquired + got), Idle)
  {
    var g := Runs.Last(run).shared;
    var got := Min(max, Pos(g.count));
    var taken := TakesAlone(0, run, t, Try, max);
    var g1 := g.(count := g.count - got, acquired := g.acquired + got);
    if got == 0 {
      more := Then(0, run, taken, t, g1, Done(Try, max, 0), Return, g1, Idle);
    } else {
      var spinning := Then(0, run, taken, t, g1, Done(Try, max, got), Return, g1, Dequeuing(got));
      SpinnersHaveElements(run + spinning, |run + spinning| - 1);
      assert Runs.Last(run + spinning) == Runs.Last(spinning);
      assert Runs.Last(spinning).threads[t] == Dequeuing(got);
      more := SpinsAll(run, spinning, t, g1, got);
    }
  }

  // ---- waits that do not ----

  /** Without a permit a wait for at least one registers and sleeps. */
  lemma SleepsAlone(initial: nat, run: seq<State>, t: nat, timed: bool, max: nat) returns (more: seq<State>)
    requires IsRun(initial, run) && t < |Runs.Last(run).threads| && Runs.Last(run).threads[t] == Idle
    requires Runs.Last(run).shared.count <= 0 && max > 0
    ensures var g := Runs.Last(run).shared;
            Leads(initial, run, more, t, g.(count := g.count - 1), Sleeping(Block(timed), max))
  {
    var g, mode := Runs.Last(run).shared, Block(timed);
    var first := One(initial, run, t, Begin(mode, max), g, Trying(First, mode, max, 0));
    var loaded := Loaded(First, mode, max, 0, g.count);
    var second := Then(initial, run, first, t, g, Trying(First, mode, max, 0), Load, g, loaded);
    var third := Then(initial, run, second, t, g, loaded, Cas(false), g, Trying(Spin, mode, max, 0));
    more := Then(initial, run, third, t, g, Trying(Spin, mode, max, 0), StopSpinning,
                 g.(count := g.count - 1), Sleeping(mode, max));
  }

  /** A wait that got its first permit takes as many more as there are, up to max in all. */
  lemma TakesMore(initial: nat, run: seq<State>, first: seq<State>, t: nat, g: Shared, mode: Mode, max: nat)
    returns (more: seq<State>)
    requires Leads(initial, run, first, t, g, GotOne(mode, max)) && max > 0
    ensures var rest := Min(max - 1, Pos(g.count));
            Leads(initial, run, more, t, g.(count := g.count - rest, acquired := g.acquired + rest),
                  Done(mode, max, 1 + rest))
  {
    var rest := Min(max - 1, Pos(g.count));
    if max > 1 {
      var second := Then(initial, run, first, t, g, GotOne(mode, max), Continue, g, Trying(More, mode, max, 1));
      var loaded := Loaded(More, mode, max, 1, g.count);
      var third := Then(initial, run, second, t, g, Trying(More, mode, max, 1), Load, g, loaded);
      more := Then(initial, run, third, t, g, loaded, Cas(false),
                   g.(count := g.count - rest, acquired := g.acquired + rest), Done(mode, max, 1 + rest));
    } else {
      more := Then(initial, run, first, t, g, GotOne(mode, max), Continue, g, Done(mode, max, 1));
    }
  }

  /** From every reachable state in which a thread sleeps and a release is there, it can wake by itself and
      returns with min(max, 1 + count) permits. */
  lemma WakesAlone(initial: nat, run: seq<State>, t: nat) returns (more: seq<State>)
    requires IsRun(initial, run) && t < |Runs.Last(run).threads| && Runs.Last(run).threads[t].Sleeping?
    requires Runs.Last(run).shared.os > 0
    ensures var g, l := Runs.Last(run).shared, Runs.Last(run).threads[t];
            var rest := Min(l.max - 1, Pos(g.count));
            && l.max > 0
            && Leads(initial, run, more, t,
                     g.(os := g.os - 1, count := g.count - rest, acquired := g.acquired + 1 + rest),
                     Done(l.mode, l.max, 1 + rest))
  {
    var g, l := Runs.Last(run).shared, Runs.Last(run).threads[t];
    EveryStateOk(initial, run, |run| - 1);
    assert GatedQueue.LocalOk(l);
    var g1 := g.(os := g.os - 1, acquired := g.acquired + 1);
    var woken := One(initial, run, t, Wake, g1, GotOne(l.mode, l.max));
    more := TakesMore(initial, run, woken, t, g1, l.mode, l.max);
  }

  /** From every reachable state in which a timed wait sleeps, it can time out by itself: with a deficit in
      the count it takes back its registration and returns nothing; without one, and with a release there,
      it takes that release. */
  lemma TimesOutAlone(initial: nat, run: seq<State>, t: nat) returns (more: seq<State>)
    requires IsRun(initial, run) && t < |Runs.Last(run).threads| && Runs.Last(run).threads[t].Sleeping?
    requires Runs.Last(run).threads[t].mode == Block(true)
    requires Runs.Last(run).shared.count < 0 || Runs.Last(run).shared.os > 0
    ensures var g, l := Runs.Last(run).shared, Runs.Last(run).threads[t];
            if g.count < 0 then Leads(initial, run, more, t, g.(count := g.count + 1), Done(l.mode, l.max, 0))
            else Leads(initial, run, more, t, g.(os := g.os - 1, acquired := g.acquired + 1), GotOne(l.mode, l.max))
  {
    var g, l := Runs.Last(run).shared, Runs.Last(run).threads[t];
    var first := One(initial, run, t, TimeOut, g, Adjusting(l.mode, l.max));
    var second := Then(initial, run, first, t, g, Adjusting(l.mode, l.max), LoadAgain, g,
                       Adjusted(l.mode, l.max, g.count));
    if g.count < 0 {
      more := Then(initial, run, second, t, g, Adjusted(l.mode, l.max, g.count), Adjust,
                   g.(count := g.count + 1), Done(l.mode, l.max, 0));
    } else {
      more := Then(initial, run, second, t, g, Adjusted(l.mode, l.max, g.count), Adjust,
                   g.(os := g.os - 1, acquired := g.acquired + 1), GotOne(l.mode, l.max));
    }
  }
}
