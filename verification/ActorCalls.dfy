/** What one thread can do with an actor by itself, whatever the others are in the middle of: push, ask for
    destruction, and run a scheduled activation to its end. */
module ActorCalls {
  import opened ActorInvariant
  import opened ActorProtocol
  import opened ActorSafety
  import opened Mailbox
  import opened Numbers
  import Runs

  function After(s: State, t: nat, g: Shared, l: Local): State
    requires t < |s.threads|
  {
    State(g, s.threads[t := l])
  }

  /** A continuation that changes the shared state and thread t to these. */
  ghost predicate Leads(c: Config, run: seq<State>, more: seq<State>, t: nat, g: Shared, l: Local) {
    run != [] && t < |Runs.Last(run).threads| && Runs.Leads(Protocol(c), run, more, After(Runs.Last(run), t, g, l))
  }

  lemma One(c: Config, run: seq<State>, t: nat, a: Action, g: Shared, l: Local) returns (more: seq<State>)
    requires IsRun(c, run) && t < |Runs.Last(run).threads|
    requires Move(c, Runs.Last(run).shared, Runs.Last(run).threads[t], a, g, l)
    ensures Leads(c, run, more, t, g, l)
  {
    var s' := After(Runs.Last(run), t, g, l);
    assert StepOf(c, Runs.Last(run), t, a, s');
    Runs.OneMore(Protocol(c), run, s');
    more := [s'];
  }

  lemma Then(c: Config, run: seq<State>, first: seq<State>, t: nat, g1: Shared, l1: Local,
             a: Action, g: Shared, l: Local) returns (more: seq<State>)
    requires Leads(c, run, first, t, g1, l1) && Move(c, g1, l1, a, g, l)
    ensures Leads(c, run, more, t, g, l)
  {
    var s1, s2 := After(Runs.Last(run), t, g1, l1), After(Runs.Last(run), t, g, l);
    assert s1.threads[t := l] == s2.threads;
    assert StepOf(c, s1, t, a, s2);
    more := Runs.GoOn(Protocol(c), run, first, s1, s2);
  }

  // ---- activating ----

  /** The actor after a thread tried to activate it: scheduled once more unless the flag was up. */
  function Activated(g: Shared): Shared {
    g.(activated := true, scheduled := if g.activated then g.scheduled else g.scheduled + 1)
  }

  lemma Activates(c: Config, run: seq<State>, first: seq<State>, t: nat, g: Shared) returns (more: seq<State>)
    requires Leads(c, run, first, t, g, Trying)
    ensures Leads(c, run, more, t, Activated(g), Idle)
  {
    var up := g.(activated := true);
    if g.activated {
      more := Then(c, run, first, t, g, Trying, TryActivate, up, Idle);
    } else {
      var won := Then(c, run, first, t, g, Trying, TryActivate, up, Won);
      more := Then(c, run, won, t, up, Won, Schedule, Activated(g), Idle);
    }
  }

  /** From every reachable state an idle thread can push a message by itself into a mailbox with room: it is
      the last of the mailbox, visible and counted, and the actor is scheduled if it was not active. */
  lemma PushAlone(c: Config, run: seq<State>, t: nat, box: nat, m: Message) returns (more: seq<State>)
    requires IsRun(c, run) && t < |Runs.Last(run).threads| && Runs.Last(run).threads[t] == Idle
    requires HasRoom(c, Runs.Last(run).shared, box)
    ensures var g := Runs.Last(run).shared;
            var b := g.boxes[box];
            Leads(c, run, more, t,
                  Activated(g.(boxes := g.boxes[box := Box(b.claimed + [m], b.visible + {|b.claimed|}, b.popped)],
                               count := g.count + 1)), Idle)
  {
    var g := Runs.Last(run).shared;
    var b := g.boxes[box];
    var g1 := g.(boxes := g.boxes[box := Mailbox.Claim(b, m)]);
    var first := One(c, run, t, Action.Claim(box, m), g1, Claimed(box, |b.claimed|));
    var full := Box(b.claimed + [m], b.visible + {|b.claimed|}, b.popped);
    var g2 := g.(boxes := g.boxes[box := full]);
    assert Mailbox.Publish(g1.boxes[box], |b.claimed|) == full && g1.boxes[box := full] == g2.boxes;
    var second := Then(c, run, first, t, g1, Claimed(box, |b.claimed|), Action.Publish, g2, Visible);
    var g3 := g2.(count := g.count + 1);
    var third := Then(c, run, second, t, g2, Visible, Add, g3, Trying);
    more := Activates(c, run, third, t, g3);
  }

  /** From every reachable state an idle thread can ask for destruction by itself: the first request is
      marked, counted and scheduled, and later ones change nothing. */
  lemma DestroyAlone(c: Config, run: seq<State>, t: nat) returns (more: seq<State>)
    requires IsRun(c, run) && t < |Runs.Last(run).threads| && Runs.Last(run).threads[t] == Idle
    ensures var g := Runs.Last(run).shared;
            if g.destroyRequested then Leads(c, run, more, t, g, Idle)
            else Leads(c, run, more, t, Activated(g.(destroyRequested := true, count := g.count + 1,
                                                     past := g.past.(credited := true))), Idle)
  {
    var g := Runs.Last(run).shared;
    var g1 := g.(destroyRequested := true);
    if g.destroyRequested {
      more := One(c, run, t, RequestDestroy, g1, Idle);
    } else {
      var first := One(c, run, t, RequestDestroy, g1, Marked);
      var g2 := g1.(count := g.count + 1, past := g.past.(credited := true));
      var second := Then(c, run, first, t, g1, Marked, AddCredit, g2, Trying);
      more := Activates(c, run, second, t, g2);
    }
  }

  // ---- an activation that destroys ----

  lemma Enters(c: Config, run: seq<State>, t: nat) returns (more: seq<State>)
    requires IsRun(c, run) && t < |Runs.Last(run).threads| && Runs.Last(run).threads[t] == Idle
    requires Runs.Last(run).shared.scheduled > 0
    ensures var g := Runs.Last(run).shared;
            var left := g.(scheduled := g.scheduled - 1);
            if g.alive then
              Leads(c, run, more, t, left.(past := g.past.(activations := g.past.activations + 1)),
                    FoundAlive(g.past.activations + 1))
            else
              Leads(c, run, more, t, left.(past := g.past.(deadEnds := g.past.deadEnds + 1)), Idle)
  {
    var g := Runs.Last(run).shared;
    var left := g.(scheduled := g.scheduled - 1);
    var first := One(c, run, t, Enter, left, Entered);
    if g.alive {
      more := Then(c, run, first, t, left, Entered, CheckInstance,
                   left.(past := g.past.(activations := g.past.activations + 1)), FoundAlive(g.past.activations + 1));
    } else {
      more := Then(c, run, first, t, left, Entered, CheckInstance,
                   left.(past := g.past.(deadEnds := g.past.deadEnds + 1)), Idle);
    }
  }

  /** From every reachable state with a live instance, a destroy request and a scheduled activation, an idle
      thread can destroy the instance by itself: it is reset, the flag is lowered, the credit given back. */
  lemma ActivationDestroys(c: Config, run: seq<State>, t: nat) returns (more: seq<State>)
    requires IsRun(c, run) && t < |Runs.Last(run).threads| && Runs.Last(run).threads[t] == Idle
    requires Runs.Last(run).shared.scheduled > 0
    requires Runs.Last(run).shared.alive && Runs.Last(run).shared.destroyRequested
    ensures var g := Runs.Last(run).shared;
            Leads(c, run, more, t,
                  g.(alive := false, activated := false, count := g.count - 1, scheduled := g.scheduled - 1,
                     past := g.past.(activations := g.past.activations + 1, resets := g.past.resets + 1,
                                     repaid := true)), Idle)
  {
    var g := Runs.Last(run).shared;
    var act := g.past.activations + 1;
    var entered := Enters(c, run, t);
    var g1 := g.(scheduled := g.scheduled - 1, past := g.past.(activations := act));
    var doomed := Then(c, run, entered, t, g1, FoundAlive(act), CheckDestroy, g1, Doomed);
    var g2 := g1.(alive := false, past := g1.past.(resets := g.past.resets + 1));
    var wiped := Then(c, run, doomed, t, g1, Doomed, Reset, g2, Wiped);
    var g3 := g2.(activated := false);
    var lowered := Then(c, run, wiped, t, g2, Wiped, LowerDead, g3, Lowered);
    more := Then(c, run, lowered, t, g3, Lowered, Repay,
                 g3.(count := g.count - 1, past := g3.past.(repaid := true)), Idle);
  }

  // ---- an activation that executes ----

  /** The mailboxes with an index below n have no message to pop. */
  ghost predicate NothingBelow(boxes: seq<Box<Message>>, n: nat) {
    forall b :: 0 <= b < n && b < |boxes| ==> !HeadVisible(boxes[b])
  }

  /** Nothing but mailboxes and the log differ, and the log has this many executions more. */
  ghost predicate Executed(g: Shared, g': Shared, n: nat) {
    && g' == g.(boxes := g'.boxes, past := g.past.(executed := g'.past.executed))
    && |g'.boxes| == |g.boxes| && |g'.past.executed| == |g.past.executed| + n
    && g.past.executed <= g'.past.executed
  }

  lemma ExecutesOne(c: Config, run: seq<State>, first: seq<State>, t: nat, g: Shared, l: Local)
    returns (more: seq<State>, g': Shared, l': Local)
    requires Leads(c, run, first, t, g, l) && l.Draining? && l.box < |g.boxes| && HeadVisible(g.boxes[l.box])
    ensures Leads(c, run, more, t, g', l') && Executed(g, g', 1)
    ensures g'.boxes == g.boxes[l.box := Pop(g.boxes[l.box])]
    ensures l' == if l.done + 1 >= l.limit then Drained(l.done + 1)
                  else Draining(l.act, l.box, l.done + 1, l.limit)
  {
    var b := g.boxes[l.box];
    var m := b.claimed[b.popped];
    var g1 := g.(boxes := g.boxes[l.box := Pop(b)]);
    var popped := Popped(l.act, l.box, l.done, l.limit, m);
    var second := Then(c, run, first, t, g, l, TryPop, g1, popped);
    g' := g1.(past := g1.past.(executed := g1.past.executed + [Execution(l.act, l.box, m)]));
    var running := Executing(l.act, l.box, l.done, l.limit);
    var third := Then(c, run, second, t, g1, popped, BeginExecute, g', running);
    l' := if l.done + 1 >= l.limit then Drained(l.done + 1) else Draining(l.act, l.box, l.done + 1, l.limit);
    more := Then(c, run, third, t, g', running, EndExecute, g', l');
  }

  lemma {:induction false} DrainsAlone(c: Config, run: seq<State>, first: seq<State>, t: nat, g: Shared, l: Local)
    returns (more: seq<State>, g': Shared, done: nat)
    requires Leads(c, run, first, t, g, l) && l.Draining? && l.box <= |g.boxes| && NothingBelow(g.boxes, l.box)
    requires forall b :: 0 <= b < |g.boxes| ==> Mailbox.Valid(g.boxes[b])
    ensures Leads(c, run, more, t, g', Drained(done)) && done >= l.done && Executed(g, g', done - l.done)
    ensures done >= Max(1, l.limit) || NothingBelow(g'.boxes, |g'.boxes|)
    ensures done - l.done >= 1 || NothingBelow(g.boxes, |g.boxes|)
    decreases |g.boxes| - l.box, if l.box < |g.boxes| then Unpopped(g.boxes[l.box]) else 0
  {
    if l.box == |g.boxes| {
      more := Then(c, run, first, t, g, l, TryPop, g, Drained(l.done));
      g', done := g, l.done;
    } else if HeadVisible(g.boxes[l.box]) {
      var next, g1, l1 := ExecutesOne(c, run, first, t, g, l);
      if l1.Drained? {
        more, g', done := next, g1, l1.done;
      } else {
        more, g', done := DrainsAlone(c, run, next, t, g1, l1);
      }
    } else {
      var l1 := Draining(l.act, l.box + 1, l.done, l.limit);
      var next := Then(c, run, first, t, g, l, TryPop, g, l1);
      more, g', done := DrainsAlone(c, run, next, t, g, l1);
    }
  }

  /** From every reachable state with a live instance, no destroy request and a scheduled activation, an idle
      thread can run the activation by itself to its end: it executes a message if any mailbox has one to
      pop, stops only at the limit or when no mailbox has one, subtracts what it executed, and leaves the
      actor scheduled again exactly if the counter does not read zero then. */
  lemma ActivationExecutes(c: Config, run: seq<State>, t: nat) returns (more: seq<State>, g': Shared, done: nat)
    requires IsRun(c, run) && t < |Runs.Last(run).threads| && Runs.Last(run).threads[t] == Idle
    requires Runs.Last(run).shared.scheduled > 0
    requires Runs.Last(run).shared.alive && !Runs.Last(run).shared.destroyRequested
    ensures Leads(c, run, more, t, g', Idle)
    ensures var g := Runs.Last(run).shared;
            && |g'.past.executed| == |g.past.executed| + done && g.past.executed <= g'.past.executed
            && g'.count == g.count - done && g'.alive && !g'.destroyRequested
            && (done >= 1 || NothingBelow(g.boxes, |g.boxes|))
            && (done >= Max(1, Min(c.maxPerActivation, AsSizeT(g.count))) || NothingBelow(g'.boxes, |g'.boxes|))
            && g'.activated == (AsSizeT(g'.count) != 0)
            && g'.scheduled == g.scheduled - 1 + (if AsSizeT(g'.count) != 0 then 1 else 0)
  {
    var g := Runs.Last(run).shared;
    var act, limit := g.past.activations + 1, Min(c.maxPerActivation, AsSizeT(g.count));
    EveryStateOk(c, run, |run| - 1);
    forall b | 0 <= b < |g.boxes| ensures Mailbox.Valid(g.boxes[b]) {
      assert BoxOk(c.capacities[b], g.boxes[b]);
    }
    var entered := Enters(c, run, t);
    var g1 := g.(scheduled := g.scheduled - 1, past := g.past.(activations := act));
    var checked := Then(c, run, entered, t, g1, FoundAlive(act), CheckDestroy, g1, Limiting(act));
    var draining := Then(c, run, checked, t, g1, Limiting(act), ReadLimit, g1, Draining(act, 0, 0, limit));
    var drained, g2, n := DrainsAlone(c, run, draining, t, g1, Draining(act, 0, 0, limit));
    done := n;
    more, g' := Ends(c, run, drained, t, g2, done);
  }

  lemma Ends(c: Config, run: seq<State>, first: seq<State>, t: nat, g: Shared, done: nat)
    returns (more: seq<State>, g': Shared)
    requires Leads(c, run, first, t, g, Drained(done))
    ensures Leads(c, run, more, t, g', Idle)
    ensures g' == g.(count := g.count - done, activated := AsSizeT(g'.count) != 0,
                     scheduled := g.scheduled + (if AsSizeT(g'.count) != 0 then 1 else 0))
  {
    var g1 := g.(count := g.count - done);
    var settled := Then(c, run, first, t, g, Drained(done), Subtract, g1, Settled);
    var g2 := g1.(activated := false);
    var stored := Then(c, run, settled, t, g1, Settled, Lower, g2, Stored);
    if AsSizeT(g1.count) != 0 {
      var trying := Then(c, run, stored, t, g2, Stored, LookAgain, g2, Trying);
      more := Activates(c, run, trying, t, g2);
      g' := Activated(g2);
    } else {
      more := Then(c, run, stored, t, g2, Stored, LookAgain, g2, Idle);
      g' := g2;
    }
  }
}
