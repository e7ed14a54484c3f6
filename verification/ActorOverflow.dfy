/** The limit of the activation protocol: its counter is stored modulo 2^64, so that many pending messages
    read as none. */
module ActorOverflow {
  import opened ActorInvariant
  import opened ActorProtocol
  import opened ActorSafety
  import opened Counting
  import Mailbox
  import opened Numbers
  import Runs

  function After(s: State, t: nat, g: Shared, l: Local): State
    requires t < |s.threads|
  {
    State(g, s.threads[t := l])
  }

  lemma OneMore(c: Config, run: seq<State>, t: nat, a: Action, s': State)
    requires IsRun(c, run) && StepOf(c, Runs.Last(run), t, a, s')
    ensures IsRun(c, run + [s'])
  {
    Runs.OneMore(Protocol(c), run, s');
  }

  // ---- thread 0 pushes a message, and thread 1 executes it ----

  function OneBox(claimed: seq<Message>, visible: set<nat>, popped: nat): seq<Mailbox.Box<Message>> {
    [Mailbox.Box(claimed, visible, popped)]
  }

  const Nothing: History := History(0, 0, [], 0, false, false)
  const Began: History := History(1, 0, [], 0, false, false)
  const Ran: History := History(1, 0, [Execution(1, 0, 0)], 0, false, false)

  /** The limit of an activation that reads a counter of one. */
  function LimitOf(c: Config): nat {
    Min(c.maxPerActivation, 1)
  }

  function OpeningState(c: Config, i: nat): State {
    var full, taken := OneBox([0], {0}, 0), OneBox([0], {0}, 1);
    match i
    case 0 => State(Shared(0, false, false, true, OneBox([], {}, 0), 0, Nothing), [Idle, Idle])
    case 1 => State(Shared(0, false, false, true, OneBox([0], {}, 0), 0, Nothing), [Claimed(0, 0), Idle])
    case 2 => State(Shared(0, false, false, true, full, 0, Nothing), [Visible, Idle])
    case 3 => State(Shared(1, false, false, true, full, 0, Nothing), [Trying, Idle])
    case 4 => State(Shared(1, true, false, true, full, 0, Nothing), [Won, Idle])
    case 5 => State(Shared(1, true, false, true, full, 1, Nothing), [Idle, Idle])
    case 6 => State(Shared(1, true, false, true, full, 0, Nothing), [Idle, Entered])
    case 7 => State(Shared(1, true, false, true, full, 0, Began), [Idle, FoundAlive(1)])
    case 8 => State(Shared(1, true, false, true, full, 0, Began), [Idle, Limiting(1)])
    case 9 => State(Shared(1, true, false, true, full, 0, Began), [Idle, Draining(1, 0, 0, LimitOf(c))])
    case 10 => State(Shared(1, true, false, true, taken, 0, Began), [Idle, Popped(1, 0, 0, LimitOf(c), 0)])
    case 11 => State(Shared(1, true, false, true, taken, 0, Ran), [Idle, Executing(1, 0, 0, LimitOf(c))])
    case _ => State(Shared(1, true, false, true, taken, 0, Ran), [Idle, Drained(1)])
  }

  function OpeningStep(i: nat): (nat, Action) {
    match i
    case 0 => (0, Claim(0, 0))
    case 1 => (0, Publish)
    case 2 => (0, Add)
    case 3 => (0, TryActivate)
    case 4 => (0, Schedule)
    case 5 => (1, Enter)
    case 6 => (1, CheckInstance)
    case 7 => (1, CheckDestroy)
    case 8 => (1, ReadLimit)
    case 9 => (1, TryPop)
    case 10 => (1, BeginExecute)
    case _ => (1, EndExecute)
  }

  lemma PushingStep(c: Config, i: nat)
    requires c.capacities == [0] && i < 6
    ensures StepOf(c, OpeningState(c, i), OpeningStep(i).0, OpeningStep(i).1, OpeningState(c, i + 1))
  {
    assert Mailbox.Claim(Mailbox.Box([], {}, 0), 0) == Mailbox.Box([0], {}, 0);
    assert Mailbox.Publish(Mailbox.Box([0], {}, 0), 0) == Mailbox.Box([0], {0}, 0);
    var boxes := OpeningState(c, i).shared.boxes;
    if i == 0 {
      assert boxes[0 := Mailbox.Claim(boxes[0], 0)] == OneBox([0], {}, 0);
    } else if i == 1 {
      assert boxes[0 := Mailbox.Publish(boxes[0], 0)] == OneBox([0], {0}, 0);
    }
  }

  lemma RunningStep(c: Config, i: nat)
    requires c.capacities == [0] && 6 <= i < 12
    ensures StepOf(c, OpeningState(c, i), OpeningStep(i).0, OpeningStep(i).1, OpeningState(c, i + 1))
  {
  }

  lemma {:induction false} Opening(c: Config, n: nat) returns (run: seq<State>)
    requires c.capacities == [0] && n <= 12
    ensures IsRun(c, run) && Runs.Last(run) == OpeningState(c, n)
  {
    if n == 0 {
      run := [OpeningState(c, 0)];
    } else {
      run := Opening(c, n - 1);
      if n <= 6 {
        PushingStep(c, n - 1);
      } else {
        RunningStep(c, n - 1);
      }
      OneMore(c, run, OpeningStep(n - 1).0, OpeningStep(n - 1).1, OpeningState(c, n));
      run := run + [OpeningState(c, n)];
    }
  }

  // ---- before thread 1 subtracts, thread 0 pushes n more ----

  ghost predicate Busy(s: State, n: nat) {
    var g := s.shared;
    && |g.boxes| == 1 && UnpoppedOf(g.boxes[0]) == n && g.count == n + 1
    && g.activated && g.alive && !g.destroyRequested && g.scheduled == 0
    && s.threads == [Idle, Drained(1)]
  }

  lemma PushOne(c: Config, run: seq<State>, n: nat) returns (more: seq<State>)
    requires c.capacities == [0] && IsRun(c, run) && Busy(Runs.Last(run), n)
    ensures IsRun(c, more) && Busy(Runs.Last(more), n + 1)
  {
    var s := Runs.Last(run);
    var g, place := s.shared, |s.shared.boxes[0].claimed|;
    var g1 := g.(boxes := g.boxes[0 := Mailbox.Claim(g.boxes[0], 0)]);
    var s1 := After(s, 0, g1, Claimed(0, place));
    OneMore(c, run, 0, Claim(0, 0), s1);
    var g2 := g1.(boxes := g1.boxes[0 := Mailbox.Publish(g1.boxes[0], place)]);
    var s2 := After(s1, 0, g2, Visible);
    OneMore(c, run + [s1], 0, Publish, s2);
    var s3 := After(s2, 0, g2.(count := g2.count + 1), Trying);
    OneMore(c, run + [s1] + [s2], 0, Add, s3);
    var s4 := After(s3, 0, s3.shared, Idle);
    OneMore(c, run + [s1] + [s2] + [s3], 0, TryActivate, s4);
    more := run + [s1] + [s2] + [s3] + [s4];
  }

  lemma {:induction false} PushMany(c: Config, n: nat) returns (run: seq<State>)
    requires c.capacities == [0]
    ensures IsRun(c, run) && Busy(Runs.Last(run), n)
  {
    if n == 0 {
      run := Opening(c, 12);
    } else {
      var before := PushMany(c, n - 1);
      run := PushOne(c, before, n - 1);
    }
  }

  /** The activation ends: it subtracts what it executed, lowers the flag and looks again. */
  lemma Finish(c: Config, run: seq<State>, n: nat) returns (more: seq<State>)
    requires c.capacities == [0] && IsRun(c, run) && Busy(Runs.Last(run), n)
    ensures IsRun(c, more) && Pending(Runs.Last(more)) == n
    ensures Runs.Last(more).shared.alive && !Runs.Last(more).shared.activated && Runs.Last(more).shared.scheduled == 0
    ensures Runs.Last(more).threads == [Idle, if AsSizeT(n) != 0 then Trying else Idle]
  {
    var s := Runs.Last(run);
    var s1 := After(s, 1, s.shared.(count := n), Settled);
    OneMore(c, run, 1, Subtract, s1);
    var s2 := After(s1, 1, s1.shared.(activated := false), Stored);
    OneMore(c, run + [s1], 1, Lower, s2);
    var s3 := After(s2, 1, s2.shared, if AsSizeT(n) != 0 then Trying else Idle);
    OneMore(c, run + [s1] + [s2], 1, LookAgain, s3);
    more := run + [s1] + [s2] + [s3];
    assert Sum(UnpoppedOf, s3.shared.boxes) == UnpoppedOf(s3.shared.boxes[0]) + Sum(UnpoppedOf, s3.shared.boxes[1..]);
  }

  /** For every number n of messages there is a run that leaves exactly them in the mailbox of a living
      actor, with the flag down and nothing scheduled; somebody is still going to activate it exactly if
      n is not a multiple of 2^64. */
  lemma LostExactlyIfWrapped(c: Config, n: nat) returns (run: seq<State>)
    requires c.capacities == [0]
    ensures IsRun(c, run) && Pending(Runs.Last(run)) == n
    ensures Runs.Last(run).shared.alive && !ActivationUnderWay(Runs.Last(run))
    ensures SomeoneWillLook(Runs.Last(run)) <==> n % SIZE_T_RANGE != 0
  {
    var busy := PushMany(c, n);
    run := Finish(c, busy, n);
    assert Runs.Last(run).threads[0] == Idle;
    if n % SIZE_T_RANGE != 0 {
      assert Waker(Runs.Last(run).threads[1]) == 1;
    }
  }

  /** The smallest loss: 2^64 messages wait, every thread is idle, and no activation will come. */
  lemma WrappedCountStrands(c: Config) returns (run: seq<State>)
    requires c.capacities == [0]
    ensures IsRun(c, run) && Pending(Runs.Last(run)) == SIZE_T_RANGE && Runs.Last(run).shared.alive
    ensures Runs.Last(run).shared.scheduled == 0 && !Runs.Last(run).shared.activated
    ensures Runs.Last(run).threads == [Idle, Idle]
  {
    var busy := PushMany(c, SIZE_T_RANGE);
    run := Finish(c, busy, SIZE_T_RANGE);
  }
}
