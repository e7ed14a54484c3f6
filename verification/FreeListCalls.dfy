/** What a call on the free list can do by itself, whatever the other threads are in the middle of. */
module FreeListCalls {
  import opened FreeList
  import opened Options
  import Runs

  function After(s: State, t: nat, g: Shared, l: Local): State
    requires t < |s.threads|
  {
    State(g, s.threads[t := l])
  }

  /** A continuation that changes the shared state and thread t to these. */
  ghost predicate Leads(run: seq<State>, more: seq<State>, t: nat, g: Shared, l: Local) {
    run != [] && t < |Runs.Last(run).threads| && Runs.Leads(Protocol(), run, more, After(Runs.Last(run), t, g, l))
  }

  lemma One(run: seq<State>, t: nat, a: Action, g: Shared, l: Local) returns (more: seq<State>)
    requires IsRun(run) && t < |Runs.Last(run).threads| && Sized(Runs.Last(run).shared)
    requires Move(Runs.Last(run).shared, Runs.Last(run).threads[t], a, g, l)
    ensures Leads(run, more, t, g, l)
  {
    var s' := After(Runs.Last(run), t, g, l);
    assert StepOf(Runs.Last(run), t, a, s');
    Runs.OneMore(Protocol(), run, s');
    more := [s'];
  }

  lemma Then(run: seq<State>, first: seq<State>, t: nat, g1: Shared, l1: Local, a: Action, g: Shared, l: Local)
    returns (more: seq<State>)
    requires Leads(run, first, t, g1, l1) && Sized(g1) && Move(g1, l1, a, g, l)
    ensures Leads(run, more, t, g, l)
  {
    var s1, s2 := After(Runs.Last(run), t, g1, l1), After(Runs.Last(run), t, g, l);
    assert s1.threads[t := l] == s2.threads;
    assert StepOf(s1, t, a, s2);
    more := Runs.GoOn(Protocol(), run, first, s1, s2);
  }

  lemma LastIsOk(run: seq<State>)
    requires IsRun(run)
    ensures FreeList.Inv(Runs.Last(run))
  {
    EveryStateOk(run, |run| - 1);
  }

  // ---- try_get ----

  /** The first listed block has the list's own reference. */
  lemma HeadIsReferenced(s: State)
    requires FreeList.Inv(s) && s.shared.list != []
    ensures s.shared.head == Some(s.shared.list[0]) && s.shared.list[0] < |s.shared.nodes|
    ensures s.shared.nodes[s.shared.list[0]].count > 0 && s.shared.phase[s.shared.list[0]] == Listed
    ensures s.shared.nodes[s.shared.list[0]].next == FreeList.First(s.shared.list[1..])
  {
    var g, x := s.shared, s.shared.list[0];
    assert LinkAt(g, 0) && MemberAt(g, x) && NodeOk(g, s.threads, x);
    WeightsPositive(s.threads, x);
    Counting.SumNonNegative(RefsTo(x), s.threads);
  }

  /** From every reachable state an idle thread can get the first listed block by itself, which is unlisted
      then with no reference of this thread's left; with an empty list it returns without. */
  lemma GetAlone(run: seq<State>, t: nat) returns (more: seq<State>, g': Shared)
    requires IsRun(run) && t < |Runs.Last(run).threads| && Runs.Last(run).threads[t] == Idle
    ensures Leads(run, more, t, g', Idle)
    ensures Runs.Last(run).shared.list == [] ==> g' == Runs.Last(run).shared
    ensures Runs.Last(run).shared.list != [] ==>
              var g := Runs.Last(run).shared;
              var x := g.list[0];
              && Sized(g) && Sized(g') && |g'.nodes| == |g.nodes| && x < |g.nodes|
              && g'.list == g.list[1..] && g'.head == g.nodes[x].next
              && g'.phase == g.phase[x := Owned] && g'.gets == g.gets[x := g.gets[x] + 1]
              && g.nodes[x].count > 0 && g'.nodes[x] == g.nodes[x].(count := g.nodes[x].count - 1)
              && forall y :: 0 <= y < |g.nodes| && y != x ==> g'.nodes[y] == g.nodes[y]
  {
    LastIsOk(run);
    var g := Runs.Last(run).shared;
    var first := One(run, t, Get, g, Starting);
    var second := Then(run, first, t, g, Starting, LoadTop, g, AtHead(g.head));
    if g.list == [] {
      more := Then(run, second, t, g, AtHead(None), LoadRefs, g, Idle);
      g' := g;
    } else {
      HeadIsReferenced(Runs.Last(run));
      more, g' := TakesHead(run, second, t, g);
    }
  }

  lemma TakesHead(run: seq<State>, first: seq<State>, t: nat, g: Shared) returns (more: seq<State>, g': Shared)
    requires Leads(run, first, t, g, AtHead(g.head)) && Sized(g) && g.list != [] && g.head == Some(g.list[0])
    requires g.list[0] < |g.nodes| && g.nodes[g.list[0]].count > 0
    ensures Leads(run, more, t, g', Idle) && Sized(g') && |g'.nodes| == |g.nodes|
    ensures var x := g.list[0];
            && g'.list == g.list[1..] && g'.head == g.nodes[x].next
            && g'.phase == g.phase[x := Owned] && g'.gets == g.gets[x := g.gets[x] + 1]
            && g'.nodes == g.nodes[x := g.nodes[x].(count := g.nodes[x].count - 1)]
  {
    var x := g.list[0];
    var n := g.nodes[x];
    var saw := Then(run, first, t, g, AtHead(Some(x)), LoadRefs, g, SawRefs(x, n.count, n.flag));
    var g1 := SetNode(g, x, n.(count := n.count + 1), g.phase[x]);
    var held := Then(run, saw, t, g, SawRefs(x, n.count, n.flag), CasRefs, g1, Holding(x));
    more, g' := TakesHeld(run, held, t, g1);
  }

  /** With its reference on the head, the thread takes it off and drops that reference and the list's. */
  lemma TakesHeld(run: seq<State>, held: seq<State>, t: nat, g: Shared) returns (more: seq<State>, g': Shared)
    requires Sized(g) && g.list != [] && g.head == Some(g.list[0])
    requires Leads(run, held, t, g, Holding(g.list[0])) && g.list[0] < |g.nodes| && g.nodes[g.list[0]].count > 1
    ensures Leads(run, more, t, g', Idle) && Sized(g') && |g'.nodes| == |g.nodes|
    ensures var x := g.list[0];
            && g'.list == g.list[1..] && g'.head == g.nodes[x].next
            && g'.phase == g.phase[x := Owned] && g'.gets == g.gets[x := g.gets[x] + 1]
            && g'.nodes == g.nodes[x := g.nodes[x].(count := g.nodes[x].count - 2)]
  {
    var x := g.list[0];
    var n := g.nodes[x];
    var read := Then(run, held, t, g, Holding(x), LoadNext, g, SawNext(x, n.next));
    var g1 := g.(head := n.next, list := g.list[1..], phase := g.phase[x := Removing]);
    var off := Then(run, read, t, g, SawNext(x, n.next), CasUnlist, g1, Unlisted(x));
    g' := SetNode(g1, x, n.(count := n.count - 2), Owned).(gets := g1.gets[x := g1.gets[x] + 1]);
    more := Then(run, off, t, g1, Unlisted(x), Finish, g', Idle);
  }

  // ---- add ----

  /** From every reachable state an idle thread can add a block of its own by itself: with no reference left
      the block becomes the head of the list, and otherwise it waits for the references to go. */
  lemma AddAlone(run: seq<State>, t: nat, x: nat) returns (more: seq<State>, g': Shared)
    requires IsRun(run) && t < |Runs.Last(run).threads| && Runs.Last(run).threads[t] == Idle
    requires Sized(Runs.Last(run).shared) && x < |Runs.Last(run).shared.nodes|
    requires Runs.Last(run).shared.phase[x] == Owned
    ensures Leads(run, more, t, g', Idle) && Sized(g')
    ensures var g := Runs.Last(run).shared;
            && g'.adds == g.adds[x := g.adds[x] + 1] && |g'.nodes| == |g.nodes|
            && (g.nodes[x].count == 0 ==>
                  g'.list == [x] + g.list && g'.head == Some(x) && g'.nodes[x] == Node(1, false, g.head))
            && (g.nodes[x].count > 0 ==>
                  g'.list == g.list && g'.phase[x] == Waiting && g'.nodes[x] == g.nodes[x].(flag := true))
            && forall y :: 0 <= y < |g.nodes| && y != x ==> g'.nodes[y] == g.nodes[y]
  {
    LastIsOk(run);
    var g := Runs.Last(run).shared;
    assert NodeOk(g, Runs.Last(run).threads, x);
    var n := g.nodes[x];
    var last := n.count == 0;
    var g1 := SetNode(g, x, n.(flag := true), if last then Early else Waiting).(adds := g.adds[x := g.adds[x] + 1]);
    if last {
      var first := One(run, t, Add(x), g1, LoadingHead(x, Return));
      more, g' := Lists(run, first, t, g1, x);
    } else {
      more := One(run, t, Add(x), g1, Idle);
      g' := g1;
    }
  }

  lemma Lists(run: seq<State>, first: seq<State>, t: nat, g: Shared, x: nat) returns (more: seq<State>, g': Shared)
    requires Leads(run, first, t, g, LoadingHead(x, Return)) && Sized(g) && x < |g.nodes|
    ensures Leads(run, more, t, g', Idle) && Sized(g')
    ensures g'.list == [x] + g.list && g'.head == Some(x) && g'.adds == g.adds
    ensures g'.nodes == g.nodes[x := Node(1, false, g.head)]
  {
    var loaded := Then(run, first, t, g, LoadingHead(x, Return), LoadHead, g, Linking(x, g.head, Return));
    var g1 := SetNode(g, x, g.nodes[x].(next := g.head), g.phase[x]);
    var linked := Then(run, loaded, t, g, Linking(x, g.head, Return), Link, g1, Counting(x, g.head, Return));
    var g2 := SetNode(g1, x, g1.nodes[x].(count := 1, flag := false), Late);
    var counted := Then(run, linked, t, g1, Counting(x, g.head, Return), SetCount, g2, Listing(x, g.head, Return));
    g' := g2.(head := Some(x), list := [x] + g2.list, phase := g2.phase[x := Listed]);
    more := Then(run, counted, t, g2, Listing(x, g.head, Return), CasList, g', Idle);
  }
}
