/** What a call of the node pool leads to if nobody disturbs it, whatever the other threads are in the
    middle of. */
module NodePoolCalls {
  import opened NodePoolInvariant
  import opened NodePoolProtocol
  import opened NodePoolSafety
  import opened Numbers
  import opened Options
  import Runs

  function After(s: State, t: nat, g: Shared, l: Local): State
    requires t < |s.threads|
  {
    State(g, s.threads[t := l])
  }

  ghost predicate GoesOn(c: nat, run: seq<State>, more: seq<State>, s: State) {
    run != [] && IsRun(c, run + more) && Runs.Last(run + more) == s
  }

  /** Some continuation, perhaps none, changes the shared state and thread t to these and leaves the other
      threads where they are. */
  ghost predicate Can(c: nat, run: seq<State>, t: nat, g: Shared, l: Local) {
    run != [] && t < |Runs.Last(run).threads| && exists more :: GoesOn(c, run, more, After(Runs.Last(run), t, g, l))
  }

  lemma Begin(c: nat, run: seq<State>, t: nat)
    requires IsRun(c, run) && t < |Runs.Last(run).threads|
    ensures Can(c, run, t, Runs.Last(run).shared, Runs.Last(run).threads[t])
  {
    var s := Runs.Last(run);
    assert run + [] == run && After(s, t, s.shared, s.threads[t]) == s;
    assert GoesOn(c, run, [], s);
  }

  lemma Then(c: nat, run: seq<State>, t: nat, g1: Shared, l1: Local, a: Action, g: Shared, l: Local)
    requires Can(c, run, t, g1, l1) && Move(c, g1, t, l1, a, g, l)
    ensures Can(c, run, t, g, l)
  {
    var s1, s2 := After(Runs.Last(run), t, g1, l1), After(Runs.Last(run), t, g, l);
    var more :| GoesOn(c, run, more, s1);
    assert s1.threads[t := l] == s2.threads;
    assert StepOf(c, s1, t, a, s2);
    Runs.OneMore(Protocol(c), run + more, s2);
    assert run + (more + [s2]) == run + more + [s2];
    assert GoesOn(c, run, more + [s2], s2);
  }

  /** What can be reached satisfies the invariant. */
  lemma Reached(c: nat, run: seq<State>, t: nat, g: Shared, l: Local)
    requires Can(c, run, t, g, l)
    ensures c > 0 && Sized(g) && ListsOk(g) && StackOk(c, g) && LocalOk(c, g, t, l)
  {
    var s := After(Runs.Last(run), t, g, l);
    var more :| GoesOn(c, run, more, s);
    EveryStateOk(c, run + more, |run + more| - 1);
    assert LocalOk(c, s.shared, t, s.threads[t]);
  }

  // ---- the stack of chunks ----

  /** The stack has moved, and the nodes and the mutex have not. */
  ghost predicate OnlyStack(g: Shared, g': Shared) {
    && g'.next == g.next && g'.owner == g.owner && g'.lists == g.lists
    && g'.chunks == g.chunks && g'.mutex == g.mutex
  }

  function Resumed(after: After): Pc {
    match after
    case ToIdle => Idle
    case ToReserve(left, made, want) => Reserving(left, made, want)
  }

  /** A thread in the middle of a push can finish it: the chunk in its hands is on top of the stack. */
  lemma PushEnds(c: nat, run: seq<State>, t: nat, g: Shared, l: Local) returns (g': Shared)
    requires Can(c, run, t, g, l) && Pushing(l.pc)
    ensures Can(c, run, t, g', l.(pc := Resumed(l.pc.after)))
    ensures OnlyStack(g, g') && g'.stack == g.stack + [l.pc.hand] && g'.top == HeadOf(g, l.pc.hand)
    ensures g'.top.Some?
    decreases if l.pc.PushCas? && l.pc.tag == g.tag then 0
              else if l.pc.PushWrite? && l.pc.tag == g.tag then 1
              else if l.pc.PushWrite? then 3
              else 2
  {
    Reached(c, run, t, g, l);
    var hand, after := l.pc.hand, l.pc.after;
    assert ListAt(g, hand, c - 1);
    var retry := l.(pc := PushWrite(hand, after, g.top, g.tag));
    match l.pc
    case PushLoad(_, _) =>
      Then(c, run, t, g, l, LoadForPush, g, retry);
      g' := PushEnds(c, run, t, g, retry);
    case PushWrite(_, _, seen, tag) =>
      var g1 := g.(link := g.link[HeadOf(g, hand).value := seen]);
      var l1 := l.(pc := PushCas(hand, after, seen, tag));
      Then(c, run, t, g, l, WriteLink, g1, l1);
      g' := PushEnds(c, run, t, g1, l1);
    case PushCas(_, _, seen, tag) =>
      if g.tag == tag {
        g' := g.(top := HeadOf(g, hand), tag := g.tag + 1, stack := g.stack + [hand],
                 places := g.places[hand := Stacked(|g.stack|)]);
        Then(c, run, t, g, l, CasPush(false), g', l.(pc := Resumed(after)));
      } else {
        Then(c, run, t, g, l, CasPush(false), g, retry);
        g' := PushEnds(c, run, t, g, retry);
      }
  }

  predicate Popping(pc: Pc) {
    pc.TryPop? || pc.PopLoaded? || pc.PopRead?
  }

  /** The thread's list is the chunk that was on top of the stack. */
  ghost predicate Popped(c: nat, g: Shared, g': Shared, l': Local) {
    && |g.stack| > 0 && g'.stack == g.stack[..|g.stack| - 1]
    && l'.list == g.stack[|g.stack| - 1] && l'.head == g.top && l'.size == c
  }

  /** A thread in the middle of a pop can finish it: it gets the chunk on top if there is one, and goes to
      reserve more exactly if there is none. */
  lemma PopEnds(c: nat, run: seq<State>, t: nat, g: Shared, l: Local) returns (g': Shared, l': Local)
    requires Can(c, run, t, g, l) && Popping(l.pc)
    ensures Can(c, run, t, g', l') && OnlyStack(g, g')
    ensures g.top.Some? ==> l'.pc == Filled && Popped(c, g, g', l')
    ensures g.top.None? ==> g' == g && l' == l.(pc := Want(None))
    decreases if l.pc.PopRead? && l.pc.tag == g.tag then 0
              else if l.pc.PopLoaded? && l.pc.tag == g.tag then 1
              else if l.pc.PopLoaded? then 3
              else 2
  {
    Reached(c, run, t, g, l);
    var again := l.(pc := if g.top.Some? then PopLoaded(g.top.value, g.tag) else Want(None));
    g', l' := g, again;
    match l.pc
    case TryPop =>
      Then(c, run, t, g, l, Load, g, again);
      if g.top.Some? {
        g', l' := PopEnds(c, run, t, g, again);
      }
    case PopLoaded(node, tag) =>
      var read := l.(pc := PopRead(node, tag, g.link[node]));
      Then(c, run, t, g, l, ReadLink, g, read);
      g', l' := PopEnds(c, run, t, g, read);
    case PopRead(node, tag, link) =>
      if g.tag == tag {
        PopFindsNextChunk(c, g, l.pc);
        var k := g.stack[|g.stack| - 1];
        g' := g.(top := link, tag := g.tag + 1, stack := g.stack[..|g.stack| - 1],
                 places := g.places[l.list := Gone][k := LocalOf(t)]);
        l' := Local(k, Some(node), c, Filled);
        Then(c, run, t, g, l, CasPop(false), g', l');
      } else {
        Then(c, run, t, g, l, CasPop(false), g, again);
        if g.top.Some? {
          g', l' := PopEnds(c, run, t, g, again);
        }
      }
  }

  // ---- reservations ----

  /** k chunks of new nodes lie on top of the stack. */
  ghost predicate Reserved(c: nat, g: Shared, g': Shared, k: nat) {
    && |g'.next| == |g.next| + k * c && g.owner <= g'.owner && g.next <= g'.next
    && |g'.stack| == |g.stack| + k && g.stack <= g'.stack && g.lists <= g'.lists
    && (k > 0 ==> g'.top.Some?) && (k == 0 ==> g'.top == g.top)
  }

  lemma {:induction false} MakesAll(c: nat, run: seq<State>, t: nat, g: Shared, l: Local) returns (g': Shared)
    requires Can(c, run, t, g, l) && l.pc.Reserving?
    ensures Can(c, run, t, g', l.(pc := Reserving(0, l.pc.made + l.pc.left, l.pc.want)))
    ensures Reserved(c, g, g', l.pc.left) && g'.chunks == g.chunks && g'.mutex == g.mutex
    decreases l.pc.left
  {
    if l.pc.left == 0 {
      g' := g;
    } else {
      Reached(c, run, t, g, l);
      var g1, l1 := NextChunk(c, g, t, l);
      Then(c, run, t, g, l, MakeChunk, g1, l1);
      var g2 := PushEnds(c, run, t, g1, l1);
      var l2 := l1.(pc := Resumed(l1.pc.after));
      g' := MakesAll(c, run, t, g2, l2);
      assert l2.(pc := Reserving(0, l2.pc.made + l2.pc.left, l2.pc.want))
          == l.(pc := Reserving(0, l.pc.made + l.pc.left, l.pc.want));
      assert (1 + l2.pc.left) * c == c + l2.pc.left * c;
    }
  }

  /** A reservation can finish: what it still has to make is on the stack, all of it is counted, and the
      mutex is free. */
  lemma ReserveEnds(c: nat, run: seq<State>, t: nat, g: Shared, l: Local) returns (g': Shared)
    requires Can(c, run, t, g, l) && l.pc.Reserving?
    ensures Can(c, run, t, g', l.(pc := if l.pc.want.None? then TryPop else Idle))
    ensures Reserved(c, g, g', l.pc.left)
    ensures g'.chunks == g.chunks + l.pc.made + l.pc.left && !g'.mutex
  {
    var g1 := MakesAll(c, run, t, g, l);
    var l1 := l.(pc := Reserving(0, l.pc.made + l.pc.left, l.pc.want));
    g' := g1.(chunks := g1.chunks + l1.pc.made, mutex := false);
    Then(c, run, t, g1, l1, FinishReserve, g', l.(pc := if l.pc.want.None? then TryPop else Idle));
  }

  /** From every reachable state an idle thread can ask for n chunks by itself: if there are as many it
      returns after one look, without the mutex, and otherwise exactly the missing ones are made and stacked,
      if the mutex is free. */
  lemma ReserveAlone(c: nat, run: seq<State>, t: nat, n: nat) returns (g': Shared)
    requires IsRun(c, run) && t < |Runs.Last(run).threads| && Runs.Last(run).threads[t].pc == Idle
    requires Runs.Last(run).shared.chunks < n ==> !Runs.Last(run).shared.mutex
    ensures Can(c, run, t, g', Runs.Last(run).threads[t])
    ensures var g := Runs.Last(run).shared;
            if g.chunks >= n then g' == g && StepOf(c, Runs.Last(run), t, AskForChunks(n), Runs.Last(run))
            else Reserved(c, g, g', n - g.chunks) && g'.chunks == n && !g'.mutex
  {
    var g, l := Runs.Last(run).shared, Runs.Last(run).threads[t];
    Begin(c, run, t);
    var wants := l.(pc := Want(Some(n)));
    if g.chunks >= n {
      g' := g;
    } else {
      Then(c, run, t, g, l, AskForChunks(n), g, wants);
      g' := ReservesMissing(c, run, t, g, wants);
      assert wants.(pc := Idle) == l;
    }
  }

  lemma ReservesMissing(c: nat, run: seq<State>, t: nat, g: Shared, l: Local) returns (g': Shared)
    requires Can(c, run, t, g, l) && l.pc.Want? && l.pc.want.Some? && !g.mutex
    ensures Can(c, run, t, g', l.(pc := Idle))
    ensures var n := l.pc.want.value;
            if g.chunks >= n then g' == g
            else Reserved(c, g, g', n - g.chunks) && g'.chunks == n && !g'.mutex
  {
    var n, g1 := l.pc.want.value, g.(mutex := true);
    var locked := l.(pc := Locked(Some(n)));
    Then(c, run, t, g, l, Lock, g1, locked);
    if g.chunks >= n {
      g' := g;
      Then(c, run, t, g1, locked, Check, g, l.(pc := Idle));
    } else {
      var reserves := l.(pc := Reserving(n - g.chunks, 0, Some(n)));
      Then(c, run, t, g1, locked, Check, g1, reserves);
      g' := ReserveEnds(c, run, t, g1, reserves);
    }
  }

  // ---- allocations ----

  /** An allocation that holds the mutex looks again, and reserves as many chunks as there are, at least
      one, exactly if the stack is still empty. */
  lemma RefillEnds(c: nat, run: seq<State>, t: nat, g: Shared, l: Local) returns (g': Shared)
    requires Can(c, run, t, g, l) && l.pc == Locked(None)
    ensures Can(c, run, t, g', l.(pc := TryPop)) && !g'.mutex && g'.top.Some?
    ensures g.top.Some? ==> g' == g.(mutex := false)
    ensures g.top.None? ==> Reserved(c, g, g', Max(1, g.chunks)) && g'.chunks == g.chunks + Max(1, g.chunks)
  {
    if g.top.Some? {
      g' := g.(mutex := false);
      Then(c, run, t, g, l, Check, g', l.(pc := TryPop));
    } else {
      var reserves := l.(pc := Reserving(Max(1, g.chunks), 0, None));
      Then(c, run, t, g, l, Check, g, reserves);
      g' := ReserveEnds(c, run, t, g, reserves);
    }
  }

  /** The mutex is free, or the thread's own. */
  predicate MayLock(g: Shared, l: Local) {
    !g.mutex || HoldsMutex(l) == 1
  }

  /** An allocation without a node can get a chunk: the one on top of the stack, if there is one and no
      reservation under way, and else one of those it reserves. */
  lemma FillEnds(c: nat, run: seq<State>, t: nat, g: Shared, l: Local) returns (g': Shared, l': Local)
    requires Can(c, run, t, g, l) && Dry(l.pc) && (MayLock(g, l) || (Popping(l.pc) && g.top.Some?))
    ensures Can(c, run, t, g', l') && l'.pc == Filled && l'.size == c
    ensures Popping(l.pc) && g.top.Some? ==> OnlyStack(g, g') && Popped(c, g, g', l')
    ensures (l.pc.Want? || l.pc.Locked?) && g.top.Some? ==> Popped(c, g, g', l') && g'.chunks == g.chunks
    ensures (Popping(l.pc) || l.pc.Want? || l.pc.Locked?) && g.top.None? ==>
              && g'.chunks == g.chunks + Max(1, g.chunks) && |g'.stack| == |g.stack| + Max(1, g.chunks) - 1
              && |g'.next| == |g.next| + Max(1, g.chunks) * c && !g'.mutex
    ensures !(Popping(l.pc) && g.top.Some?) ==> !g'.mutex
    decreases if Popping(l.pc) && g.top.Some? then 0 else if l.pc.Locked? then 1 else if l.pc.Want? then 2
              else if Popping(l.pc) then 3 else if l.pc.Reserving? then 4 else 5
  {
    if Popping(l.pc) {
      g', l' := PopEnds(c, run, t, g, l);
      if g.top.None? {
        g', l' := FillEnds(c, run, t, g', l');
      }
    } else if Pushing(l.pc) {
      var g1 := PushEnds(c, run, t, g, l);
      g', l' := FillEnds(c, run, t, g1, l.(pc := Resumed(l.pc.after)));
    } else if l.pc.Reserving? {
      var g1 := ReserveEnds(c, run, t, g, l);
      g', l' := FillEnds(c, run, t, g1, l.(pc := TryPop));
    } else if l.pc.Want? {
      var g1, l1 := g.(mutex := true), l.(pc := Locked(None));
      Then(c, run, t, g, l, Lock, g1, l1);
      g', l' := FillEnds(c, run, t, g1, l1);
    } else {
      var g1 := RefillEnds(c, run, t, g, l);
      g', l' := FillEnds(c, run, t, g1, l.(pc := TryPop));
    }
  }

  /** The thread has taken the head of its list. */
  lemma TakeEnds(c: nat, run: seq<State>, t: nat, g: Shared, l: Local) returns (g': Shared, l': Local)
    requires Can(c, run, t, g, l) && (l.pc == Idle || l.pc == Filled) && l.size > 0
    ensures Can(c, run, t, g', l') && l'.pc == Idle && l'.size == l.size - 1 && l'.list == l.list
    ensures Handed(g, g', l.head)
    ensures g'.stack == g.stack && g'.chunks == g.chunks && g'.mutex == g.mutex && |g'.next| == |g.next|
  {
    Reached(c, run, t, g, l);
    assert ListAt(g, l.list, l.size - 1);
    g', l' := NextTake(c, g, t, l);
    Then(c, run, t, g, l, Take, g', l');
  }

  /** This node was free and is with a user now, and no other node has changed hands. */
  ghost predicate Handed(g: Shared, g': Shared, x: Option<nat>) {
    && x.Some? && x.value < |g.owner| && g.owner[x.value].In? && g'.owner == g.owner[x.value := InUse]
  }

  /** From every reachable state an idle thread can allocate by itself: the head of its list; if that is
      empty, the head of the chunk on top of the stack, whose rest becomes its list; if there is none and the
      mutex is free, a node of as many new chunks as there are, at least one. */
  lemma AllocateAlone(c: nat, run: seq<State>, t: nat) returns (g': Shared, l': Local)
    requires IsRun(c, run) && t < |Runs.Last(run).threads| && Runs.Last(run).threads[t].pc == Idle
    requires var g, l := Runs.Last(run).shared, Runs.Last(run).threads[t];
             l.size > 0 || g.top.Some? || !g.mutex
    ensures Can(c, run, t, g', l') && l'.pc == Idle
    ensures var g, l := Runs.Last(run).shared, Runs.Last(run).threads[t];
            if l.size > 0 then
              Handed(g, g', l.head) && l'.size == l.size - 1 && g'.stack == g.stack && g'.chunks == g.chunks
            else
              && l'.size == c - 1
              && if g.top.Some? then
                   && Handed(g, g', g.top) && g.stack != [] && g'.stack == g.stack[..|g.stack| - 1]
                   && g'.chunks == g.chunks
                 else
                   && g'.chunks == g.chunks + Max(1, g.chunks) && |g'.next| == |g.next| + Max(1, g.chunks) * c
                   && |g'.stack| == |g.stack| + Max(1, g.chunks) - 1 && !g'.mutex
  {
    var g, l := Runs.Last(run).shared, Runs.Last(run).threads[t];
    Begin(c, run, t);
    if l.size > 0 {
      g', l' := TakeEnds(c, run, t, g, l);
    } else {
      var l1 := l.(pc := TryPop);
      Then(c, run, t, g, l, Allocate, g, l1);
      var g2, l2 := FillEnds(c, run, t, g, l1);
      Reached(c, run, t, g2, l2);
      g', l' := TakeEnds(c, run, t, g2, l2);
    }
  }

  /** From every reachable state an idle thread can give back a node that is in use by itself: it heads the
      thread's list, which goes on top of the stack exactly if it is a full chunk then. */
  lemma DeallocateAlone(c: nat, run: seq<State>, t: nat, x: nat) returns (g': Shared, l': Local)
    requires IsRun(c, run) && t < |Runs.Last(run).threads| && Runs.Last(run).threads[t].pc == Idle
    requires x < |Runs.Last(run).shared.owner| && Runs.Last(run).shared.owner[x] == InUse
    ensures Can(c, run, t, g', l') && l'.pc == Idle
    ensures var g, l := Runs.Last(run).shared, Runs.Last(run).threads[t];
            && g'.owner == g.owner[x := In(l.list, l.size)]
            && |g'.next| == |g.next| && x < |g.next| && g'.next[x] == l.head
            && if l.size + 1 < c then
                 l'.head == Some(x) && l'.size == l.size + 1 && g'.stack == g.stack && g'.top == g.top
               else
                 l'.head == None && l'.size == 0 && g'.stack == g.stack + [l.list] && g'.top == Some(x)
  {
    var g, l := Runs.Last(run).shared, Runs.Last(run).threads[t];
    Begin(c, run, t);
    Reached(c, run, t, g, l);
    var g1, l1 := NextGive(c, g, t, l, x);
    Then(c, run, t, g, l, Deallocate(x), g1, l1);
    g', l' := g1, l1;
    if Pushing(l1.pc) {
      g' := PushEnds(c, run, t, g1, l1);
      l' := l1.(pc := Idle);
    }
  }

  /** From every reachable state a thread inside a call can end it by itself, unless another thread holds
      the mutex that it needs. */
  lemma CallEnds(c: nat, run: seq<State>, t: nat) returns (g': Shared, l': Local)
    requires IsRun(c, run) && t < |Runs.Last(run).threads|
    requires MayLock(Runs.Last(run).shared, Runs.Last(run).threads[t])
    ensures Can(c, run, t, g', l') && l'.pc == Idle
  {
    var g, l := Runs.Last(run).shared, Runs.Last(run).threads[t];
    Begin(c, run, t);
    Reached(c, run, t, g, l);
    if Dry(l.pc) {
      g', l' := FillEnds(c, run, t, g, l);
      Reached(c, run, t, g', l');
      g', l' := TakeEnds(c, run, t, g', l');
    } else if l.pc == Filled {
      g', l' := TakeEnds(c, run, t, g, l);
    } else if Pushing(l.pc) {
      g' := PushEnds(c, run, t, g, l);
      l' := l.(pc := Resumed(l.pc.after));
      if l'.pc.Reserving? {
        g' := ReserveEnds(c, run, t, g', l');
        l' := l'.(pc := Idle);
      }
    } else {
      g', l' := UnderMutexEnds(c, run, t, g, l);
    }
  }

  lemma UnderMutexEnds(c: nat, run: seq<State>, t: nat, g: Shared, l: Local) returns (g': Shared, l': Local)
    requires Can(c, run, t, g, l) && MayLock(g, l) && (l.pc == Idle || HasTarget(l.pc))
    ensures Can(c, run, t, g', l') && l'.pc == Idle
  {
    g', l' := g, l.(pc := Idle);
    match l.pc
    case Idle =>
    case Want(_) => g' := ReservesMissing(c, run, t, g, l);
    case Locked(want) =>
      if g.chunks >= want.value {
        g' := g.(mutex := false);
        Then(c, run, t, g, l, Check, g', l');
      } else {
        var reserves := l.(pc := Reserving(want.value - g.chunks, 0, want));
        Then(c, run, t, g, l, Check, g, reserves);
        g' := ReserveEnds(c, run, t, g, reserves);
      }
    case Reserving(_, _, _) => g' := ReserveEnds(c, run, t, g, l);
  }

  predicate HasTarget(pc: Pc) {
    (pc.Want? || pc.Locked? || pc.Reserving?) && pc.want.Some?
  }
}
