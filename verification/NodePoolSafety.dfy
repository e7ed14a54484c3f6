/** What every run of the node pool guarantees. */
module NodePoolSafety {
  import opened Counting
  import Division
  import opened NodePoolInvariant
  import opened NodePoolProtocol
  import opened Numbers
  import opened Options
  import Runs

  // ---- steps that only move a thread ----

  /** Nothing of the pool changes but the mutex and the count of chunks. */
  ghost predicate SamePool(g: Shared, g': Shared) {
    g' == g.(mutex := g'.mutex, chunks := g'.chunks)
  }

  lemma SamePoolKeeps(c: nat, g: Shared, g': Shared)
    requires Sized(g) && ListsOk(g) && StackOk(c, g) && SamePool(g, g')
    ensures Sized(g') && ListsOk(g') && StackOk(c, g')
  {
    forall m, j ensures ListAt(g', m, j) {
      assert ListAt(g, m, j);
    }
    forall y ensures OwnerAt(g', y) {
      assert OwnerAt(g, y);
    }
    forall h ensures StackedAt(c, g', h) {
      assert StackedAt(c, g, h);
    }
  }

  /** The step does not take, give, pop, push, write a link or make a chunk. */
  ghost predicate Quiet(g: Shared, l: Local, a: Action, g': Shared) {
    || a.Allocate? || a.Load? || a.ReadLink? || a.LoadForPush? || a.AskForChunks? || a.Lock? || a.Check?
    || a.FinishReserve? || ((a.CasPop? || a.CasPush?) && g' == g)
  }

  lemma QuietStaysPut(c: nat, g: Shared, t: nat, l: Local, a: Action, g': Shared, l': Local)
    requires Move(c, g, t, l, a, g', l') && Quiet(g, l, a, g') && Sized(g)
    ensures SamePool(g, g') && l'.list == l.list && l'.head == l.head && l'.size == l.size
    ensures (Pushing(l'.pc) <==> Pushing(l.pc)) && (Pushing(l.pc) ==> l'.pc.hand == l.pc.hand)
    ensures (l'.pc == Filled <==> l.pc == Filled) && (Dry(l'.pc) ==> Dry(l.pc) || l.size == 0)
  {
  }

  lemma QuietKeepsTag(c: nat, g: Shared, t: nat, l: Local, a: Action, g': Shared, l': Local)
    requires Move(c, g, t, l, a, g', l') && Quiet(g, l, a, g')
    requires Sized(g) && StackOk(c, g) && TagOk(g, l.pc) && SamePool(g, g')
    ensures TagOk(g', l'.pc)
  {
    assert StackedAt(c, g, |g.stack| - 1);
  }

  lemma QuietMove(c: nat, g: Shared, t: nat, l: Local, a: Action, g': Shared, l': Local)
    requires Move(c, g, t, l, a, g', l') && Quiet(g, l, a, g')
    requires Sized(g) && StackOk(c, g) && LocalOk(c, g, t, l)
    ensures SamePool(g, g') && LocalOk(c, g', t, l')
    ensures l'.list == l.list && (Pushing(l'.pc) <==> Pushing(l.pc)) && (Pushing(l.pc) ==> l'.pc.hand == l.pc.hand)
  {
    QuietStaysPut(c, g, t, l, a, g', l');
    QuietKeepsTag(c, g, t, l, a, g', l');
  }

  // ---- the pool's shape is kept ----

  lemma ShapesKept(c: nat, s: State, t: nat, a: Action, s': State)
    requires Inv(c, s) && StepOf(c, s, t, a, s')
    ensures Sized(s'.shared) && ListsOk(s'.shared) && StackOk(c, s'.shared)
  {
    var g, l, g', l' := s.shared, s.threads[t], s'.shared, s'.threads[t];
    if Quiet(g, l, a, g') {
      QuietMove(c, g, t, l, a, g', l');
      SamePoolKeeps(c, g, g');
    } else {
      match a
      case Take =>
        TakeKeepsLists(g, l, g', l');
        TakeKeepsStack(c, g, l, g', l');
      case Deallocate(x) => GiveKeepsShapes(c, g, t, l, x, g', l');
      case CasPop(_) =>
        PopKeepsLists(c, g, t, l, g', l');
        PopKeepsStack(c, g, t, l, g', l');
      case CasPush(_) =>
        PushKeepsLists(g, l, g', l');
        PushKeepsStack(c, g, t, l, g', l');
      case WriteLink => WriteLinkKeepsShapes(c, g, t, l.pc.hand, l.pc.seen, g');
      case MakeChunk =>
        MakeKeepsLists(c, g, t, l, g', l');
        MakeKeepsStack(c, g, t, l, g', l');
    }
  }

  lemma GiveKeepsShapes(c: nat, g: Shared, t: nat, l: Local, x: nat, g': Shared, l': Local)
    requires Sized(g) && ListsOk(g) && StackOk(c, g) && FreeListOk(c, g, t, l) && Gives(c, g, t, l, x, g', l')
    ensures Sized(g') && ListsOk(g') && StackOk(c, g')
  {
    GiveKeepsLists(g, l, x);
    GiveKeepsStack(c, g, l, x);
    DetachKeepsShapes(c, Given(g, l, x), t, l.list);
  }

  // ---- the threads' facts are kept ----

  lemma SelfKept(c: nat, s: State, t: nat, a: Action, s': State)
    requires Inv(c, s) && StepOf(c, s, t, a, s')
    ensures Sized(s'.shared) && LocalOk(c, s'.shared, t, s'.threads[t])
  {
    var g, l, g', l' := s.shared, s.threads[t], s'.shared, s'.threads[t];
    assert LocalOk(c, g, t, l);
    if Quiet(g, l, a, g') {
      QuietMove(c, g, t, l, a, g', l');
    } else {
      match a
      case Take => TakeKeepsSelf(c, g, t, l, g', l');
      case Deallocate(x) => GivesKeepsSelf(c, g, t, l, x, g', l');
      case CasPop(_) => PopKeepsSelf(c, g, t, l, g', l');
      case CasPush(_) => PushKeepsSelf(c, g, t, l, g', l');
      case WriteLink =>
      case MakeChunk => MakeKeepsLocal(c, g, t, l, g', l', t, l);
    }
  }

  lemma GivesKeepsOther(c: nat, g: Shared, t: nat, l: Local, x: nat, g': Shared, l': Local, u: nat, m: Local)
    requires Sized(g) && FreeListOk(c, g, t, l) && Gives(c, g, t, l, x, g', l') && LocalOk(c, g, u, m) && u != t
    ensures Sized(g') && LocalOk(c, g', u, m)
  {
    GiveKeepsOther(c, g, l, x, u, m);
    DetachKeepsOther(c, Given(g, l, x), t, l.list, u, m);
  }

  lemma OtherKept(c: nat, s: State, t: nat, a: Action, s': State, u: nat)
    requires Inv(c, s) && StepOf(c, s, t, a, s') && u < |s.threads| && u != t
    ensures Sized(s'.shared) && LocalOk(c, s'.shared, u, s'.threads[u])
  {
    var g, l, g', l', m := s.shared, s.threads[t], s'.shared, s'.threads[t], s.threads[u];
    assert LocalOk(c, g, t, l) && LocalOk(c, g, u, m);
    if Quiet(g, l, a, g') {
      QuietMove(c, g, t, l, a, g', l');
    } else {
      match a
      case Take => TakeKeepsOther(c, g, t, l, g', l', u, m);
      case Deallocate(x) => GivesKeepsOther(c, g, t, l, x, g', l', u, m);
      case CasPop(_) => PopKeepsOther(c, g, t, l, g', l', u, m);
      case CasPush(_) => PushKeepsOther(c, g, t, l, g', l', u, m);
      case WriteLink => WriteLinkKeepsOther(c, g, t, l.pc.hand, l.pc.seen, g', u, m);
      case MakeChunk => MakeKeepsLocal(c, g, t, l, g', l', u, m);
    }
  }

  // ---- lists stay where they say they are ----

  lemma HomeKept(c: nat, s: State, t: nat, a: Action, s': State, k: int)
    requires Inv(c, s) && StepOf(c, s, t, a, s') && Sized(s'.shared)
    ensures HomeAt(s', k)
  {
    var g, l, g', l' := s.shared, s.threads[t], s'.shared, s'.threads[t];
    assert HomeAt(s, k) && LocalOk(c, g, t, l);
    if Quiet(g, l, a, g') {
      QuietMove(c, g, t, l, a, g', l');
    } else {
      match a
      case Take => assert HomeAt(s, l.list);
      case Deallocate(x) => GiveKeepsHome(c, s, t, x, s', k);
      case CasPop(_) => PopKeepsHome(c, s, t, s', k);
      case CasPush(_) => assert HomeAt(s, l.pc.hand);
      case WriteLink =>
      case MakeChunk =>
    }
  }

  lemma GiveKeepsHome(c: nat, s: State, t: nat, x: nat, s': State, k: int)
    requires Inv(c, s) && t < |s.threads| == |s'.threads| && s'.threads == s.threads[t := s'.threads[t]]
    requires Gives(c, s.shared, t, s.threads[t], x, s'.shared, s'.threads[t]) && Sized(s'.shared)
    ensures HomeAt(s', k)
  {
    assert HomeAt(s, k) && LocalOk(c, s.shared, t, s.threads[t]) && HomeAt(s, s.threads[t].list);
  }

  lemma PopKeepsHome(c: nat, s: State, t: nat, s': State, k: int)
    requires Inv(c, s) && t < |s.threads| == |s'.threads| && s'.threads == s.threads[t := s'.threads[t]]
    requires PopsChunk(c, s.shared, t, s.threads[t], s'.shared, s'.threads[t]) && Sized(s'.shared)
    ensures HomeAt(s', k)
  {
    var g, l := s.shared, s.threads[t];
    assert HomeAt(s, k) && LocalOk(c, g, t, l) && StackedAt(c, g, |g.stack| - 1);
  }

  // ---- nodes are reserved in whole chunks ----

  lemma ReservedKept(c: nat, s: State, t: nat, a: Action, s': State)
    requires Inv(c, s) && StepOf(c, s, t, a, s')
    ensures ReservedOk(c, s')
  {
    var g, l, g', l' := s.shared, s.threads[t], s'.shared, s'.threads[t];
    SumUpdate(Made, s.threads, t, l');
    SumUpdate(HoldsMutex, s.threads, t, l');
    assert LocalOk(c, g, t, l);
    ReservedMove(c, g, t, l, a, g', l');
    OneMoreChunk(c, g.chunks + Sum(Made, s.threads));
    assert Positive(HoldsMutex, s.threads);
    SumAtLeast(HoldsMutex, s.threads, t);
  }

  lemma OneMoreChunk(c: nat, k: int)
    ensures c * (k + 1) == c * k + c
  {
  }

  lemma ReservedMove(c: nat, g: Shared, t: nat, l: Local, a: Action, g': Shared, l': Local)
    requires Move(c, g, t, l, a, g', l') && Sized(g)
    ensures g'.chunks + Made(l') - g.chunks - Made(l) == Bit(a.MakeChunk?)
    ensures |g'.next| == |g.next| + (if a.MakeChunk? then c else 0)
    ensures (HoldsMutex(l) == 1 ==> g.mutex) ==>
              Bit(g'.mutex) - HoldsMutex(l') == Bit(g.mutex) - HoldsMutex(l)
  {
  }

  // ---- every step and every run ----

  lemma StepKeeps(c: nat, s: State, t: nat, a: Action, s': State)
    requires Inv(c, s) && StepOf(c, s, t, a, s')
    ensures Inv(c, s')
  {
    ShapesKept(c, s, t, a, s');
    SelfKept(c, s, t, a, s');
    forall u | 0 <= u < |s'.threads| ensures LocalOk(c, s'.shared, u, s'.threads[u]) {
      if u != t {
        OtherKept(c, s, t, a, s', u);
      }
    }
    forall k ensures HomeAt(s', k) {
      HomeKept(c, s, t, a, s', k);
    }
    ReservedKept(c, s, t, a, s');
  }

  lemma UserKeeps(c: nat, s: State, x: nat, next: Option<nat>, link: Option<nat>, s': State)
    requires Inv(c, s) && UserWrites(s, x, next, link, s')
    ensures Inv(c, s')
  {
    UserKeepsShapes(c, s.shared, x, next, link, s'.shared);
    forall u | 0 <= u < |s'.threads| ensures LocalOk(c, s'.shared, u, s'.threads[u]) {
      UserKeepsLocal(c, s.shared, x, next, link, s'.shared, u, s.threads[u]);
    }
    forall k ensures HomeAt(s', k) {
      assert HomeAt(s, k);
    }
  }

  lemma InitHolds(c: nat, s: State)
    requires Init(c, s)
    ensures Inv(c, s)
  {
    var g := s.shared;
    SumZero(Made, s.threads);
    SumZero(HoldsMutex, s.threads);
    forall l, j ensures ListAt(g, l, j) {
    }
    forall x ensures OwnerAt(g, x) {
    }
    forall h ensures StackedAt(c, g, h) {
    }
    forall l ensures HomeAt(s, l) {
    }
  }

  lemma EveryStateOk(c: nat, run: seq<State>, i: nat)
    requires IsRun(c, run) && i < |run|
    ensures Inv(c, run[i])
  {
    forall s | Init(c, s) ensures Inv(c, s) {
      InitHolds(c, s);
    }
    forall s, s' | Inv(c, s) && Step(c, s, s') ensures Inv(c, s') {
      if t: nat, a :| StepOf(c, s, t, a, s') {
        StepKeeps(c, s, t, a, s');
      } else {
        var x: nat, next, link :| UserWrites(s, x, next, link, s');
        UserKeeps(c, s, x, next, link, s');
      }
    }
    Runs.Invariant(Protocol(c), s => Inv(c, s), run, i);
  }

  // ---- node ownership ----

  /** Position j of list l holds node x. */
  ghost predicate Holds(g: Shared, l: int, j: int, x: nat) {
    0 <= l < |g.lists| && 0 <= j < |g.lists[l]| && g.lists[l][j] == x
  }

  /** List l is the chunk at some height of the stack, some thread's free list, or the chunk in some
      thread's hands. */
  ghost predicate HasHome(s: State, l: nat) {
    || (exists h :: 0 <= h < |s.shared.stack| && s.shared.stack[h] == l)
    || (exists t :: 0 <= t < |s.threads| && s.threads[t].list == l)
    || (exists t :: 0 <= t < |s.threads| && Pushing(s.threads[t].pc) && s.threads[t].pc.hand == l)
  }

  /** Every node ever reserved is in exactly one place: with a user, or at exactly one position of
      exactly one list, which is on the stack, in one thread's free list or in one thread's hands. */
  lemma EveryNodeIsInOnePlace(c: nat, run: seq<State>, i: nat, x: nat)
    requires IsRun(c, run) && i < |run| && x < |run[i].shared.next|
    ensures x < |run[i].shared.owner|
    ensures run[i].shared.owner[x] == InUse ==> forall l, j :: !Holds(run[i].shared, l, j, x)
    ensures run[i].shared.owner[x] != InUse ==>
              var at := run[i].shared.owner[x];
              && Holds(run[i].shared, at.list, at.pos, x) && HasHome(run[i], at.list)
              && forall l, j :: Holds(run[i].shared, l, j, x) ==> l == at.list && j == at.pos
  {
    var s := run[i];
    EveryStateOk(c, run, i);
    forall l, j | Holds(s.shared, l, j, x) ensures s.shared.owner[x] == In(l, j) {
      assert ListAt(s.shared, l, j);
    }
    assert OwnerAt(s.shared, x);
    if s.shared.owner[x].In? {
      var l := s.shared.owner[x].list;
      assert HomeAt(s, l);
    }
  }

  /** A list has one home only: chunks at different heights, free lists and chunks in hand of
      different threads are all different lists. */
  lemma HomesAreDistinct(c: nat, run: seq<State>, i: nat, t: nat, u: nat, h: nat, k: nat)
    requires IsRun(c, run) && i < |run| && t < |run[i].threads| && u < |run[i].threads|
    requires h < |run[i].shared.stack| && k < |run[i].shared.stack|
    ensures run[i].shared.stack[h] == run[i].shared.stack[k] <==> h == k
    ensures run[i].threads[t].list == run[i].threads[u].list <==> t == u
    ensures run[i].shared.stack[h] != run[i].threads[t].list
    ensures Pushing(run[i].threads[t].pc) ==>
              && run[i].threads[t].pc.hand != run[i].threads[u].list
              && run[i].threads[t].pc.hand != run[i].shared.stack[h]
              && (Pushing(run[i].threads[u].pc) && u != t ==> run[i].threads[u].pc.hand != run[i].threads[t].pc.hand)
  {
    var s := run[i];
    EveryStateOk(c, run, i);
    assert StackedAt(c, s.shared, h) && StackedAt(c, s.shared, k);
    assert LocalOk(c, s.shared, t, s.threads[t]) && LocalOk(c, s.shared, u, s.threads[u]);
  }

  lemma UserNodeUntouched(c: nat, g: Shared, t: nat, l: Local, a: Action, g': Shared, l': Local, x: nat)
    requires Move(c, g, t, l, a, g', l') && Sized(g) && ListsOk(g) && LocalOk(c, g, t, l)
    requires a != Deallocate(x) && x < |g.owner| && g.owner[x] == InUse
    ensures Sized(g') && x < |g'.owner| && g'.owner[x] == InUse
    ensures g'.next[x] == g.next[x] && g'.link[x] == g.link[x]
  {
    match a
    case Take => assert ListAt(g, l.list, l.size - 1);
    case WriteLink => assert ListAt(g, l.pc.hand, c - 1);
    case MakeChunk =>
      assert g'.next[..|g.next|][x] == g'.next[x] && g'.link[..|g.next|][x] == g'.link[x];
      assert g'.owner[..|g.next|][x] == g'.owner[x];
    case _ =>
  }

  /** The pool never writes a node that a user has, unless that user gives it back: this is what the
      linked queue relies on. */
  lemma PoolLeavesUsersAlone(c: nat, run: seq<State>, i: nat, t: nat, a: Action, s': State, x: nat)
    requires IsRun(c, run) && i < |run| && StepOf(c, run[i], t, a, s') && a != Deallocate(x)
    requires x < |run[i].shared.owner| && run[i].shared.owner[x] == InUse
    ensures x < |run[i].shared.next| && x < |run[i].shared.link|
    ensures x < |s'.shared.next| && x < |s'.shared.link| && x < |s'.shared.owner|
    ensures s'.shared.owner[x] == InUse
    ensures s'.shared.next[x] == run[i].shared.next[x] && s'.shared.link[x] == run[i].shared.link[x]
  {
    var s := run[i];
    EveryStateOk(c, run, i);
    assert LocalOk(c, s.shared, t, s.threads[t]);
    UserNodeUntouched(c, s.shared, t, s.threads[t], a, s'.shared, s'.threads[t], x);
  }

  /** An allocation hands out a node that no user had, with a null link. */
  lemma AllocatedNodeIsFresh(c: nat, run: seq<State>, i: nat, t: nat, s': State)
    requires IsRun(c, run) && i < |run| && StepOf(c, run[i], t, Take, s')
    ensures run[i].threads[t].head.Some?
    ensures var x := run[i].threads[t].head.value;
            && x < |run[i].shared.owner| == |s'.shared.owner| == |s'.shared.next|
            && run[i].shared.owner[x] != InUse && s'.shared.owner[x] == InUse && s'.shared.next[x] == None
  {
    var s := run[i];
    EveryStateOk(c, run, i);
    assert LocalOk(c, s.shared, t, s.threads[t]);
    assert ListAt(s.shared, s.threads[t].list, s.threads[t].size - 1);
  }

  // ---- chunks are chains ----

  /** The node reached after n links; None once the chain has ended. */
  function Walk(next: seq<Option<nat>>, p: Option<nat>, n: nat): Option<nat>
    decreases n
  {
    if n == 0 then p
    else match p
      case None => None
      case Some(x) => if x < |next| then Walk(next, next[x], n - 1) else None
  }

  /** From position j of a list, n links lead n positions down, and off the end to null. */
  lemma {:induction false} ListIsAChain(g: Shared, l: nat, j: nat, n: nat)
    requires Sized(g) && ListsOk(g) && l < |g.lists| && j < |g.lists[l]| && n <= j + 1
    ensures Walk(g.next, Some(g.lists[l][j]), n) == if n <= j then Some(g.lists[l][j - n]) else None
    decreases n
  {
    assert ListAt(g, l, j);
    if n > 0 && j > 0 {
      ListIsAChain(g, l, j - 1, n - 1);
    }
  }

  /** Every chunk on the stack is a null-terminated chain of exactly c nodes. */
  lemma ChunksAreFullChains(c: nat, run: seq<State>, i: nat, h: nat, n: nat)
    requires IsRun(c, run) && i < |run| && h < |run[i].shared.stack| && n <= c
    ensures var g := run[i].shared; Walk(g.next, HeadOf(g, g.stack[h]), n).Some? <==> n < c
  {
    var g := run[i].shared;
    EveryStateOk(c, run, i);
    assert StackedAt(c, g, h);
    ListIsAChain(g, g.stack[h], c - 1, n);
  }

  /** A thread's free list is a null-terminated chain as long as its size says, and shorter than a
      chunk except right after a chunk was popped into it. */
  lemma FreeListsAreChains(c: nat, run: seq<State>, i: nat, t: nat, n: nat)
    requires IsRun(c, run) && i < |run| && t < |run[i].threads| && n <= run[i].threads[t].size
    ensures Walk(run[i].shared.next, run[i].threads[t].head, n).Some? <==> n < run[i].threads[t].size
    ensures run[i].threads[t].size <= c && (run[i].threads[t].size == c <==> run[i].threads[t].pc == Filled)
  {
    var s := run[i];
    EveryStateOk(c, run, i);
    assert LocalOk(c, s.shared, t, s.threads[t]);
    if s.threads[t].size > 0 {
      ListIsAChain(s.shared, s.threads[t].list, s.threads[t].size - 1, n);
    }
  }

  lemma {:induction false} LinksLeadDown(c: nat, g: Shared, h: nat, n: nat)
    requires Sized(g) && StackOk(c, g) && h < |g.stack| && n <= h + 1
    ensures Walk(g.link, HeadOf(g, g.stack[h]), n) == if n <= h then HeadOf(g, g.stack[h - n]) else None
    decreases n
  {
    assert StackedAt(c, g, h);
    if n > 0 && h > 0 {
      LinksLeadDown(c, g, h - 1, n - 1);
    }
  }

  /** From the top, the chunk links lead through every chunk of the stack and then to null. */
  lemma StackIsAChain(c: nat, run: seq<State>, i: nat, n: nat)
    requires IsRun(c, run) && i < |run| && n <= |run[i].shared.stack|
    ensures var g := run[i].shared;
            Walk(g.link, g.top, n) == if n < |g.stack| then HeadOf(g, g.stack[|g.stack| - 1 - n]) else None
  {
    var g := run[i].shared;
    EveryStateOk(c, run, i);
    if |g.stack| > 0 {
      LinksLeadDown(c, g, |g.stack| - 1, n);
    }
  }

  // ---- the tag ----

  /** A pop whose CAS succeeds read a link that is still current, so the new top is the chunk below
      the popped one, and the popping thread gets exactly the chunk that was on top. */
  lemma TagMakesPopSafe(c: nat, run: seq<State>, i: nat, t: nat, s': State)
    requires IsRun(c, run) && i < |run| && StepOf(c, run[i], t, CasPop(false), s') && s'.threads[t].pc == Filled
    ensures var g, l := run[i].shared, run[i].threads[t];
            && |g.stack| > 0 && l.pc.node < |g.link| && l.pc.link == g.link[l.pc.node]
            && s'.shared.stack == g.stack[..|g.stack| - 1] && s'.shared.top == TopList(s'.shared)
            && s'.threads[t].list == g.stack[|g.stack| - 1] && s'.shared.lists == g.lists
  {
    var s := run[i];
    EveryStateOk(c, run, i);
    assert LocalOk(c, s.shared, t, s.threads[t]);
    PopFindsNextChunk(c, s.shared, s.threads[t].pc);
    PopKeepsStack(c, s.shared, t, s.threads[t], s'.shared, s'.threads[t]);
  }

  // ---- reservation ----

  /** Nodes come in whole chunks: outside a reservation there are exactly as many nodes as counted. */
  lemma NodesComeInChunks(c: nat, run: seq<State>, i: nat)
    requires IsRun(c, run) && i < |run|
    ensures |run[i].shared.next| == c * (run[i].shared.chunks + Sum(Made, run[i].threads))
    ensures !run[i].shared.mutex ==> |run[i].shared.next| == c * run[i].shared.chunks
  {
    var s := run[i];
    EveryStateOk(c, run, i);
    if !s.shared.mutex {
      assert Positive(HoldsMutex, s.threads);
      forall t | 0 <= t < |s.threads| ensures Made(s.threads[t]) == 0 {
        SumAtLeast(HoldsMutex, s.threads, t);
      }
      SumZero(Made, s.threads);
    }
  }

  /** The counts that reserve is called with are whole chunks if the pool's count is, so no node of a
      page is left out of the chunks. */
  lemma ReserveCountsAreWholeChunks(c: nat, chunks: nat, wanted: nat)
    requires c > 0
    ensures Max(c, c * chunks) == c * Max(1, chunks)
    ensures wanted > chunks ==> (wanted - (c * chunks) / c) * c == c * (wanted - chunks)
  {
    Division.QuotientUnique(c * chunks, chunks, 0, c);
    if chunks > 1 {
      Division.Distribute(chunks, 1, c);
      assert (chunks - 1) * c >= 0;
    }
  }

  // ---- no access is blocked ----

  /** A chunk is carved from new memory. */
  lemma NextChunk(c: nat, g: Shared, t: nat, l: Local) returns (g': Shared, l': Local)
    requires Sized(g) && l.pc.Reserving? && l.pc.left > 0
    ensures MakesChunk(c, g, t, l, g', l')
  {
    var n := |g.next|;
    g' := g.(next := g.next + seq<Option<nat>>(c, (j: nat) => if j > 0 then Some(n + j - 1) else None),
             link := g.link + seq<Option<nat>>(c, j => None),
             owner := g.owner + seq<Owner>(c, (j: nat) => In(|g.lists|, j)),
             lists := g.lists + [Chunk(c, n)], places := g.places + [HandOf(t)]);
    l' := l.(pc := PushLoad(|g.lists|, ToReserve(l.pc.left - 1, l.pc.made + 1, l.pc.want)));
  }

  lemma NextPop(c: nat, g: Shared, t: nat, l: Local) returns (g': Shared, l': Local)
    requires Sized(g) && StackOk(c, g) && LocalOk(c, g, t, l) && l.pc.PopRead?
    ensures Move(c, g, t, l, CasPop(false), g', l')
  {
    if g.top == Some(l.pc.node) && g.tag == l.pc.tag {
      PopFindsNextChunk(c, g, l.pc);
      var k := g.stack[|g.stack| - 1];
      assert StackedAt(c, g, |g.stack| - 1);
      g' := g.(top := l.pc.link, tag := g.tag + 1, stack := g.stack[..|g.stack| - 1],
               places := g.places[l.list := Gone][k := LocalOf(t)]);
      l' := Local(k, Some(l.pc.node), c, Filled);
    } else {
      g', l' := g, l.(pc := if g.top.Some? then PopLoaded(g.top.value, g.tag) else Want(None));
    }
  }

  lemma NextPush(c: nat, g: Shared, t: nat, l: Local) returns (a: Action, g': Shared, l': Local)
    requires Sized(g) && ListsOk(g) && LocalOk(c, g, t, l) && Pushing(l.pc) && c > 0
    ensures Move(c, g, t, l, a, g', l') && !a.Deallocate?
  {
    g' := g;
    match l.pc
    case PushLoad(hand, after) => a, l' := LoadForPush, l.(pc := PushWrite(hand, after, g.top, g.tag));
    case PushWrite(hand, after, seen, tag) =>
      assert ListAt(g, hand, c - 1);
      a, l' := WriteLink, l.(pc := PushCas(hand, after, seen, tag));
      g' := g.(link := g.link[HeadOf(g, hand).value := seen]);
    case PushCas(hand, after, seen, tag) =>
      a, l' := CasPush(false), l.(pc := PushWrite(hand, after, g.top, g.tag));
      if g.top == seen && g.tag == tag {
        g' := g.(top := HeadOf(g, hand), tag := g.tag + 1, stack := g.stack + [hand],
                 places := g.places[hand := Stacked(|g.stack|)]);
        l' := l.(pc := match after
                       case ToIdle => Idle
                       case ToReserve(left, made, want) => Reserving(left, made, want));
      }
  }

  lemma NextTake(c: nat, g: Shared, t: nat, l: Local) returns (g': Shared, l': Local)
    requires Sized(g) && ListsOk(g) && LocalOk(c, g, t, l) && (l.pc == Idle || l.pc == Filled) && l.size > 0
    ensures Move(c, g, t, l, Take, g', l')
  {
    assert ListAt(g, l.list, l.size - 1);
    var x := l.head.value;
    g' := g.(next := g.next[x := None], owner := g.owner[x := InUse],
             lists := g.lists[l.list := g.lists[l.list][..|g.lists[l.list]| - 1]]);
    l' := Local(l.list, g.next[x], l.size - 1, Idle);
  }

  lemma NextUnderMutex(c: nat, g: Shared, t: nat, l: Local) returns (a: Action, g': Shared, l': Local)
    requires Sized(g) && (l.pc.Locked? || l.pc.Reserving? || (l.pc.Want? && !g.mutex))
    ensures Move(c, g, t, l, a, g', l') && !a.Deallocate?
  {
    g' := g;
    match l.pc
    case Want(want) => a, g', l' := Lock, g.(mutex := true), l.(pc := Locked(want));
    case Locked(None) =>
      a := Check;
      if g.top.Some? {
        g', l' := g.(mutex := false), l.(pc := TryPop);
      } else {
        l' := l.(pc := Reserving(Max(1, g.chunks), 0, None));
      }
    case Locked(Some(n)) =>
      a := Check;
      if g.chunks >= n {
        g', l' := g.(mutex := false), l.(pc := Idle);
      } else {
        l' := l.(pc := Reserving(n - g.chunks, 0, Some(n)));
      }
    case Reserving(left, made, want) =>
      if left > 0 {
        a := MakeChunk;
        g', l' := NextChunk(c, g, t, l);
      } else {
        a, g' := FinishReserve, g.(chunks := g.chunks + made, mutex := false);
        l' := l.(pc := if want.None? then TryPop else Idle);
      }
  }

  lemma NextAccess(c: nat, g: Shared, t: nat, l: Local) returns (a: Action, g': Shared, l': Local)
    requires Sized(g) && ListsOk(g) && StackOk(c, g) && LocalOk(c, g, t, l) && c > 0
    requires !(l.pc.Want? && g.mutex)
    ensures Move(c, g, t, l, a, g', l') && !a.Deallocate?
  {
    a, g', l' := Load, g, l;
    match l.pc
    case Idle =>
      if l.size > 0 {
        a := Take;
        g', l' := NextTake(c, g, t, l);
      } else {
        a, l' := Allocate, l.(pc := TryPop);
      }
    case TryPop => l' := l.(pc := if g.top.Some? then PopLoaded(g.top.value, g.tag) else Want(None));
    case PopLoaded(node, tag) => a, l' := ReadLink, l.(pc := PopRead(node, tag, g.link[node]));
    case PopRead(node, tag, link) =>
      a := CasPop(false);
      g', l' := NextPop(c, g, t, l);
    case Filled =>
      a := Take;
      g', l' := NextTake(c, g, t, l);
    case _ =>
      if Pushing(l.pc) {
        a, g', l' := NextPush(c, g, t, l);
      } else {
        a, g', l' := NextUnderMutex(c, g, t, l);
      }
  }

  /** A thread that does not wait for the mutex is never blocked: an allocation goes on, the chunk it
      popped is there, and a node that a user has can be given back whenever its thread is idle. */
  lemma NeverStuck(c: nat, run: seq<State>, i: nat, t: nat)
    requires IsRun(c, run) && i < |run| && t < |run[i].threads|
    requires run[i].threads[t].pc.Want? ==> !run[i].shared.mutex
    ensures exists a, s' :: StepOf(c, run[i], t, a, s') && !a.Deallocate?
    ensures run[i].threads[t].pc == Idle ==>
              forall x: nat :: x < |run[i].shared.owner| && run[i].shared.owner[x] == InUse ==>
                exists s' :: StepOf(c, run[i], t, Deallocate(x), s')
  {
    var s := run[i];
    EveryStateOk(c, run, i);
    assert LocalOk(c, s.shared, t, s.threads[t]);
    var a, g', l' := NextAccess(c, s.shared, t, s.threads[t]);
    assert StepOf(c, s, t, a, State(g', s.threads[t := l']));
    if s.threads[t].pc == Idle {
      forall x: nat | x < |s.shared.owner| && s.shared.owner[x] == InUse
        ensures exists s' :: StepOf(c, s, t, Deallocate(x), s')
      {
        var given, m := NextGive(c, s.shared, t, s.threads[t], x);
        assert StepOf(c, s, t, Deallocate(x), State(given, s.threads[t := m]));
      }
    }
  }

  lemma NextGive(c: nat, g: Shared, t: nat, l: Local, x: nat) returns (g': Shared, l': Local)
    requires Sized(g) && LocalOk(c, g, t, l) && l.pc == Idle && x < |g.owner| && g.owner[x] == InUse
    ensures Gives(c, g, t, l, x, g', l')
  {
    if l.size + 1 >= c {
      g', l' := Detached(Given(g, l, x), t, l.list), Local(|g.lists|, None, 0, PushLoad(l.list, ToIdle));
    } else {
      g', l' := Given(g, l, x), Local(l.list, Some(x), l.size + 1, Idle);
    }
  }
}
