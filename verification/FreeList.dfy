/** The lock-free, reference-counted free list of blocks. */
module FreeList {
  import opened Counting
  import opened LinkedMemory
  import opened Numbers
  import opened Options
  import Runs

  /** freeListRefs is a count in the low bits and the should-be-on-freelist bit; next is freeListNext. */
  datatype Node = Node(count: nat, flag: bool, next: Option<nat>)

  /** Whose a block is. */
  datatype Phase =
    | Owned       // a user's: returned by try_get, or never added
    | Waiting     // added while others still held references: whoever drops the last one lists it
    | Early       // one thread is listing it and has not yet set its count to one
    | Late        // ... and has, so others may take references again
    | Listed
    | Removing    // taken off the list, the list's reference not yet dropped

  /** Where add_knowing_refcount_is_zero returns to: out of add, or into try_get's loop. */
  datatype Back = Return | Retry(head: Option<nat>)

  datatype Local =
    | Idle
    // add_knowing_refcount_is_zero
    | LoadingHead(x: nat, back: Back)
    | Linking(x: nat, head: Option<nat>, back: Back)
    | Counting(x: nat, head: Option<nat>, back: Back)
    | Listing(x: nat, head: Option<nat>, back: Back)
    | Failing(x: nat, head: Option<nat>, back: Back)
    // try_get
    | Starting
    | AtHead(head: Option<nat>)
    | SawRefs(x: nat, count: nat, flag: bool)
    | Holding(x: nat)
    | SawNext(x: nat, next: Option<nat>)
    | Unlisted(x: nat)
    | Dropping(x: nat, head: Option<nat>)

  datatype Shared = Shared(
    head: Option<nat>,
    nodes: seq<Node>,
    // history
    phase: seq<Phase>,
    list: seq<nat>,
    adds: seq<nat>,       // calls of add, per block
    gets: seq<nat>        // returns from try_get, per block
  )

  datatype State = State(shared: Shared, threads: seq<Local>)

  datatype Action =
    | Add(x: nat) | LoadHead | Link | SetCount | CasList | GiveUp
    | Get | LoadTop | LoadRefs | CasRefs | LoadNext | CasUnlist | Finish | Drop

  ghost predicate Init(s: State) {
    var g := s.shared;
    && g.head == None && g.list == []
    && |g.phase| == |g.adds| == |g.gets| == |g.nodes|
    && (forall x :: 0 <= x < |g.nodes| ==>
          g.nodes[x] == Node(0, false, None) && g.phase[x] == Owned && g.adds[x] == 0 && g.gets[x] == 0)
    && forall t :: 0 <= t < |s.threads| ==> s.threads[t] == Idle
  }

  function SetNode(g: Shared, x: nat, n: Node, p: Phase): Shared
    requires x < |g.nodes| == |g.phase|
  {
    g.(nodes := g.nodes[x := n], phase := g.phase[x := p])
  }

  function Resume(back: Back): Local {
    if back.Return? then Idle else AtHead(back.head)
  }

  predicate Known(g: Shared, x: Option<nat>) {
    x.Some? ==> x.value < |g.nodes|
  }

  ghost predicate Sized(g: Shared) {
    |g.phase| == |g.adds| == |g.gets| == |g.nodes|
  }

  ghost predicate Move(g: Shared, l: Local, a: Action, g': Shared, l': Local)
    requires Sized(g)
  {
    match a
    case Add(x) =>
      // the caller owns the block: a user adds only what try_get gave it or what it allocated
      && l.Idle? && x < |g.nodes| && g.phase[x] == Owned
      && var n := g.nodes[x];
         var last := n.count == 0 && !n.flag;
         && g' == SetNode(g, x, n.(flag := true), if last then Early else Waiting)
                  .(adds := g.adds[x := g.adds[x] + 1])
         && l' == if last then LoadingHead(x, Return) else Idle
    case LoadHead =>
      l.LoadingHead? && g' == g && l' == Linking(l.x, g.head, l.back)
    case Link =>
      && l.Linking? && l.x < |g.nodes|
      && g' == SetNode(g, l.x, g.nodes[l.x].(next := l.head), g.phase[l.x])
      && l' == Counting(l.x, l.head, l.back)
    case SetCount =>
      && l.Counting? && l.x < |g.nodes|
      && g' == SetNode(g, l.x, g.nodes[l.x].(count := 1, flag := false), Late)
      && l' == Listing(l.x, l.head, l.back)
    case CasList =>
      && l.Listing? && l.x < |g.nodes|
      && (if g.head == l.head then
            && g' == g.(head := Some(l.x), list := [l.x] + g.list, phase := g.phase[l.x := Listed])
            && l' == Resume(l.back)
          else g' == g && l' == Failing(l.x, g.head, l.back))
    case GiveUp =>
      && l.Failing? && l.x < |g.nodes| && g.nodes[l.x].count > 0
      && var n := g.nodes[l.x];
         var last := n.count == 1 && !n.flag;
         && g' == SetNode(g, l.x, n.(count := n.count - 1, flag := true), if last then Early else Waiting)
         && l' == if last then Linking(l.x, l.head, l.back) else Resume(l.back)
    case Get =>
      l.Idle? && g' == g && l' == Starting
    case LoadTop =>
      l.Starting? && g' == g && l' == AtHead(g.head)
    case LoadRefs =>
      && l.AtHead? && g' == g && Known(g, l.head)
      && l' == (if l.head == None then Idle            // try_get returns null
                else if g.nodes[l.head.value].count == 0 then Starting
                else SawRefs(l.head.value, g.nodes[l.head.value].count, g.nodes[l.head.value].flag))
    case CasRefs =>
      && l.SawRefs? && l.x < |g.nodes|
      && var n := g.nodes[l.x];
         if n.count == l.count && n.flag == l.flag then
           g' == SetNode(g, l.x, n.(count := n.count + 1), g.phase[l.x]) && l' == Holding(l.x)
         else
           g' == g && l' == Starting
    case LoadNext =>
      l.Holding? && l.x < |g.nodes| && g' == g && l' == SawNext(l.x, g.nodes[l.x].next)
    case CasUnlist =>
      && l.SawNext? && l.x < |g.nodes|
      && (if g.head == Some(l.x) then
            && g' == g.(head := l.next, list := if g.list == [] then [] else g.list[1..],
                        phase := g.phase[l.x := Removing])
            && l' == Unlisted(l.x)
          else g' == g && l' == Dropping(l.x, g.head))
    case Finish =>
      && l.Unlisted? && l.x < |g.nodes| && g.nodes[l.x].count >= 2
      && g' == SetNode(g, l.x, g.nodes[l.x].(count := g.nodes[l.x].count - 2), Owned)
               .(gets := g.gets[l.x := g.gets[l.x] + 1])
      && l' == Idle
    case Drop =>
      && l.Dropping? && l.x < |g.nodes| && g.nodes[l.x].count > 0
      && var n := g.nodes[l.x];
         var last := n.count == 1 && n.flag;
         && g' == SetNode(g, l.x, n.(count := n.count - 1), if last then Early else g.phase[l.x])
         && l' == if last then LoadingHead(l.x, Retry(l.head)) else AtHead(l.head)
  }

  ghost predicate StepOf(s: State, t: nat, a: Action, s': State) {
    && Sized(s.shared) && t < |s.threads| == |s'.threads|
    && s'.threads == s.threads[t := s'.threads[t]]
    && Move(s.shared, s.threads[t], a, s'.shared, s'.threads[t])
  }

  ghost predicate Step(s: State, s': State) {
    exists t: nat, a :: StepOf(s, t, a, s')
  }

  ghost function Protocol(): Runs.System<State> {
    Runs.System(s => Init(s), (s, s') => Step(s, s'))
  }

  ghost predicate IsRun(run: seq<State>) {
    Runs.IsRun(Protocol(), run)
  }

  // ---- the invariant ----

  /** References taken by try_get and not dropped yet. */
  function RefsTo(x: nat): Local -> int {
    (l: Local) => if (l.Holding? || l.SawNext? || l.Unlisted? || l.Dropping?) && l.x == x then 1 else 0
  }

  function EarlyOn(x: nat): Local -> int {
    (l: Local) => if (l.LoadingHead? || l.Linking? || l.Counting?) && l.x == x then 1 else 0
  }

  function LateOn(x: nat): Local -> int {
    (l: Local) => if (l.Listing? || l.Failing?) && l.x == x then 1 else 0
  }

  function RemovingOn(x: nat): Local -> int {
    (l: Local) => if l.Unlisted? && l.x == x then 1 else 0
  }

  /** The count of a block is the references threads hold, plus the list's own; the flag says that
      the block waits for the references to go. */
  ghost predicate NodeOk(g: Shared, threads: seq<Local>, x: int) {
    0 <= x < |g.nodes| && Sized(g) ==>
      var n, p := g.nodes[x], g.phase[x];
      && n.count == Sum(RefsTo(x), threads) + Bit(p.Late? || p.Listed? || p.Removing?)
      && n.flag == (p.Waiting? || p.Early?)
      && (p.Waiting? ==> n.count > 0) && (p.Early? ==> n.count == 0)
      && Sum(EarlyOn(x), threads) == Bit(p.Early?)
      && Sum(LateOn(x), threads) == Bit(p.Late?)
      && Sum(RemovingOn(x), threads) == Bit(p.Removing?)
      && g.adds[x] == g.gets[x] + Bit(!p.Owned?)
  }

  function First(list: seq<nat>): Option<nat> {
    if list == [] then None else Some(list[0])
  }

  ghost predicate LinkAt(g: Shared, i: int) {
    0 <= i < |g.list| ==> g.list[i] < |g.nodes| && g.nodes[g.list[i]].next == First(g.list[i + 1..])
  }

  ghost predicate MemberAt(g: Shared, x: int) {
    0 <= x < |g.nodes| && Sized(g) ==> (g.phase[x] == Listed <==> x in g.list)
  }

  ghost predicate ListOk(g: Shared) {
    && g.head == First(g.list) && Distinct(g.list)
    && (forall i :: LinkAt(g, i))
    && (forall x :: MemberAt(g, x))
  }

  ghost predicate LocalOk(g: Shared, l: Local) {
    match l
    case LoadingHead(x, back) => x < |g.nodes| && BackKnown(g, back)
    case Linking(x, _, back) => x < |g.nodes| && BackKnown(g, back)
    case Counting(x, h, back) => x < |g.nodes| && g.nodes[x].next == h && BackKnown(g, back)
    case Listing(x, h, back) => x < |g.nodes| && g.nodes[x].next == h && BackKnown(g, back)
    case Failing(x, _, back) => x < |g.nodes| && BackKnown(g, back)
    case AtHead(h) => Known(g, h)
    case SawRefs(x, count, _) => x < |g.nodes| && count > 0
    case Holding(x) => x < |g.nodes|
    case SawNext(x, next) => x < |g.nodes| && g.nodes[x].next == next
    case Unlisted(x) => x < |g.nodes|
    case Dropping(x, h) => x < |g.nodes| && Known(g, h)
    case _ => true
  }

  predicate BackKnown(g: Shared, back: Back) {
    back.Retry? ==> Known(g, back.head)
  }

  ghost predicate Inv(s: State) {
    && Sized(s.shared) && ListOk(s.shared)
    && (forall x :: NodeOk(s.shared, s.threads, x))
    && (forall t :: 0 <= t < |s.threads| ==> LocalOk(s.shared, s.threads[t]))
  }

  // ---- preservation ----

  lemma WeightsPositive(threads: seq<Local>, x: nat)
    ensures Positive(RefsTo(x), threads) && Positive(EarlyOn(x), threads)
    ensures Positive(LateOn(x), threads) && Positive(RemovingOn(x), threads)
  {
  }

  lemma ThreadsUpdated(threads: seq<Local>, t: nat, l': Local, x: nat)
    requires t < |threads|
    ensures Sum(RefsTo(x), threads[t := l']) == Sum(RefsTo(x), threads) - RefsTo(x)(threads[t]) + RefsTo(x)(l')
    ensures Sum(EarlyOn(x), threads[t := l']) == Sum(EarlyOn(x), threads) - EarlyOn(x)(threads[t]) + EarlyOn(x)(l')
    ensures Sum(LateOn(x), threads[t := l']) == Sum(LateOn(x), threads) - LateOn(x)(threads[t]) + LateOn(x)(l')
    ensures Sum(RemovingOn(x), threads[t := l'])
         == Sum(RemovingOn(x), threads) - RemovingOn(x)(threads[t]) + RemovingOn(x)(l')
    ensures Sum(RefsTo(x), threads) >= RefsTo(x)(threads[t]) >= 0
    ensures Sum(EarlyOn(x), threads) >= EarlyOn(x)(threads[t]) >= 0
    ensures Sum(LateOn(x), threads) >= LateOn(x)(threads[t]) >= 0
    ensures Sum(RemovingOn(x), threads) >= RemovingOn(x)(threads[t]) >= 0
  {
    WeightsPositive(threads, x);
    SumUpdate(RefsTo(x), threads, t, l');
    SumUpdate(EarlyOn(x), threads, t, l');
    SumUpdate(LateOn(x), threads, t, l');
    SumUpdate(RemovingOn(x), threads, t, l');
    SumAtLeast(RefsTo(x), threads, t);
    SumAtLeast(EarlyOn(x), threads, t);
    SumAtLeast(LateOn(x), threads, t);
    SumAtLeast(RemovingOn(x), threads, t);
  }

  lemma FlaggingMove(g: Shared, threads: seq<Local>, t: nat, a: Action, g': Shared, l': Local, x: nat)
    requires Sized(g) && t < |threads| && Move(g, threads[t], a, g', l') && (a.Add? || a.GiveUp?)
    requires NodeOk(g, threads, x)
    ensures NodeOk(g', threads[t := l'], x)
  {
    ThreadsUpdated(threads, t, l', x);
  }

  lemma ListingMove(g: Shared, threads: seq<Local>, t: nat, a: Action, g': Shared, l': Local, x: nat)
    requires Sized(g) && t < |threads| && Move(g, threads[t], a, g', l')
    requires a.LoadHead? || a.Link? || a.SetCount? || a.CasList?
    requires NodeOk(g, threads, x)
    ensures NodeOk(g', threads[t := l'], x)
  {
    ThreadsUpdated(threads, t, l', x);
  }

  lemma TakingMove(g: Shared, threads: seq<Local>, t: nat, a: Action, g': Shared, l': Local, x: nat)
    requires Sized(g) && t < |threads| && Move(g, threads[t], a, g', l')
    requires a.Get? || a.LoadTop? || a.LoadRefs? || a.CasRefs? || a.LoadNext?
    requires LocalOk(g, threads[t]) && NodeOk(g, threads, x)
    ensures NodeOk(g', threads[t := l'], x)
  {
    ThreadsUpdated(threads, t, l', x);
  }

  lemma ReleasingMove(g: Shared, threads: seq<Local>, t: nat, a: Action, g': Shared, l': Local, x: nat)
    requires Sized(g) && ListOk(g) && t < |threads| && Move(g, threads[t], a, g', l')
    requires a.CasUnlist? || a.Finish? || a.Drop?
    requires NodeOk(g, threads, x)
    ensures NodeOk(g', threads[t := l'], x)
  {
    ThreadsUpdated(threads, t, l', x);
    assert MemberAt(g, x);
  }

  lemma NodeMove(g: Shared, threads: seq<Local>, t: nat, a: Action, g': Shared, l': Local, x: nat)
    requires Sized(g) && ListOk(g) && t < |threads| && Move(g, threads[t], a, g', l')
    requires LocalOk(g, threads[t]) && NodeOk(g, threads, x)
    ensures NodeOk(g', threads[t := l'], x)
  {
    if a.Add? || a.GiveUp? {
      FlaggingMove(g, threads, t, a, g', l', x);
    } else if a.LoadHead? || a.Link? || a.SetCount? || a.CasList? {
      ListingMove(g, threads, t, a, g', l', x);
    } else if a.CasUnlist? || a.Finish? || a.Drop? {
      ReleasingMove(g, threads, t, a, g', l', x);
    } else {
      TakingMove(g, threads, t, a, g', l', x);
    }
  }

  /** What the counts say about the block a thread works on. */
  ghost predicate Grounded(g: Shared, l: Local)
    requires Sized(g)
  {
    match l
    case LoadingHead(x, _) => x < |g.nodes| && g.phase[x] == Early
    case Linking(x, _, _) => x < |g.nodes| && g.phase[x] == Early
    case Counting(x, _, _) => x < |g.nodes| && g.phase[x] == Early
    case Listing(x, _, _) => x < |g.nodes| && g.phase[x] == Late
    case Failing(x, _, _) => x < |g.nodes| && g.phase[x] == Late && !g.nodes[x].flag && g.nodes[x].count > 0
    case Holding(x) => x < |g.nodes| && g.phase[x] != Early
    case SawNext(x, _) => x < |g.nodes| && g.phase[x] != Early
    case Unlisted(x) =>
      x < |g.nodes| && g.phase[x] == Removing && !g.nodes[x].flag && g.nodes[x].count >= 2
    case Dropping(x, _) =>
      x < |g.nodes| && g.phase[x] != Early && g.nodes[x].count > 0 && (g.nodes[x].flag ==> g.phase[x] == Waiting)
    case _ => true
  }

  lemma ThreadGrounded(s: State, t: nat)
    requires Inv(s) && t < |s.threads|
    ensures Grounded(s.shared, s.threads[t])
  {
    var l := s.threads[t];
    assert LocalOk(s.shared, l);
    if !l.Idle? && !l.Starting? && !l.AtHead? {
      assert NodeOk(s.shared, s.threads, l.x);
      ThreadsUpdated(s.threads, t, l, l.x);
    }
  }

  lemma PushKeepsList(g: Shared, x: nat, g': Shared)
    requires Sized(g) && ListOk(g) && x < |g.nodes| && g.phase[x] != Listed && g.nodes[x].next == g.head
    requires g' == g.(head := Some(x), list := [x] + g.list, phase := g.phase[x := Listed])
    ensures ListOk(g')
  {
    assert MemberAt(g, x);
    forall i ensures LinkAt(g', i) {
      assert LinkAt(g, i - 1);
      if 0 <= i < |g'.list| {
        assert g'.list[i + 1..] == g.list[i..];
      }
    }
    forall y ensures MemberAt(g', y) {
      assert MemberAt(g, y);
    }
  }

  lemma PopKeepsList(g: Shared, x: nat, g': Shared)
    requires Sized(g) && ListOk(g) && x < |g.nodes| && g.head == Some(x)
    requires g' == g.(head := g.nodes[x].next, list := if g.list == [] then [] else g.list[1..],
                      phase := g.phase[x := Removing])
    ensures ListOk(g')
  {
    assert LinkAt(g, 0);
    forall i ensures LinkAt(g', i) {
      assert LinkAt(g, i + 1);
      if 0 <= i < |g'.list| {
        assert g'.list[i + 1..] == g.list[i + 2..];
      }
    }
    forall y ensures MemberAt(g', y) {
      assert MemberAt(g, y);
    }
  }

  lemma OtherKeepsList(g: Shared, l: Local, a: Action, g': Shared, l': Local)
    requires Sized(g) && ListOk(g) && Grounded(g, l) && Move(g, l, a, g', l')
    requires !(a.CasList? && g.head == l.head) && !(a.CasUnlist? && g.head == Some(l.x))
    ensures ListOk(g')
  {
    forall i ensures LinkAt(g', i) {
      assert LinkAt(g, i);
      if 0 <= i < |g.list| {
        assert MemberAt(g, g.list[i]);
      }
    }
    forall y ensures MemberAt(g', y) {
      assert MemberAt(g, y);
    }
  }

  lemma ListMove(g: Shared, l: Local, a: Action, g': Shared, l': Local)
    requires Sized(g) && ListOk(g) && LocalOk(g, l) && Grounded(g, l) && Move(g, l, a, g', l')
    ensures Sized(g') && ListOk(g')
  {
    if a.CasList? && g.head == l.head {
      PushKeepsList(g, l.x, g');
    } else if a.CasUnlist? && g.head == Some(l.x) {
      PopKeepsList(g, l.x, g');
    } else {
      OtherKeepsList(g, l, a, g', l');
    }
  }

  lemma LocalMove(g: Shared, l: Local, a: Action, g': Shared, l': Local)
    requires Sized(g) && LocalOk(g, l) && Move(g, l, a, g', l') && Known(g, g.head)
    ensures |g'.nodes| == |g.nodes| && LocalOk(g', l')
  {
  }

  /** Only the thread that lists a block writes its next pointer, and only while nobody holds it. */
  lemma OtherMove(g: Shared, l: Local, a: Action, g': Shared, l': Local, u: Local)
    requires Sized(g) && LocalOk(g, u) && Grounded(g, l) && Grounded(g, u) && Move(g, l, a, g', l')
    requires a.Link? && u.Counting? ==> u.x != l.x
    ensures LocalOk(g', u)
  {
  }

  lemma StepKeeps(s: State, t: nat, a: Action, s': State)
    requires Inv(s) && StepOf(s, t, a, s')
    ensures Inv(s')
  {
    var g, g', l, l' := s.shared, s'.shared, s.threads[t], s'.threads[t];
    ThreadGrounded(s, t);
    ListMove(g, l, a, g', l');
    assert LinkAt(g, 0);
    LocalMove(g, l, a, g', l');
    forall x: nat ensures NodeOk(g', s'.threads, x) {
      NodeMove(g, s.threads, t, a, g', l', x);
    }
    forall u | 0 <= u < |s'.threads| ensures LocalOk(g', s'.threads[u]) {
      if u != t {
        ThreadGrounded(s, u);
        if a.Link? && s.threads[u].Counting? {
          OneLister(s, t, u);
        }
        OtherMove(g, l, a, g', l', s.threads[u]);
      }
    }
  }

  lemma OneLister(s: State, t: nat, u: nat)
    requires Inv(s) && t < |s.threads| && u < |s.threads| && t != u
    requires s.threads[t].Linking? && s.threads[u].Counting?
    ensures s.threads[t].x != s.threads[u].x
  {
    var x := s.threads[t].x;
    assert NodeOk(s.shared, s.threads, x) && LocalOk(s.shared, s.threads[t]);
    WeightsPositive(s.threads, x);
    SumAtLeastTwo(EarlyOn(x), s.threads, if t < u then t else u, if t < u then u else t);
  }

  lemma InitHolds(s: State)
    requires Init(s)
    ensures Inv(s)
  {
    forall x: nat ensures NodeOk(s.shared, s.threads, x) {
      SumZero(RefsTo(x), s.threads);
      SumZero(EarlyOn(x), s.threads);
      SumZero(LateOn(x), s.threads);
      SumZero(RemovingOn(x), s.threads);
    }
    forall i ensures LinkAt(s.shared, i) {
    }
    forall x ensures MemberAt(s.shared, x) {
    }
  }

  lemma EveryStateOk(run: seq<State>, i: nat)
    requires IsRun(run) && i < |run|
    ensures Inv(run[i])
  {
    forall s | Init(s) ensures Inv(s) {
      InitHolds(s);
    }
    forall s, s' | Inv(s) && Step(s, s') ensures Inv(s') {
      var t: nat, a :| StepOf(s, t, a, s');
      StepKeeps(s, t, a, s');
    }
    Runs.Invariant(Protocol(), s => Inv(s), run, i);
  }

  // ---- what the free list promises ----

  /** Following the next pointers from the head visits every listed block, each once. */
  lemma OnTheListOnce(run: seq<State>, i: nat, x: nat)
    requires IsRun(run) && i < |run| && x < |run[i].shared.nodes|
    ensures var g := run[i].shared;
            && g.head == First(g.list) && Distinct(g.list)
            && |g.phase| == |g.nodes| && (x in g.list <==> g.phase[x] == Listed)
            && (forall k :: 0 <= k < |g.list| ==>
                  g.list[k] < |g.nodes| && g.nodes[g.list[k]].next == First(g.list[k + 1..]))
  {
    var g := run[i].shared;
    EveryStateOk(run, i);
    assert MemberAt(g, x);
    forall k | 0 <= k < |g.list|
      ensures g.list[k] < |g.nodes| && g.nodes[g.list[k]].next == First(g.list[k + 1..])
    {
      assert LinkAt(g, k);
    }
  }

  /** Adds and gets of a block alternate. */
  lemma AddsAndGetsAlternate(run: seq<State>, i: nat, x: nat)
    requires IsRun(run) && i < |run| && x < |run[i].shared.nodes|
    ensures Sized(run[i].shared)
    ensures run[i].shared.adds[x] == run[i].shared.gets[x] + Bit(run[i].shared.phase[x] != Owned)
  {
    EveryStateOk(run, i);
    assert NodeOk(run[i].shared, run[i].threads, x);
  }

  /** A block is never returned again without an add in between. */
  lemma NoDoubleGet(run: seq<State>, i: nat, j: nat, x: nat)
    requires IsRun(run) && i < |run| && j < |run|
    requires x < |run[i].shared.nodes| && x < |run[j].shared.nodes|
    requires Sized(run[i].shared) && Sized(run[j].shared)
    requires run[i].shared.phase[x] == Owned && run[i].shared.gets[x] < run[j].shared.gets[x]
    ensures run[i].shared.adds[x] < run[j].shared.adds[x]
  {
    AddsAndGetsAlternate(run, i, x);
    AddsAndGetsAlternate(run, j, x);
  }

  /** The assertion in try_get holds: the block that was taken off has its bit clear, and both
      references to drop. */
  lemma TakenIsUnlisted(run: seq<State>, i: nat, t: nat)
    requires IsRun(run) && i < |run| && t < |run[i].threads| && run[i].threads[t].Unlisted?
    ensures var g, x := run[i].shared, run[i].threads[t].x;
            x < |g.nodes| && !g.nodes[x].flag && g.nodes[x].count >= 2
  {
    var s := run[i];
    EveryStateOk(run, i);
    ThreadGrounded(s, t);
    assert NodeOk(s.shared, s.threads, s.threads[t].x);
    WeightsPositive(s.threads, s.threads[t].x);
    SumAtLeast(RemovingOn(s.threads[t].x), s.threads, t);
  }

  /** Two threads are never about to return the same block. */
  lemma TakenByOne(run: seq<State>, i: nat, t: nat, u: nat)
    requires IsRun(run) && i < |run| && t < |run[i].threads| && u < |run[i].threads| && t != u
    requires run[i].threads[t].Unlisted? && run[i].threads[u].Unlisted?
    ensures run[i].threads[u].x != run[i].threads[t].x
  {
    var s := run[i];
    var x := s.threads[t].x;
    EveryStateOk(run, i);
    ThreadGrounded(s, t);
    assert NodeOk(s.shared, s.threads, x);
    WeightsPositive(s.threads, x);
    SumAtLeastTwo(RemovingOn(x), s.threads, if t < u then t else u, if t < u then u else t);
  }

  /** A block whose add returned early is held by someone. */
  lemma WaitingIsHeld(run: seq<State>, i: nat, x: nat)
    requires IsRun(run) && i < |run| && x < |run[i].shared.nodes|
    requires Sized(run[i].shared) && run[i].shared.phase[x] == Waiting
    ensures exists t :: 0 <= t < |run[i].threads| && RefsTo(x)(run[i].threads[t]) == 1
  {
    EveryStateOk(run, i);
    assert NodeOk(run[i].shared, run[i].threads, x);
    var t := SumWitness(RefsTo(x), run[i].threads);
  }

  /** The last thread to drop its reference to such a block goes on to list it. */
  lemma LastHolderLists(run: seq<State>, i: nat, t: nat, s': State)
    requires IsRun(run) && i < |run| && StepOf(run[i], t, Drop, s')
    requires var x := run[i].threads[t].x; x < |run[i].shared.nodes| && run[i].shared.phase[x] == Waiting
    ensures Inv(s')
    ensures var x := run[i].threads[t].x;
            Sum(RefsTo(x), run[i].threads) == 1 <==> s'.threads[t].LoadingHead? && s'.threads[t].x == x
  {
    EveryStateOk(run, i);
    StepKeeps(run[i], t, Drop, s');
    assert NodeOk(run[i].shared, run[i].threads, run[i].threads[t].x);
  }

  /** When no call is under way, every added block is on the list. */
  lemma QuietMeansListed(run: seq<State>, i: nat, x: nat)
    requires IsRun(run) && i < |run| && x < |run[i].shared.nodes|
    requires forall t :: 0 <= t < |run[i].threads| ==> run[i].threads[t].Idle?
    ensures Sized(run[i].shared)
    ensures run[i].shared.adds[x] > run[i].shared.gets[x] <==> x in run[i].shared.list
  {
    var s := run[i];
    EveryStateOk(run, i);
    assert NodeOk(s.shared, s.threads, x) && MemberAt(s.shared, x);
    SumZero(RefsTo(x), s.threads);
    SumZero(EarlyOn(x), s.threads);
    SumZero(LateOn(x), s.threads);
    SumZero(RemovingOn(x), s.threads);
  }

  // ---- try_get returns null ----

  /** The list is empty at one of these moments. */
  ghost predicate EmptyWithin(run: seq<State>, g: nat, i: nat) {
    exists m :: g < m <= i < |run| && run[m].shared.list == []
  }

  function BackOf(l: Local): Option<Back> {
    match l
    case LoadingHead(_, back) => Some(back)
    case Linking(_, _, back) => Some(back)
    case Counting(_, _, back) => Some(back)
    case Listing(_, _, back) => Some(back)
    case Failing(_, _, back) => Some(back)
    case _ => None
  }

  /** Inside try_get, where a block may also be listed on the way. */
  predicate InGet(l: Local) {
    && l != Idle
    && (BackOf(l).Some? ==> BackOf(l).value.Retry?)
  }

  /** The head that the loop will look at next was null when it was loaded. */
  predicate SawNull(l: Local) {
    l == AtHead(None) || (l.Dropping? && l.head == None) || BackOf(l) == Some(Retry(None))
  }

  /** From state g to state i thread t is in one call of try_get. */
  ghost predicate OneGet(run: seq<State>, t: nat, g: nat, i: nat) {
    && g < i < |run| && StepOf(run[g], t, Get, run[g + 1])
    && forall k :: g < k <= i ==> t < |run[k].threads| && run[k].threads[t] != Idle
  }

  /** One step seen from a thread inside try_get. */
  ghost predicate GetStep(s: State, t: nat, s': State)
    requires t < |s.threads|
  {
    && |s'.threads| == |s.threads|
    && (s'.threads[t] != Idle ==> InGet(s'.threads[t]))
    && (s'.threads[t] != Idle && SawNull(s'.threads[t]) ==> SawNull(s.threads[t]) || s.shared.list == [])
    && (s'.threads[t] == Idle && s'.shared.gets == s.shared.gets ==> SawNull(s.threads[t]))
  }

  lemma GetMove(s: State, t: nat, s': State)
    requires Inv(s) && Step(s, s') && t < |s.threads| && InGet(s.threads[t])
    ensures GetStep(s, t, s')
  {
    var u: nat, a :| StepOf(s, u, a, s');
    if u == t && a.Finish? {
      ThreadGrounded(s, t);
      var x := s.threads[t].x;
      assert s'.shared.gets[x] == s.shared.gets[x] + 1;
    }
  }

  ghost predicate GetStepAt(run: seq<State>, t: nat, k: nat) {
    k + 1 < |run| && t < |run[k].threads| && InGet(run[k].threads[t]) ==> GetStep(run[k], t, run[k + 1])
  }

  lemma GetSteps(run: seq<State>, t: nat, k: nat)
    requires IsRun(run)
    ensures GetStepAt(run, t, k)
  {
    if k + 1 < |run| && t < |run[k].threads| && InGet(run[k].threads[t]) {
      EveryStateOk(run, k);
      assert Protocol().next(run[k], run[k + 1]);
      GetMove(run[k], t, run[k + 1]);
    }
  }

  lemma {:induction false} GetSoFar(run: seq<State>, t: nat, g: nat, i: nat)
    requires OneGet(run, t, g, i) && forall k :: GetStepAt(run, t, k)
    ensures InGet(run[i].threads[t]) && (SawNull(run[i].threads[t]) ==> EmptyWithin(run, g, i))
    decreases i
  {
    if i > g + 1 {
      var k: nat := i - 1;
      assert GetStepAt(run, t, k);
      GetSoFar(run, t, g, k);
    }
  }

  /** A call of try_get that returns without a block does so only if the list was empty at a moment of
      the call. */
  lemma NullMeansEmpty(run: seq<State>, t: nat, g: nat, i: nat)
    requires IsRun(run) && OneGet(run, t, g, i) && i + 1 < |run|
    requires t < |run[i + 1].threads| && run[i + 1].threads[t] == Idle
    requires run[i + 1].shared.gets == run[i].shared.gets
    ensures EmptyWithin(run, g, i)
  {
    forall k: nat ensures GetStepAt(run, t, k) {
      GetSteps(run, t, k);
    }
    GetSoFar(run, t, g, i);
    assert GetStepAt(run, t, i);
  }

  // ---- no access is blocked ----

  /** The access that a thread makes next. */
  lemma NextAccess(g: Shared, l: Local) returns (a: Action, g': Shared, l': Local)
    requires Sized(g) && LocalOk(g, l) && Grounded(g, l) && l != Idle
    ensures Move(g, l, a, g', l')
  {
    g' := g;
    match l
    case LoadingHead(x, back) => a, l' := LoadHead, Linking(x, g.head, back);
    case Linking(x, head, back) =>
      a, l' := Link, Counting(x, head, back);
      g' := SetNode(g, x, g.nodes[x].(next := head), g.phase[x]);
    case Counting(x, head, back) =>
      a, l' := SetCount, Listing(x, head, back);
      g' := SetNode(g, x, g.nodes[x].(count := 1, flag := false), Late);
    case Listing(x, head, back) =>
      a, l' := CasList, if g.head == head then Resume(back) else Failing(x, g.head, back);
      if g.head == head {
        g' := g.(head := Some(x), list := [x] + g.list, phase := g.phase[x := Listed]);
      }
    case Failing(x, head, back) =>
      var n := g.nodes[x];
      var last := n.count == 1 && !n.flag;
      a, l' := GiveUp, if last then Linking(x, head, back) else Resume(back);
      g' := SetNode(g, x, n.(count := n.count - 1, flag := true), if last then Early else Waiting);
    case Starting => a, l' := LoadTop, AtHead(g.head);
    case AtHead(head) =>
      a := LoadRefs;
      l' := if head == None then Idle
            else if g.nodes[head.value].count == 0 then Starting
            else SawRefs(head.value, g.nodes[head.value].count, g.nodes[head.value].flag);
    case SawRefs(x, count, flag) =>
      var n := g.nodes[x];
      a, l' := CasRefs, Starting;
      if n.count == count && n.flag == flag {
        l' := Holding(x);
        g' := SetNode(g, x, n.(count := n.count + 1), g.phase[x]);
      }
    case Holding(x) => a, l' := LoadNext, SawNext(x, g.nodes[x].next);
    case SawNext(x, next) =>
      a, l' := CasUnlist, Dropping(x, g.head);
      if g.head == Some(x) {
        l' := Unlisted(x);
        g' := g.(head := next, list := if g.list == [] then [] else g.list[1..], phase := g.phase[x := Removing]);
      }
    case Unlisted(x) =>
      a, l' := Finish, Idle;
      g' := SetNode(g, x, g.nodes[x].(count := g.nodes[x].count - 2), Owned).(gets := g.gets[x := g.gets[x] + 1]);
    case Dropping(x, head) =>
      var n := g.nodes[x];
      var last := n.count == 1 && n.flag;
      a, l' := Drop, if last then LoadingHead(x, Retry(head)) else AtHead(head);
      g' := SetNode(g, x, n.(count := n.count - 1), if last then Early else g.phase[x]);
  }

  /** A thread inside a call always finds its next access possible: it never follows a null pointer and
      never drops a reference that is not there. */
  lemma NeverStuck(run: seq<State>, i: nat, t: nat)
    requires IsRun(run) && i < |run| && t < |run[i].threads| && run[i].threads[t] != Idle
    ensures exists a, s' :: StepOf(run[i], t, a, s')
  {
    var s := run[i];
    EveryStateOk(run, i);
    ThreadGrounded(s, t);
    var a, g', l' := NextAccess(s.shared, s.threads[t]);
    assert StepOf(s, t, a, State(g', s.threads[t := l']));
  }
}
