/** The node pool that all linked queues share: a lock-free stack of chunks with a tagged top, one
    free list per thread, and a mutex under which more chunks are reserved. */
module NodePoolProtocol {
  import opened Numbers
  import opened Options
  import Runs

  /** Where a node is: with a user of the pool, or at a position of one list of free nodes. */
  datatype Owner = InUse | In(list: nat, pos: nat)

  /** Where a list of free nodes is. */
  datatype Where = Stacked(height: nat) | LocalOf(t: nat) | HandOf(t: nat) | Gone

  /** What a thread that pushes a chunk goes on with. made and left count chunks of a reservation. */
  datatype After = ToIdle | ToReserve(left: nat, made: nat, want: Option<nat>)

  datatype Pc =
    | Idle
    // _allocate
    | TryPop                                        // before loading the top
    | PopLoaded(node: nat, tag: nat)                // before reading next_chunk_
    | PopRead(node: nat, tag: nat, link: Option<nat>) // before the CAS
    | Filled                                        // a chunk was popped into the thread's list
    // push
    | PushLoad(hand: nat, after: After)
    | PushWrite(hand: nat, after: After, seen: Option<nat>, tag: nat)
    | PushCas(hand: nat, after: After, seen: Option<nat>, tag: nat)
    // reserve; want is None if an allocation ran dry, Some(n) if n chunks in all are asked for
    | Want(want: Option<nat>)                       // before locking the mutex
    | Locked(want: Option<nat>)
    | Reserving(left: nat, made: nat, want: Option<nat>)

  /** head and size are the thread's free list; list is its identity. */
  datatype Local = Local(list: nat, head: Option<nat>, size: nat, pc: Pc)

  datatype Shared = Shared(
    next: seq<Option<nat>>,        // next_
    link: seq<Option<nat>>,        // next_chunk_; it shares its memory with the value
    top: Option<nat>,
    tag: nat,
    mutex: bool,
    chunks: nat,                   // global_node_count_ in chunks
    // history
    owner: seq<Owner>,
    lists: seq<seq<nat>>,          // free nodes, the head of a list at its end
    places: seq<Where>,
    stack: seq<nat>                // the lists on the stack, the top at the end
  )

  datatype State = State(shared: Shared, threads: seq<Local>)

  datatype Action =
    | Allocate | Load | ReadLink | CasPop(spurious: bool) | Take
    | Deallocate(x: nat) | LoadForPush | WriteLink | CasPush(spurious: bool)
    | AskForChunks(n: nat) | Lock | Check | MakeChunk | FinishReserve

  ghost predicate Sized(g: Shared) {
    |g.next| == |g.link| == |g.owner| && |g.lists| == |g.places|
  }

  function HeadOf(g: Shared, l: nat): Option<nat> {
    if l < |g.lists| && |g.lists[l]| > 0 then Some(g.lists[l][|g.lists[l]| - 1]) else None
  }

  ghost predicate Init(c: nat, s: State) {
    var g := s.shared;
    && c > 0 && g.next == [] && g.link == [] && g.owner == [] && g.top == None && g.tag == 0
    && !g.mutex && g.chunks == 0 && g.stack == []
    && |g.lists| == |g.places| == |s.threads|
    && (forall t :: 0 <= t < |s.threads| ==>
          g.lists[t] == [] && g.places[t] == LocalOf(t) && s.threads[t] == Local(t, None, 0, Idle))
  }

  /** Take the head of the thread's list. */
  ghost predicate Takes(g: Shared, l: Local, g': Shared, l': Local) {
    && Sized(g) && l.size > 0 && l.head.Some? && l.head.value < |g.next|
    && l.list < |g.lists| && |g.lists[l.list]| > 0
    && var x := l.head.value;
       && g' == g.(next := g.next[x := None], owner := g.owner[x := InUse],
                   lists := g.lists[l.list := g.lists[l.list][..|g.lists[l.list]| - 1]])
       && l' == Local(l.list, g.next[x], l.size - 1, Idle)
  }

  /** Put a node at the head of the thread's list. */
  function Given(g: Shared, l: Local, x: nat): Shared
    requires Sized(g) && x < |g.next| && l.list < |g.lists|
  {
    g.(next := g.next[x := l.head], owner := g.owner[x := In(l.list, |g.lists[l.list]|)],
       lists := g.lists[l.list := g.lists[l.list] + [x]])
  }

  /** A full list becomes a chunk in the thread's hands, and the thread gets an empty list. */
  function Detached(g: Shared, t: nat, l: nat): Shared
    requires Sized(g) && l < |g.lists|
  {
    g.(lists := g.lists + [[]], places := g.places[l := HandOf(t)] + [LocalOf(t)])
  }

  /** A deallocation, as a caller should make it: of a node that it has. */
  ghost predicate Gives(c: nat, g: Shared, t: nat, l: Local, x: nat, g': Shared, l': Local) {
    Returns(c, g, t, l, x, g', l') && x < |g.owner| && g.owner[x] == InUse
  }

  ghost predicate Returns(c: nat, g: Shared, t: nat, l: Local, x: nat, g': Shared, l': Local) {
    && Sized(g) && l.pc == Idle && x < |g.next| && l.list < |g.lists|
    && (if l.size + 1 >= c then
          && g' == Detached(Given(g, l, x), t, l.list)
          && l' == Local(|g.lists|, None, 0, PushLoad(l.list, ToIdle))
        else
          g' == Given(g, l, x) && l' == Local(l.list, Some(x), l.size + 1, Idle))
  }

  ghost predicate PopsChunk(c: nat, g: Shared, t: nat, l: Local, g': Shared, l': Local) {
    && Sized(g) && l.pc.PopRead? && |g.stack| > 0 && g.stack[|g.stack| - 1] < |g.places| && l.list < |g.places|
    && var k := g.stack[|g.stack| - 1];
       && g' == g.(top := l.pc.link, tag := g.tag + 1, stack := g.stack[..|g.stack| - 1],
                   places := g.places[l.list := Gone][k := LocalOf(t)])
       && l' == Local(k, Some(l.pc.node), c, Filled)
  }

  ghost predicate PushesChunk(g: Shared, l: Local, g': Shared, l': Local) {
    && Sized(g) && l.pc.PushCas? && l.pc.hand < |g.lists|
    && g' == g.(top := HeadOf(g, l.pc.hand), tag := g.tag + 1, stack := g.stack + [l.pc.hand],
                places := g.places[l.pc.hand := Stacked(|g.stack|)])
    && l' == l.(pc := match l.pc.after
                      case ToIdle => Idle
                      case ToReserve(left, made, want) => Reserving(left, made, want))
  }

  /** A chunk of new nodes, each linked to the one below. */
  function Chunk(c: nat, first: nat): (r: seq<nat>)
    ensures |r| == c && forall j :: 0 <= j < c ==> r[j] == first + j
  {
    seq(c, j => first + j)
  }

  ghost predicate MakesChunk(c: nat, g: Shared, t: nat, l: Local, g': Shared, l': Local) {
    && Sized(g) && l.pc.Reserving? && l.pc.left > 0
    && var n := |g.next|;
       && |g'.next| == |g'.link| == |g'.owner| == n + c
       && g'.next[..n] == g.next && g'.link[..n] == g.link && g'.owner[..n] == g.owner
       && (forall x :: n <= x < n + c ==>
             g'.next[x] == (if x > n then Some(x - 1) else None) && g'.owner[x] == In(|g.lists|, x - n))
       && g' == g.(next := g'.next, link := g'.link, owner := g'.owner,
                   lists := g.lists + [Chunk(c, n)], places := g.places + [HandOf(t)])
       && l' == l.(pc := PushLoad(|g.lists|, ToReserve(l.pc.left - 1, l.pc.made + 1, l.pc.want)))
  }

  ghost predicate Move(c: nat, g: Shared, t: nat, l: Local, a: Action, g': Shared, l': Local) {
    match a
    case Allocate => l.pc == Idle && l.size == 0 && g' == g && l' == l.(pc := TryPop)
    case Take => (l.pc == Idle || l.pc == Filled) && Takes(g, l, g', l')
    case Load =>
      && l.pc == TryPop && g' == g
      && l' == l.(pc := if g.top.Some? then PopLoaded(g.top.value, g.tag) else Want(None))
    case ReadLink =>
      && l.pc.PopLoaded? && l.pc.node < |g.link| && g' == g
      && l' == l.(pc := PopRead(l.pc.node, l.pc.tag, g.link[l.pc.node]))
    case CasPop(spurious) =>
      && l.pc.PopRead?
      && (if g.top == Some(l.pc.node) && g.tag == l.pc.tag && !spurious then PopsChunk(c, g, t, l, g', l')
          else
            && g' == g
            && l' == l.(pc := if g.top.Some? then PopLoaded(g.top.value, g.tag) else Want(None)))
    case Deallocate(x) => Gives(c, g, t, l, x, g', l')
    case LoadForPush =>
      l.pc.PushLoad? && g' == g && l' == l.(pc := PushWrite(l.pc.hand, l.pc.after, g.top, g.tag))
    case WriteLink =>
      && l.pc.PushWrite? && HeadOf(g, l.pc.hand).Some? && HeadOf(g, l.pc.hand).value < |g.link|
      && g' == g.(link := g.link[HeadOf(g, l.pc.hand).value := l.pc.seen])
      && l' == l.(pc := PushCas(l.pc.hand, l.pc.after, l.pc.seen, l.pc.tag))
    case CasPush(spurious) =>
      && l.pc.PushCas?
      && (if g.top == l.pc.seen && g.tag == l.pc.tag && !spurious then PushesChunk(g, l, g', l')
          else g' == g && l' == l.(pc := PushWrite(l.pc.hand, l.pc.after, g.top, g.tag)))
    case AskForChunks(n) =>
      l.pc == Idle && g' == g && l' == l.(pc := if g.chunks >= n then Idle else Want(Some(n)))
    case Lock =>
      l.pc.Want? && !g.mutex && g' == g.(mutex := true) && l' == l.(pc := Locked(l.pc.want))
    case Check =>
      && l.pc.Locked?
      && (match l.pc.want
          case None =>
            if g.top.Some? then g' == g.(mutex := false) && l' == l.(pc := TryPop)
            else g' == g && l' == l.(pc := Reserving(Max(1, g.chunks), 0, None))
          case Some(n) =>
            if g.chunks >= n then g' == g.(mutex := false) && l' == l.(pc := Idle)
            else g' == g && l' == l.(pc := Reserving(n - g.chunks, 0, Some(n))))
    case MakeChunk => MakesChunk(c, g, t, l, g', l')
    case FinishReserve =>
      && l.pc.Reserving? && l.pc.left == 0
      && g' == g.(chunks := g.chunks + l.pc.made, mutex := false)
      && l' == l.(pc := if l.pc.want.None? then TryPop else Idle)
  }

  ghost predicate StepOf(c: nat, s: State, t: nat, a: Action, s': State) {
    && t < |s.threads| == |s'.threads|
    && s'.threads == s.threads[t := s'.threads[t]]
    && Move(c, s.shared, t, s.threads[t], a, s'.shared, s'.threads[t])
  }

  /** A user of the pool writes the links and the value of a node it has. */
  ghost predicate UserWrites(s: State, x: nat, next: Option<nat>, link: Option<nat>, s': State) {
    && Sized(s.shared) && x < |s.shared.next| && s.shared.owner[x] == InUse && s'.threads == s.threads
    && s'.shared == s.shared.(next := s.shared.next[x := next], link := s.shared.link[x := link])
  }

  ghost predicate Step(c: nat, s: State, s': State) {
    || (exists t: nat, a :: StepOf(c, s, t, a, s'))
    || (exists x: nat, next, link :: UserWrites(s, x, next, link, s'))
  }

  ghost function Protocol(c: nat): Runs.System<State> {
    Runs.System(s => Init(c, s), (s, s') => Step(c, s, s'))
  }

  ghost predicate IsRun(c: nat, run: seq<State>) {
    Runs.IsRun(Protocol(c), run)
  }
}
