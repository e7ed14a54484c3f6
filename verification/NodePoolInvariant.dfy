/** The inductive invariant of the node pool. */
module NodePoolInvariant {
  import opened Counting
  import opened NodePoolProtocol
  import opened Numbers
  import opened Options

  // ---- the free lists ----

  /** Position j of list l holds a node that knows it is there and points to the position below. */
  ghost predicate ListAt(g: Shared, l: int, j: int)
    requires Sized(g)
  {
    0 <= l < |g.lists| && 0 <= j < |g.lists[l]| ==>
      && g.lists[l][j] < |g.next| && g.owner[g.lists[l][j]] == In(l, j)
      && g.next[g.lists[l][j]] == (if j > 0 then Some(g.lists[l][j - 1]) else None)
  }

  ghost predicate OwnerAt(g: Shared, x: int)
    requires Sized(g)
  {
    0 <= x < |g.owner| && g.owner[x].In? ==>
      && g.owner[x].list < |g.lists| && g.owner[x].pos < |g.lists[g.owner[x].list]|
      && g.lists[g.owner[x].list][g.owner[x].pos] == x
  }

  // ---- the stack of chunks ----

  /** The chunk at height h is full, and its head points to the head of the chunk below. */
  ghost predicate StackedAt(c: nat, g: Shared, h: int)
    requires Sized(g)
  {
    0 <= h < |g.stack| ==>
      && g.stack[h] < |g.lists| && g.places[g.stack[h]] == Stacked(h) && |g.lists[g.stack[h]]| == c
      && HeadOf(g, g.stack[h]).Some? && HeadOf(g, g.stack[h]).value < |g.link|
      && g.link[HeadOf(g, g.stack[h]).value] == (if h > 0 then HeadOf(g, g.stack[h - 1]) else None)
  }

  function TopList(g: Shared): Option<nat> {
    if g.stack == [] then None else HeadOf(g, g.stack[|g.stack| - 1])
  }

  ghost predicate ListsOk(g: Shared)
    requires Sized(g)
  {
    (forall l, j :: ListAt(g, l, j)) && (forall x :: OwnerAt(g, x))
  }

  ghost predicate StackOk(c: nat, g: Shared)
    requires Sized(g)
  {
    (forall h :: StackedAt(c, g, h)) && g.top == TopList(g)
  }

  // ---- the threads ----

  predicate Pushing(pc: Pc) {
    pc.PushLoad? || pc.PushWrite? || pc.PushCas?
  }

  predicate DryReserve(after: After) {
    after.ToReserve? && after.want.None?
  }

  /** Program points of an allocation whose thread has run out of nodes. */
  predicate Dry(pc: Pc) {
    || pc.TryPop? || pc.PopLoaded? || pc.PopRead?
    || ((pc.Want? || pc.Locked? || pc.Reserving?) && pc.want.None?)
    || (Pushing(pc) && DryReserve(pc.after))
  }

  function HoldsMutex(l: Local): int {
    Bit(l.pc.Locked? || l.pc.Reserving? || (Pushing(l.pc) && l.pc.after.ToReserve?))
  }

  /** Chunks of a reservation that is not counted yet. */
  function Made(l: Local): int {
    if l.pc.Reserving? then l.pc.made
    else if Pushing(l.pc) && l.pc.after.ToReserve? then l.pc.after.made
    else 0
  }

  ghost predicate FreeListOk(c: nat, g: Shared, t: nat, l: Local)
    requires Sized(g)
  {
    && l.list < |g.lists| && g.places[l.list] == LocalOf(t)
    && l.head == HeadOf(g, l.list) && l.size == |g.lists[l.list]|
    && (if l.pc == Filled then l.size == c else l.size < c)
    && (Dry(l.pc) ==> l.size == 0)
  }

  ghost predicate HandOk(c: nat, g: Shared, t: nat, pc: Pc)
    requires Sized(g)
  {
    Pushing(pc) ==> pc.hand < |g.lists| && g.places[pc.hand] == HandOf(t) && |g.lists[pc.hand]| == c
  }

  /** What the tag guarantees: as long as it has not moved, what was read of the top is current. */
  ghost predicate TagOk(g: Shared, pc: Pc)
    requires Sized(g)
  {
    match pc
    case PopLoaded(node, tag) => node < |g.link| && tag <= g.tag && (tag == g.tag ==> g.top == Some(node))
    case PopRead(node, tag, link) =>
      node < |g.link| && tag <= g.tag && (tag == g.tag ==> g.top == Some(node) && g.link[node] == link)
    case PushWrite(_, _, seen, tag) => tag <= g.tag && (tag == g.tag ==> g.top == seen)
    case PushCas(hand, _, seen, tag) =>
      && tag <= g.tag && (tag == g.tag ==> g.top == seen)
      && HeadOf(g, hand).Some? && HeadOf(g, hand).value < |g.link| && g.link[HeadOf(g, hand).value] == seen
    case _ => true
  }

  ghost predicate LocalOk(c: nat, g: Shared, t: nat, l: Local)
    requires Sized(g)
  {
    FreeListOk(c, g, t, l) && HandOk(c, g, t, l.pc) && TagOk(g, l.pc)
  }

  /** A list is where it says it is. */
  ghost predicate HomeAt(s: State, l: int)
    requires Sized(s.shared)
  {
    0 <= l < |s.shared.places| ==>
      match s.shared.places[l]
      case Stacked(h) => h < |s.shared.stack| && s.shared.stack[h] == l
      case LocalOf(t) => t < |s.threads| && s.threads[t].list == l
      case HandOf(t) => t < |s.threads| && Pushing(s.threads[t].pc) && s.threads[t].pc.hand == l
      case Gone => s.shared.lists[l] == []
  }

  /** Nodes are reserved in whole chunks, under the mutex. */
  ghost predicate ReservedOk(c: nat, s: State) {
    && |s.shared.next| == c * (s.shared.chunks + Sum(Made, s.threads))
    && Sum(HoldsMutex, s.threads) == Bit(s.shared.mutex)
  }

  ghost predicate Inv(c: nat, s: State) {
    && c > 0 && Sized(s.shared) && ListsOk(s.shared) && StackOk(c, s.shared)
    && (forall t :: 0 <= t < |s.threads| ==> LocalOk(c, s.shared, t, s.threads[t]))
    && (forall l :: HomeAt(s, l)) && ReservedOk(c, s)
  }

  // ---- taking a node ----

  lemma TakeKeepsLists(g: Shared, l: Local, g': Shared, l': Local)
    requires Sized(g) && ListsOk(g) && Takes(g, l, g', l') && l.head == HeadOf(g, l.list)
    ensures Sized(g') && ListsOk(g')
  {
    var k := |g.lists[l.list]| - 1;
    assert ListAt(g, l.list, k);
    forall m, j ensures ListAt(g', m, j) {
      assert ListAt(g, m, j);
    }
    forall x ensures OwnerAt(g', x) {
      assert OwnerAt(g, x);
    }
  }

  /** Lists other than the taker's own do not change, and neither do their nodes. */
  lemma TakeKeepsStack(c: nat, g: Shared, l: Local, g': Shared, l': Local)
    requires Sized(g) && StackOk(c, g) && Takes(g, l, g', l') && g.places[l.list].LocalOf?
    ensures Sized(g') && StackOk(c, g')
  {
    forall h ensures StackedAt(c, g', h) {
      assert StackedAt(c, g, h) && StackedAt(c, g, h - 1);
    }
    assert StackedAt(c, g, |g.stack| - 1);
  }

  lemma TakeKeepsSelf(c: nat, g: Shared, t: nat, l: Local, g': Shared, l': Local)
    requires Sized(g) && ListsOk(g) && FreeListOk(c, g, t, l) && Takes(g, l, g', l') && c > 0
    ensures Sized(g') && LocalOk(c, g', t, l')
  {
    var k := |g.lists[l.list]| - 1;
    assert ListAt(g, l.list, k) && ListAt(g, l.list, k - 1);
  }

  lemma TakeKeepsOther(c: nat, g: Shared, t: nat, l: Local, g': Shared, l': Local, u: nat, m: Local)
    requires Sized(g) && FreeListOk(c, g, t, l) && Takes(g, l, g', l') && LocalOk(c, g, u, m) && u != t
    ensures Sized(g') && LocalOk(c, g', u, m)
  {
  }

  // ---- giving a node back ----

  lemma GiveKeepsLists(g: Shared, l: Local, x: nat)
    requires Sized(g) && ListsOk(g) && x < |g.next| && g.owner[x] == InUse && l.list < |g.lists|
    requires l.head == HeadOf(g, l.list)
    ensures Sized(Given(g, l, x)) && ListsOk(Given(g, l, x))
  {
    var g' := Given(g, l, x);
    forall m, j ensures ListAt(g', m, j) {
      assert ListAt(g, m, j);
      if m == l.list && 0 <= m < |g.lists| {
        assert ListAt(g, m, |g.lists[m]| - 1);
      }
    }
    forall y ensures OwnerAt(g', y) {
      assert OwnerAt(g, y);
    }
  }

  lemma GiveKeepsStack(c: nat, g: Shared, l: Local, x: nat)
    requires Sized(g) && StackOk(c, g) && x < |g.next| && l.list < |g.lists| && g.places[l.list].LocalOf?
    ensures Sized(Given(g, l, x)) && StackOk(c, Given(g, l, x))
  {
    var g' := Given(g, l, x);
    forall h ensures StackedAt(c, g', h) {
      assert StackedAt(c, g, h) && StackedAt(c, g, h - 1);
    }
    assert StackedAt(c, g, |g.stack| - 1);
  }

  lemma GiveKeepsOther(c: nat, g: Shared, l: Local, x: nat, u: nat, m: Local)
    requires Sized(g) && x < |g.next| && l.list < |g.lists| && LocalOk(c, g, u, m)
    requires g.places[l.list].LocalOf? && g.places[l.list] != LocalOf(u)
    ensures Sized(Given(g, l, x)) && LocalOk(c, Given(g, l, x), u, m)
  {
  }

  lemma DetachKeepsShapes(c: nat, g: Shared, t: nat, k: nat)
    requires Sized(g) && ListsOk(g) && StackOk(c, g) && k < |g.lists| && g.places[k].LocalOf?
    ensures Sized(Detached(g, t, k)) && ListsOk(Detached(g, t, k)) && StackOk(c, Detached(g, t, k))
  {
    var g' := Detached(g, t, k);
    forall m, j ensures ListAt(g', m, j) {
      assert ListAt(g, m, j);
    }
    forall y ensures OwnerAt(g', y) {
      assert OwnerAt(g, y);
    }
    forall h ensures StackedAt(c, g', h) {
      assert StackedAt(c, g, h) && StackedAt(c, g, h - 1);
    }
    assert StackedAt(c, g, |g.stack| - 1);
  }

  lemma DetachKeepsOther(c: nat, g: Shared, t: nat, k: nat, u: nat, m: Local)
    requires Sized(g) && k < |g.lists| && g.places[k] == LocalOf(t) && u != t && LocalOk(c, g, u, m)
    ensures Sized(Detached(g, t, k)) && LocalOk(c, Detached(g, t, k), u, m)
  {
  }

  lemma GivesKeepsSelf(c: nat, g: Shared, t: nat, l: Local, x: nat, g': Shared, l': Local)
    requires Sized(g) && FreeListOk(c, g, t, l) && Gives(c, g, t, l, x, g', l') && c > 0
    ensures Sized(g') && LocalOk(c, g', t, l')
  {
  }

  // ---- popping a chunk ----

  /** The tag at work: if the CAS succeeds, the link that was read leads to the chunk below. */
  lemma PopFindsNextChunk(c: nat, g: Shared, pc: Pc)
    requires Sized(g) && StackOk(c, g) && TagOk(g, pc) && pc.PopRead? && g.top == Some(pc.node) && g.tag == pc.tag
    ensures |g.stack| > 0 && g.stack[|g.stack| - 1] < |g.lists|
    ensures HeadOf(g, g.stack[|g.stack| - 1]) == Some(pc.node) && |g.lists[g.stack[|g.stack| - 1]]| == c
    ensures pc.link == g.link[pc.node]
    ensures pc.link == if |g.stack| == 1 then None else HeadOf(g, g.stack[|g.stack| - 2])
  {
    assert StackedAt(c, g, |g.stack| - 1);
  }

  lemma PopKeepsLists(c: nat, g: Shared, t: nat, l: Local, g': Shared, l': Local)
    requires Sized(g) && ListsOk(g) && PopsChunk(c, g, t, l, g', l')
    ensures Sized(g') && ListsOk(g')
  {
    forall m, j ensures ListAt(g', m, j) {
      assert ListAt(g, m, j);
    }
    forall y ensures OwnerAt(g', y) {
      assert OwnerAt(g, y);
    }
  }

  lemma PopKeepsStack(c: nat, g: Shared, t: nat, l: Local, g': Shared, l': Local)
    requires Sized(g) && StackOk(c, g) && LocalOk(c, g, t, l) && l.pc.PopRead?
    requires g.top == Some(l.pc.node) && g.tag == l.pc.tag && PopsChunk(c, g, t, l, g', l')
    ensures Sized(g') && StackOk(c, g')
  {
    PopFindsNextChunk(c, g, l.pc);
    var n := |g.stack| - 1;
    assert StackedAt(c, g, n);
    forall h ensures StackedAt(c, g', h) {
      assert StackedAt(c, g, h) && StackedAt(c, g, h - 1);
    }
  }

  lemma PopKeepsSelf(c: nat, g: Shared, t: nat, l: Local, g': Shared, l': Local)
    requires Sized(g) && StackOk(c, g) && LocalOk(c, g, t, l) && l.pc.PopRead? && c > 0
    requires g.top == Some(l.pc.node) && g.tag == l.pc.tag && PopsChunk(c, g, t, l, g', l')
    ensures Sized(g') && LocalOk(c, g', t, l')
  {
    PopFindsNextChunk(c, g, l.pc);
  }

  lemma PopKeepsOther(c: nat, g: Shared, t: nat, l: Local, g': Shared, l': Local, u: nat, m: Local)
    requires Sized(g) && StackOk(c, g) && FreeListOk(c, g, t, l) && PopsChunk(c, g, t, l, g', l')
    requires LocalOk(c, g, u, m) && u != t
    ensures Sized(g') && LocalOk(c, g', u, m)
  {
    assert StackedAt(c, g, |g.stack| - 1);
  }

  // ---- pushing a chunk ----

  lemma PushKeepsLists(g: Shared, l: Local, g': Shared, l': Local)
    requires Sized(g) && ListsOk(g) && PushesChunk(g, l, g', l')
    ensures Sized(g') && ListsOk(g')
  {
    forall m, j ensures ListAt(g', m, j) {
      assert ListAt(g, m, j);
    }
    forall y ensures OwnerAt(g', y) {
      assert OwnerAt(g, y);
    }
  }

  lemma PushKeepsStack(c: nat, g: Shared, t: nat, l: Local, g': Shared, l': Local)
    requires Sized(g) && StackOk(c, g) && LocalOk(c, g, t, l) && PushesChunk(g, l, g', l')
    requires g.top == l.pc.seen && g.tag == l.pc.tag
    ensures Sized(g') && StackOk(c, g')
  {
    forall h ensures StackedAt(c, g', h) {
      assert StackedAt(c, g, h) && StackedAt(c, g, h - 1);
    }
  }

  lemma PushKeepsSelf(c: nat, g: Shared, t: nat, l: Local, g': Shared, l': Local)
    requires Sized(g) && LocalOk(c, g, t, l) && PushesChunk(g, l, g', l')
    ensures Sized(g') && LocalOk(c, g', t, l')
  {
  }

  lemma PushKeepsOther(c: nat, g: Shared, t: nat, l: Local, g': Shared, l': Local, u: nat, m: Local)
    requires Sized(g) && LocalOk(c, g, t, l) && PushesChunk(g, l, g', l') && LocalOk(c, g, u, m) && u != t
    ensures Sized(g') && LocalOk(c, g', u, m)
  {
  }

  /** The pusher writes only the link of the chunk in its hands. */
  lemma WriteLinkKeepsShapes(c: nat, g: Shared, t: nat, hand: nat, seen: Option<nat>, g': Shared)
    requires Sized(g) && ListsOk(g) && StackOk(c, g) && hand < |g.lists| && g.places[hand] == HandOf(t)
    requires HeadOf(g, hand).Some? && HeadOf(g, hand).value < |g.link|
    requires g' == g.(link := g.link[HeadOf(g, hand).value := seen])
    ensures Sized(g') && ListsOk(g') && StackOk(c, g')
  {
    assert ListAt(g, hand, |g.lists[hand]| - 1);
    forall m, j ensures ListAt(g', m, j) {
      assert ListAt(g, m, j);
    }
    forall y ensures OwnerAt(g', y) {
      assert OwnerAt(g, y);
    }
    forall h ensures StackedAt(c, g', h) {
      assert StackedAt(c, g, h);
      if 0 <= h < |g.stack| {
        assert ListAt(g, g.stack[h], |g.lists[g.stack[h]]| - 1);
      }
    }
  }

  lemma WriteLinkKeepsOther(c: nat, g: Shared, t: nat, hand: nat, seen: Option<nat>, g': Shared, u: nat, m: Local)
    requires Sized(g) && ListsOk(g) && StackOk(c, g) && hand < |g.lists| && g.places[hand] == HandOf(t)
    requires HeadOf(g, hand).Some? && HeadOf(g, hand).value < |g.link|
    requires g' == g.(link := g.link[HeadOf(g, hand).value := seen])
    requires LocalOk(c, g, u, m) && u != t
    ensures Sized(g') && LocalOk(c, g', u, m)
  {
    assert ListAt(g, hand, |g.lists[hand]| - 1);
    assert StackedAt(c, g, |g.stack| - 1);
    if g.stack != [] {
      assert ListAt(g, g.stack[|g.stack| - 1], c - 1);
    }
    if m.pc.PushCas? {
      assert ListAt(g, m.pc.hand, |g.lists[m.pc.hand]| - 1);
    }
  }

  // ---- users of the pool ----

  lemma UserKeepsShapes(c: nat, g: Shared, x: nat, next: Option<nat>, link: Option<nat>, g': Shared)
    requires Sized(g) && ListsOk(g) && StackOk(c, g) && x < |g.next| && g.owner[x] == InUse
    requires g' == g.(next := g.next[x := next], link := g.link[x := link])
    ensures Sized(g') && ListsOk(g') && StackOk(c, g')
  {
    forall m, j ensures ListAt(g', m, j) {
      assert ListAt(g, m, j);
    }
    forall y ensures OwnerAt(g', y) {
      assert OwnerAt(g, y);
    }
    forall h ensures StackedAt(c, g', h) {
      assert StackedAt(c, g, h);
      if 0 <= h < |g.stack| {
        assert ListAt(g, g.stack[h], |g.lists[g.stack[h]]| - 1);
      }
    }
  }

  lemma UserKeepsLocal(c: nat, g: Shared, x: nat, next: Option<nat>, link: Option<nat>, g': Shared, u: nat, m: Local)
    requires Sized(g) && ListsOk(g) && StackOk(c, g) && x < |g.next| && g.owner[x] == InUse
    requires g' == g.(next := g.next[x := next], link := g.link[x := link]) && LocalOk(c, g, u, m)
    ensures Sized(g') && LocalOk(c, g', u, m)
  {
    assert StackedAt(c, g, |g.stack| - 1);
    if g.stack != [] {
      assert ListAt(g, g.stack[|g.stack| - 1], c - 1);
    }
    if m.pc.PushCas? {
      assert ListAt(g, m.pc.hand, |g.lists[m.pc.hand]| - 1);
    }
  }

  // ---- reserving a chunk ----

  lemma MakeKeepsLists(c: nat, g: Shared, t: nat, l: Local, g': Shared, l': Local)
    requires Sized(g) && ListsOk(g) && MakesChunk(c, g, t, l, g', l')
    ensures Sized(g') && ListsOk(g')
  {
    var n := |g.next|;
    forall m, j ensures ListAt(g', m, j) {
      assert ListAt(g, m, j);
      if 0 <= m < |g.lists| && 0 <= j < |g.lists[m]| {
        assert g'.next[..n][g.lists[m][j]] == g'.next[g.lists[m][j]];
        assert g'.owner[..n][g.lists[m][j]] == g'.owner[g.lists[m][j]];
      }
    }
    forall y ensures OwnerAt(g', y) {
      if 0 <= y < n {
        assert OwnerAt(g, y);
        assert g'.owner[..n][y] == g'.owner[y];
      }
    }
  }

  lemma MakeKeepsStack(c: nat, g: Shared, t: nat, l: Local, g': Shared, l': Local)
    requires Sized(g) && StackOk(c, g) && MakesChunk(c, g, t, l, g', l')
    ensures Sized(g') && StackOk(c, g')
  {
    var n := |g.next|;
    forall h ensures StackedAt(c, g', h) {
      assert StackedAt(c, g, h) && StackedAt(c, g, h - 1);
      if 0 <= h < |g.stack| {
        var x := HeadOf(g, g.stack[h]).value;
        assert g'.link[..n][x] == g'.link[x];
      }
    }
    assert StackedAt(c, g, |g.stack| - 1);
  }

  lemma MakeKeepsLocal(c: nat, g: Shared, t: nat, l: Local, g': Shared, l': Local, u: nat, m: Local)
    requires Sized(g) && MakesChunk(c, g, t, l, g', l') && LocalOk(c, g, u, m)
    ensures Sized(g') && LocalOk(c, g', u, m)
  {
    var n := |g.next|;
    if m.pc.PopRead? {
      assert g'.link[..n][m.pc.node] == g'.link[m.pc.node];
    }
    if m.pc.PushCas? {
      assert g'.link[..n][HeadOf(g, m.pc.hand).value] == g'.link[HeadOf(g, m.pc.hand).value];
    }
  }
}
