/** What a multi-producer single-consumer mailbox promises, in terms of places.

    A push first claims the next place (the ring's CAS, the linked queue's exchange of its
    head) and later makes the place visible (the ring's sequence store, the linked queue's
    link). A pop succeeds only if the oldest unpopped place is visible, so it may report
    empty although a later push is complete. */
module Mailbox {

  datatype Box<T> = Box(claimed: seq<T>, visible: set<nat>, popped: nat)

  ghost predicate Valid<T>(b: Box<T>) {
    && b.popped <= |b.claimed|
    && (forall p :: p in b.visible ==> p < |b.claimed|)
    && (forall p :: 0 <= p < b.popped ==> p in b.visible)
  }

  function Fresh<T>(): Box<T> {
    Box([], {}, 0)
  }

  function Claim<T>(b: Box<T>, v: T): Box<T> {
    b.(claimed := b.claimed + [v])
  }

  /** The place p is one of n places from lo on, and not the first of them. */
  predicate Behind(lo: nat, n: nat, p: nat) {
    lo < p < lo + n
  }

  /** A bulk push: its places are contiguous, and only the first still has to be made visible. */
  function ClaimAll<T>(b: Box<T>, vs: seq<T>): Box<T> {
    Box(b.claimed + vs, b.visible + (set p: nat | p < |b.claimed| + |vs| && Behind(|b.claimed|, |vs|, p)), b.popped)
  }

  function Publish<T>(b: Box<T>, p: nat): Box<T> {
    b.(visible := b.visible + {p})
  }

  predicate HeadVisible<T>(b: Box<T>) {
    b.popped < |b.claimed| && b.popped in b.visible
  }

  function Pop<T>(b: Box<T>): Box<T> {
    b.(popped := b.popped + 1)
  }

  function Unpopped<T>(b: Box<T>): int {
    |b.claimed| - b.popped
  }

  /** One step of the abstract mailbox; concrete queues refine this relation up to stuttering. */
  ghost predicate Next<T(!new)>(b: Box<T>, b': Box<T>) {
    || b' == b
    || (exists v :: b' == Claim(b, v))
    || (exists vs :: |vs| > 0 && b' == ClaimAll(b, vs))
    || (exists p: nat :: p < |b.claimed| && b' == Publish(b, p))
    || (HeadVisible(b) && b' == Pop(b))
  }
}
