/** Positions of a ring: an integer reduced to 0 .. n by whole rounds. */
module Modular {
  import Division

  function Wrap(a: int, n: nat): (r: nat)
    requires n > 0
    ensures r < n
    decreases if a < 0 then n - a else a
  {
    if a < 0 then Wrap(a + n, n) else if a < n then a else Wrap(a - n, n)
  }

  /** This is the remainder, and pos & (n - 1) if n is a power of two. */
  lemma {:induction false} WrapIsRemainder(a: int, n: nat)
    requires n > 0
    ensures Wrap(a, n) == a % n
    decreases if a < 0 then n - a else a
  {
    if a < 0 {
      WrapIsRemainder(a + n, n);
      Division.OneRound(a, n);
    } else if a >= n {
      WrapIsRemainder(a - n, n);
      Division.OneRound(a - n, n);
    } else {
      Division.InRange(a, n);
    }
  }

  lemma OneRoundLater(p: int, n: nat)
    requires n > 0
    ensures Wrap(p + n, n) == Wrap(p, n)
  {
  }

  /** Two positions less than n apart are different positions of the ring. */
  lemma {:induction false} NeighboursDiffer(p: int, q: int, n: nat)
    requires n > 0 && p < q < p + n
    ensures Wrap(p, n) != Wrap(q, n)
    decreases if p < 0 then n - p else p
  {
    if p < 0 {
      OneRoundLater(p, n);
      OneRoundLater(q, n);
      NeighboursDiffer(p + n, q + n, n);
    } else if p >= n {
      OneRoundLater(p - n, n);
      OneRoundLater(q - n, n);
      NeighboursDiffer(p - n, q - n, n);
    } else if q >= n {
      OneRoundLater(q - n, n);
    }
  }

  /** Reducing one term of a sum first does not change the reduced sum. */
  lemma {:induction false} ReduceFirst(a: int, d: int, n: nat)
    requires n > 0
    ensures Wrap(Wrap(a, n) + d, n) == Wrap(a + d, n)
    decreases if a < 0 then n - a else a
  {
    if a < 0 {
      ReduceFirst(a + n, d, n);
      OneRoundLater(a + d, n);
    } else if a >= n {
      ReduceFirst(a - n, d, n);
      OneRoundLater(a - n + d, n);
    }
  }

  /** Reducing to twice the size first does not change the reduction. */
  lemma {:induction false} CoarserModulus(x: int, n: nat)
    requires n > 0
    ensures Wrap(Wrap(x, 2 * n), n) == Wrap(x, n)
    decreases if x < 0 then 2 * n - x else x
  {
    if x < 0 {
      CoarserModulus(x + 2 * n, n);
      OneRoundLater(x, n);
      OneRoundLater(x + n, n);
    } else if x >= 2 * n {
      CoarserModulus(x - 2 * n, n);
      OneRoundLater(x - n, n);
      OneRoundLater(x - 2 * n, n);
    }
  }
}
