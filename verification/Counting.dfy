/** Sums over sequences, used to count threads at a program point and items in containers. */
module Counting {

  function Sum<T>(f: T -> int, s: seq<T>): int {
    if s == [] then 0 else f(s[0]) + Sum(f, s[1..])
  }

  lemma {:induction false} SumUpdate<T>(f: T -> int, s: seq<T>, i: nat, v: T)
    requires i < |s|
    ensures Sum(f, s[i := v]) == Sum(f, s) - f(s[i]) + f(v)
  {
    var u := s[i := v];
    if i == 0 {
      assert u[1..] == s[1..];
    } else {
      assert u[1..] == s[1..][i - 1 := v];
      SumUpdate(f, s[1..], i - 1, v);
    }
  }

  lemma {:induction false} SumAppend<T>(f: T -> int, s: seq<T>, v: T)
    ensures Sum(f, s + [v]) == Sum(f, s) + f(v)
  {
    if s == [] {
      assert s + [v] == [v];
      assert Sum(f, [v]) == f(v) + Sum(f, []);
    } else {
      assert (s + [v])[1..] == s[1..] + [v];
      SumAppend(f, s[1..], v);
    }
  }

  lemma {:induction false} SumConcat<T>(f: T -> int, s: seq<T>, t: seq<T>)
    ensures Sum(f, s + t) == Sum(f, s) + Sum(f, t)
  {
    if s == [] {
      assert s + t == t;
    } else {
      assert (s + t)[1..] == s[1..] + t;
      SumConcat(f, s[1..], t);
    }
  }

  ghost predicate Positive<T>(f: T -> int, s: seq<T>) {
    forall i :: 0 <= i < |s| ==> f(s[i]) >= 0
  }

  /** A sum of non-negative terms is at least each of its terms. */
  lemma {:induction false} SumAtLeast<T>(f: T -> int, s: seq<T>, i: nat)
    requires i < |s| && Positive(f, s)
    ensures Sum(f, s) >= f(s[i])
  {
    SumNonNegative(f, s[1..]);
    if i > 0 {
      SumAtLeast(f, s[1..], i - 1);
    }
  }

  lemma {:induction false} SumNonNegative<T>(f: T -> int, s: seq<T>)
    requires Positive(f, s)
    ensures Sum(f, s) >= 0
  {
    if s != [] {
      SumNonNegative(f, s[1..]);
    }
  }

  /** A sum of non-negative terms is at least the sum of any two of them. */
  lemma {:induction false} SumAtLeastTwo<T>(f: T -> int, s: seq<T>, i: nat, j: nat)
    requires i < j < |s| && Positive(f, s)
    ensures Sum(f, s) >= f(s[i]) + f(s[j])
  {
    if i == 0 {
      SumAtLeast(f, s[1..], j - 1);
    } else {
      SumAtLeastTwo(f, s[1..], i - 1, j - 1);
    }
  }

  lemma {:induction false} SumZero<T>(f: T -> int, s: seq<T>)
    requires forall i :: 0 <= i < |s| ==> f(s[i]) == 0
    ensures Sum(f, s) == 0
  {
    if s != [] {
      SumZero(f, s[1..]);
    }
  }

  /** A non-zero sum has a non-zero term. */
  lemma {:induction false} SumWitness<T>(f: T -> int, s: seq<T>) returns (i: nat)
    requires Sum(f, s) != 0
    ensures i < |s| && f(s[i]) != 0
  {
    if f(s[0]) != 0 {
      i := 0;
    } else {
      i := SumWitness(f, s[1..]);
      i := i + 1;
    }
  }

  lemma {:induction false} SumMonotone<T>(f: T -> int, g: T -> int, s: seq<T>)
    requires forall i :: 0 <= i < |s| ==> f(s[i]) <= g(s[i])
    ensures Sum(f, s) <= Sum(g, s)
  {
    if s != [] {
      SumMonotone(f, g, s[1..]);
    }
  }

  lemma {:induction false} SumPointwise<T>(f: T -> int, s: seq<T>, t: seq<T>)
    requires |s| == |t| && forall i :: 0 <= i < |s| ==> f(s[i]) <= f(t[i])
    ensures Sum(f, s) <= Sum(f, t)
  {
    if s != [] {
      SumPointwise(f, s[1..], t[1..]);
    }
  }

  /** The sum over one more element of a sequence. */
  lemma SumNext<T>(f: T -> int, s: seq<T>, i: nat)
    requires i < |s|
    ensures Sum(f, s[..i + 1]) == Sum(f, s[..i]) + f(s[i])
  {
    assert s[..i + 1] == s[..i] + [s[i]];
    SumAppend(f, s[..i], s[i]);
  }

  function Is<T(==)>(x: T): T -> int {
    (y: T) => if y == x then 1 else 0
  }

  /** How often x occurs in a sequence. */
  function Times<T(==)>(x: T, s: seq<T>): int {
    Sum(Is(x), s)
  }

  lemma IsOne<T>(x: T, y: T)
    ensures Is(x)(y) == if y == x then 1 else 0
  {
  }

  lemma TimesAppend<T>(x: T, s: seq<T>, y: T)
    ensures Times(x, s + [y]) == Times(x, s) + if y == x then 1 else 0
  {
    SumAppend(Is(x), s, y);
  }

  lemma TimesLast<T>(x: T, s: seq<T>)
    requires s != []
    ensures Times(x, s) == Times(x, s[..|s| - 1]) + if s[|s| - 1] == x then 1 else 0
  {
    assert s == s[..|s| - 1] + [s[|s| - 1]];
    TimesAppend(x, s[..|s| - 1], s[|s| - 1]);
  }

  lemma TimesAtLeast<T>(x: T, s: seq<T>)
    ensures Times(x, s) >= 0 && (x in s ==> Times(x, s) >= 1)
  {
    forall i | 0 <= i < |s| ensures Is(x)(s[i]) >= 0 {
      IsOne(x, s[i]);
    }
    SumNonNegative(Is(x), s);
    if x in s {
      var i :| 0 <= i < |s| && s[i] == x;
      SumAtLeast(Is(x), s, i);
    }
  }
}
