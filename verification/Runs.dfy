/** Runs of a step system, and the two inductions over them. */
module Runs {

  datatype System<!S> = System(init: S -> bool, next: (S, S) -> bool)

  ghost predicate IsRun<S(!new)>(m: System<S>, run: seq<S>) {
    && |run| > 0 && m.init(run[0])
    && forall i, j :: 0 <= i && j == i + 1 < |run| ==> m.next(run[i], run[j])
  }

  function Last<S>(run: seq<S>): S
    requires run != []
  {
    run[|run| - 1]
  }

  /** A run that goes on by one step. */
  lemma OneMore<S(!new)>(m: System<S>, run: seq<S>, s': S)
    requires IsRun(m, run) && m.next(Last(run), s')
    ensures IsRun(m, run + [s'])
  {
    var more := run + [s'];
    forall i, j | 0 <= i && j == i + 1 < |more| ensures m.next(more[i], more[j]) {
      if j < |run| {
        assert m.next(run[i], run[j]);
      }
    }
  }

  /** The run can go on with these states, which lead to state s. */
  ghost predicate Leads<S(!new)>(m: System<S>, run: seq<S>, more: seq<S>, s: S) {
    run != [] && more != [] && IsRun(m, run + more) && Last(more) == s
  }

  lemma GoOn<S(!new)>(m: System<S>, run: seq<S>, first: seq<S>, s: S, s': S) returns (more: seq<S>)
    requires Leads(m, run, first, s) && m.next(s, s')
    ensures Leads(m, run, more, s')
  {
    OneMore(m, run + first, s');
    more := first + [s'];
    assert run + more == run + first + [s'];
  }

  ghost predicate Inductive<S(!new)>(m: System<S>, inv: S -> bool) {
    && (forall s :: m.init(s) ==> inv(s))
    && (forall s, s' :: inv(s) && m.next(s, s') ==> inv(s'))
  }

  /** An inductive predicate holds in every state of every run. */
  lemma {:induction false} Invariant<S(!new)>(m: System<S>, inv: S -> bool, run: seq<S>, i: nat)
    requires IsRun(m, run) && Inductive(m, inv) && i < |run|
    ensures inv(run[i])
  {
    if i > 0 {
      Invariant(m, inv, run, i - 1);
    }
  }

  ghost predicate Order<S(!new)>(rel: (S, S) -> bool) {
    && (forall s :: rel(s, s))
    && (forall r, s, t :: rel(r, s) && rel(s, t) ==> rel(r, t))
  }

  /** A preorder that every step respects relates every state of a run to every later one. */
  lemma {:induction false} Monotone<S(!new)>(m: System<S>, inv: S -> bool, rel: (S, S) -> bool,
                                             run: seq<S>, i: nat, j: nat)
    requires IsRun(m, run) && Inductive(m, inv) && Order(rel) && i <= j < |run|
    requires forall s, s' :: inv(s) && m.next(s, s') ==> rel(s, s')
    ensures rel(run[i], run[j])
  {
    if i < j {
      Monotone(m, inv, rel, run, i, j - 1);
      Invariant(m, inv, run, j - 1);
    }
  }
}
