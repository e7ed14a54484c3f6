/** Singly linked lists in a memory of links: a node is an index, and next[x] is its link. */
module LinkedMemory {
  import opened Options

  ghost predicate Distinct(nodes: seq<nat>) {
    forall i, j :: 0 <= i < j < |nodes| ==> nodes[i] != nodes[j]
  }

  /** Node i of the list points to the next one, and the last one to null. */
  ghost predicate LinkedAt(next: seq<Option<nat>>, nodes: seq<nat>, i: int) {
    0 <= i < |nodes| ==>
      nodes[i] < |next| && next[nodes[i]] == (if i + 1 < |nodes| then Some(nodes[i + 1]) else None)
  }

  ghost predicate Linked(next: seq<Option<nat>>, nodes: seq<nat>) {
    forall i :: LinkedAt(next, nodes, i)
  }

  function First(nodes: seq<nat>): Option<nat> {
    if nodes == [] then None else Some(nodes[0])
  }

  lemma WriteElsewhere(next: seq<Option<nat>>, nodes: seq<nat>, x: nat, link: Option<nat>)
    requires Linked(next, nodes) && x < |next| && x !in nodes
    ensures Linked(next[x := link], nodes)
  {
    var next' := next[x := link];
    forall i ensures LinkedAt(next', nodes, i) {
      assert LinkedAt(next, nodes, i);
    }
  }

  /** Taking the first node off a list. */
  lemma Unlink(next: seq<Option<nat>>, nodes: seq<nat>)
    requires Linked(next, nodes) && nodes != [] && Distinct(nodes)
    ensures nodes[0] < |next| && next[nodes[0]] == First(nodes[1..]) && nodes[0] !in nodes[1..]
    ensures Linked(next, nodes[1..]) && Distinct(nodes[1..])
  {
    assert LinkedAt(next, nodes, 0);
    forall i ensures LinkedAt(next, nodes[1..], i) {
      assert LinkedAt(next, nodes, i + 1);
    }
  }

  /** Putting a node in front of a list. */
  lemma LinkFront(next: seq<Option<nat>>, nodes: seq<nat>, x: nat)
    requires Linked(next, nodes) && x < |next| && x !in nodes && Distinct(nodes)
    ensures Linked(next[x := First(nodes)], [x] + nodes) && Distinct([x] + nodes)
  {
    var next', all := next[x := First(nodes)], [x] + nodes;
    forall i ensures LinkedAt(next', all, i) {
      assert LinkedAt(next, nodes, i - 1);
    }
  }

  /** New nodes are in no list. */
  lemma NewNodes(next: seq<Option<nat>>, nodes: seq<nat>, more: seq<Option<nat>>)
    requires Linked(next, nodes)
    ensures Linked(next + more, nodes) && forall x :: x in nodes ==> x < |next|
  {
    forall i ensures LinkedAt(next + more, nodes, i) && (0 <= i < |nodes| ==> nodes[i] < |next|) {
      assert LinkedAt(next, nodes, i);
    }
  }

  /** Linking one list behind another. */
  lemma Append(next: seq<Option<nat>>, nodes: seq<nat>, more: seq<nat>)
    requires Linked(next, nodes) && Linked(next, more) && Distinct(nodes) && Distinct(more)
    requires nodes != [] && more != [] && forall x :: x in more ==> x !in nodes
    ensures nodes[|nodes| - 1] < |next|
    ensures Linked(next[nodes[|nodes| - 1] := Some(more[0])], nodes + more) && Distinct(nodes + more)
  {
    assert LinkedAt(next, nodes, |nodes| - 1);
    var next', all := next[nodes[|nodes| - 1] := Some(more[0])], nodes + more;
    forall i ensures LinkedAt(next', all, i) {
      assert LinkedAt(next, nodes, i) && LinkedAt(next, more, i - |nodes|);
      if |nodes| <= i < |all| {
        assert more[i - |nodes|] in more;
      }
    }
    forall i, j | 0 <= i < j < |all| ensures all[i] != all[j] {
      if i < |nodes| <= j {
        assert all[j] in more;
      }
    }
  }
}
