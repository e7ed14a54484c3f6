/** The sub-queue and the pool as one thread after another uses them: a bitmap of 64 bits over 64
    stacks, the local slot, and the choice between two sub-queues. */
module WeakPoolClass {
  import opened Options
  import opened WeakPoolProtocol

  /** Nothing is stored below level p. */
  ghost predicate EmptyBelow(stacks: seq<seq<Operation>>, p: nat) {
    forall i :: 0 <= i < p && i < |stacks| ==> stacks[i] == []
  }

  function OnTop(stacks: seq<seq<Operation>>, task: Task): seq<seq<Operation>>
    requires task.priority < |stacks|
  {
    stacks[task.priority := stacks[task.priority] + [task.op]]
  }

  /** The stacks after the operation on top of level p was taken off. */
  function WithoutTop(stacks: seq<seq<Operation>>, p: nat): seq<seq<Operation>>
    requires p < |stacks| && stacks[p] != []
  {
    stacks[p := stacks[p][..|stacks[p]| - 1]]
  }

  class SubQueueObject {
    const slots: array<seq<Operation>>
    var bitmap: seq<bool>

    ghost predicate Valid()
      reads this, slots
    {
      && slots.Length == |bitmap| == LEVELS
      && forall p :: 0 <= p < LEVELS ==> (bitmap[p] <==> slots[p] != [])
    }

    constructor ()
      ensures Valid() && fresh(slots) && EmptyBelow(slots[..], LEVELS)
    {
      slots := new seq<Operation>[LEVELS](_ => []);
      bitmap := seq(LEVELS, _ => false);
    }

    method Push(op: Operation, p: nat)
      requires Valid() && p < LEVELS
      modifies this, slots
      ensures Valid() && slots[..] == OnTop(old(slots[..]), Task(op, p))
    {
      slots[p] := slots[p] + [op];
      bitmap := bitmap[p := true];
    }

    /** countr_zero: the lowest set bit, LEVELS if there is none. */
    method LowestBit() returns (p: nat)
      requires Valid()
      ensures p <= LEVELS && EmptyBelow(slots[..], p) && (p < LEVELS ==> bitmap[p] && slots[p] != [])
    {
      p := 0;
      while p < LEVELS && !bitmap[p]
        invariant p <= LEVELS && EmptyBelow(slots[..], p)
      {
        p := p + 1;
      }
    }

    /** The last operation of the lowest-numbered non-empty level. */
    method TryPop() returns (r: Option<Operation>, ghost p: nat)
      requires Valid()
      modifies this, slots
      ensures Valid() && p <= LEVELS
      ensures EmptyBelow(old(slots[..]), p)
      ensures p == LEVELS ==> r == None && slots[..] == old(slots[..])
      ensures p < LEVELS ==>
                old(slots[p]) != [] && r == Some(Last(old(slots[p]))) && slots[..] == WithoutTop(old(slots[..]), p)
    {
      var pri := LowestBit();
      p := pri;
      if pri == LEVELS {
        return None, p;
      }
      var stack := slots[pri];
      r := Some(stack[|stack| - 1]);
      slots[pri] := stack[..|stack| - 1];
      if slots[pri] == [] {
        bitmap := bitmap[pri := false];
      }
    }
  }

  /** The pool with its worker's local slot; kept is that slot. */
  class WeakPriorityThreadPool {
    const subs: seq<SubQueueObject>
    var kept: Option<Task>
    var permits: nat

    ghost predicate Valid()
      reads this, set q | q in subs, set q | q in subs :: q.slots
    {
      && |subs| >= 2 && (forall i :: 0 <= i < |subs| ==> subs[i].Valid())
      && (forall i, j :: 0 <= i < j < |subs| ==> subs[i] != subs[j] && subs[i].slots != subs[j].slots)
      && (kept.Some? ==> kept.value.priority < LEVELS)
    }

    constructor (n: nat)
      requires n >= 2
      ensures Valid() && |subs| == n && kept == None && permits == 0
      ensures forall i :: 0 <= i < n ==> EmptyBelow(subs[i].slots[..], LEVELS)
    {
      var made: seq<SubQueueObject> := [];
      while |made| < n
        invariant |made| <= n
        invariant forall i :: 0 <= i < |made| ==> fresh(made[i]) && fresh(made[i].slots) && made[i].Valid()
        invariant forall i :: 0 <= i < |made| ==> EmptyBelow(made[i].slots[..], LEVELS)
        invariant forall i, j :: 0 <= i < j < |made| ==> made[i] != made[j] && made[i].slots != made[j].slots
      {
        var q := new SubQueueObject();
        made := made + [q];
      }
      subs, kept, permits := made, None, 0;
    }

    /** A worker keeps the more urgent of the new operation and the one in its slot; what it does not
        keep goes to the sub-queue that was drawn and is signalled. A priority of 64 or more is
        refused. */
    method EnqueueOperation(op: Operation, priority: nat, worker: bool, q: nat) returns (ok: bool)
      requires Valid() && q < |subs|
      modifies this, subs[q], subs[q].slots
      ensures Valid() && ok == (priority < LEVELS)
      ensures !ok ==> unchanged(this) && unchanged(subs[q]) && unchanged(subs[q].slots)
      ensures ok && worker && old(kept).None? ==>
                kept == Some(Task(op, priority)) && permits == old(permits) && unchanged(subs[q].slots)
      ensures ok && !(worker && old(kept).None?) ==>
                var evicts := worker && priority < old(kept).value.priority;
                var given := if evicts then old(kept).value else Task(op, priority);
                && kept == (if evicts then Some(Task(op, priority)) else old(kept)) && permits == old(permits) + 1
                && subs[q].slots[..] == OnTop(old(subs[q].slots[..]), given)
    {
      if priority >= LEVELS {
        return false;
      }
      var task := Task(op, priority);
      if worker {
        if kept.None? {
          kept := Some(task);
          return true;
        }
        if priority < kept.value.priority {
          var evicted := kept.value;
          kept := Some(task);
          task := evicted;
        }
      }
      subs[q].Push(task.op, task.priority);
      permits := permits + 1;
      return true;
    }

    /** The second draw, moved on by one if it is the first again. */
    function Second(a: nat, b: nat): (r: nat)
      requires a < |subs| && b < |subs| && |subs| >= 2
      ensures r < |subs| && r != a
    {
      if b == a then (if b + 1 == |subs| then 0 else b + 1) else b
    }

    /** Of the two sub-queues drawn, the one whose lowest level is lower is popped: what comes out is at
        least as urgent as anything left in either, and something comes out if either holds anything. */
    method TryDequeueOperation(a: nat, b: nat) returns (r: Option<Operation>, ghost p: nat)
      requires Valid() && a < |subs| && b < |subs|
      modifies subs[a], subs[a].slots, subs[Second(a, b)], subs[Second(a, b)].slots
      ensures Valid() && kept == old(kept) && permits == old(permits) && p <= LEVELS
      ensures var one, two := subs[a], subs[Second(a, b)];
              && EmptyBelow(old(one.slots[..]), p) && EmptyBelow(old(two.slots[..]), p)
              && (r == None <==> p == LEVELS)
              && (p < LEVELS ==>
                    || (old(one.slots[p]) != [] && r == Some(Last(old(one.slots[p]))) && unchanged(two.slots)
                        && one.slots[..] == WithoutTop(old(one.slots[..]), p))
                    || (old(two.slots[p]) != [] && r == Some(Last(old(two.slots[p]))) && unchanged(one.slots)
                        && two.slots[..] == WithoutTop(old(two.slots[..]), p)))
    {
      var one, two := subs[a], subs[Second(a, b)];
      var lowest := one.LowestBit();
      var other := two.LowestBit();
      if lowest == LEVELS && other == LEVELS {
        return None, LEVELS;
      }
      if lowest == LEVELS || (other != LEVELS && other < lowest) {
        r, p := two.TryPop();
      } else {
        r, p := one.TryPop();
      }
    }
  }
}
