/** The actor as one thread after another uses it: its fields, and the drain loop. */
module ActorClass {
  import opened Numbers

  type Message = nat

  /** The messages of all mailboxes, in the order in which an activation visits them. */
  function Flatten(boxes: seq<seq<Message>>): seq<Message> {
    if boxes == [] then [] else boxes[0] + Flatten(boxes[1..])
  }

  lemma {:induction false} FlattenPush(boxes: seq<seq<Message>>, b: nat, m: Message)
    requires b < |boxes|
    ensures |Flatten(boxes[b := boxes[b] + [m]])| == |Flatten(boxes)| + 1
  {
    if b > 0 {
      FlattenPush(boxes[1..], b - 1, m);
      assert boxes[b := boxes[b] + [m]][1..] == boxes[1..][b - 1 := boxes[b] + [m]];
    }
  }

  /** Popping the first non-empty mailbox takes the first message of all. */
  lemma {:induction false} FlattenPop(boxes: seq<seq<Message>>, b: nat)
    requires b < |boxes| && boxes[b] != [] && forall i :: 0 <= i < b ==> boxes[i] == []
    ensures Flatten(boxes) == [boxes[b][0]] + Flatten(boxes[b := boxes[b][1..]])
  {
    var rest := boxes[b := boxes[b][1..]];
    if b > 0 {
      FlattenPop(boxes[1..], b - 1);
      assert rest[1..] == boxes[1..][b - 1 := boxes[b][1..]];
    } else {
      assert boxes[0] == [boxes[0][0]] + boxes[0][1..];
    }
  }

  lemma {:induction false} FlattenEmpty(boxes: seq<seq<Message>>)
    requires forall i :: 0 <= i < |boxes| ==> boxes[i] == []
    ensures Flatten(boxes) == []
  {
    if boxes != [] {
      FlattenEmpty(boxes[1..]);
    }
  }

  class Actor {
    const capacities: seq<nat>          // 0 for an unbounded mailbox
    const maxPerActivation: nat
    var mailboxes: seq<seq<Message>>
    var pendingCount: nat
    var activated: bool
    var destroyRequested: bool
    var alive: bool
    var scheduled: nat                  // activations handed to the scheduler
    var executed: seq<Message>          // what Execute was called on

    /** The counter counts the waiting messages and the destroy request; a living actor with
        anything pending is scheduled, once. */
    ghost predicate Valid()
      reads this
    {
      && |mailboxes| == |capacities| >= 1
      && (forall b :: 0 <= b < |mailboxes| ==> capacities[b] == 0 || |mailboxes[b]| <= capacities[b])
      && pendingCount == |Flatten(mailboxes)| + Bit(alive && destroyRequested)
      && (alive ==> scheduled == Bit(activated) == Bit(pendingCount > 0))
      && (!alive ==> destroyRequested && scheduled <= Bit(activated))
    }

    constructor (capacities: seq<nat>, maxPerActivation: nat)
      requires |capacities| >= 1
      ensures Valid() && alive && !destroyRequested && executed == []
      ensures this.capacities == capacities && this.maxPerActivation == maxPerActivation
      ensures Flatten(mailboxes) == []
    {
      this.capacities, this.maxPerActivation := capacities, maxPerActivation;
      mailboxes := seq(|capacities|, _ => []);
      pendingCount, activated, destroyRequested, alive, scheduled, executed := 0, false, false, true, 0, [];
      new;
      FlattenEmpty(mailboxes);
    }

    method TryActivate()
      modifies this`activated, this`scheduled
      ensures activated && scheduled == old(scheduled) + Bit(!old(activated))
    {
      if !activated {
        activated := true;
        scheduled := scheduled + 1;
      }
    }

    /** A full mailbox throws: ok is false, and nothing has changed. */
    method PushMessage(b: nat, m: Message) returns (ok: bool)
      requires Valid() && b < |mailboxes|
      modifies this
      ensures Valid() && executed == old(executed) && alive == old(alive) && destroyRequested == old(destroyRequested)
      ensures ok == (capacities[b] == 0 || |old(mailboxes)[b]| < capacities[b])
      ensures mailboxes == if ok then old(mailboxes)[b := old(mailboxes)[b] + [m]] else old(mailboxes)
      ensures ok && alive ==> activated && scheduled == 1
    {
      if capacities[b] != 0 && |mailboxes[b]| >= capacities[b] {
        return false;
      }
      FlattenPush(mailboxes, b, m);
      mailboxes := mailboxes[b := mailboxes[b] + [m]];
      pendingCount := pendingCount + 1;
      TryActivate();
      return true;
    }

    method AsyncDestroy()
      requires Valid()
      modifies this`destroyRequested, this`pendingCount, this`activated, this`scheduled
      ensures Valid() && destroyRequested && mailboxes == old(mailboxes) && executed == old(executed)
      ensures alive ==> activated && scheduled == 1
    {
      if destroyRequested {
        return;
      }
      destroyRequested := true;
      pendingCount := pendingCount + 1;
      TryActivate();
    }

    /** The drain loop: mailboxes in index order, each until it is empty, up to the limit. */
    method Drain(limit: nat) returns (done: nat)
      requires |mailboxes| >= 1
      modifies this`mailboxes, this`executed
      ensures |mailboxes| == |old(mailboxes)|
      ensures forall b :: 0 <= b < |mailboxes| ==> |mailboxes[b]| <= |old(mailboxes)[b]|
      ensures done == Min(|Flatten(old(mailboxes))|, Max(1, limit))
      ensures executed == old(executed) + Flatten(old(mailboxes))[..done]
      ensures Flatten(mailboxes) == Flatten(old(mailboxes))[done..]
    {
      done := 0;
      ghost var all := Flatten(mailboxes);
      var limitReached, b := false, 0;
      while b < |mailboxes| && !limitReached
        invariant |mailboxes| == |old(mailboxes)| && b <= |mailboxes| && done <= |all|
        invariant forall i :: 0 <= i < |mailboxes| ==> |mailboxes[i]| <= |old(mailboxes)[i]|
        invariant executed == old(executed) + all[..done] && Flatten(mailboxes) == all[done..]
        invariant if limitReached then done == Max(1, limit)
                  else (done == 0 || done < limit) && forall i :: 0 <= i < b ==> mailboxes[i] == []
        decreases |mailboxes| - b, !limitReached
      {
        while mailboxes[b] != []
          invariant |mailboxes| == |old(mailboxes)| && b < |mailboxes| && done <= |all|
          invariant forall i :: 0 <= i < |mailboxes| ==> |mailboxes[i]| <= |old(mailboxes)[i]|
          invariant executed == old(executed) + all[..done] && Flatten(mailboxes) == all[done..]
          invariant (done == 0 || done < limit) && !limitReached
          invariant forall i :: 0 <= i < b ==> mailboxes[i] == []
          decreases |mailboxes[b]|
        {
          FlattenPop(mailboxes, b);
          var message := mailboxes[b][0];
          mailboxes := mailboxes[b := mailboxes[b][1..]];
          assert all[done..] == [message] + Flatten(mailboxes);
          assert all[..done] + [message] == all[..done + 1];
          executed := executed + [message];
          done := done + 1;
          if done >= limit {
            limitReached := true;
            break;
          }
        }
        b := b + 1;
      }
      if !limitReached {
        FlattenEmpty(mailboxes);
      }
    }

    /** One activation: it executes the first messages in visiting order, or destroys the instance if
        that was asked for, or finds it gone; and it leaves an actor with work to do scheduled. */
    method PullMailboxAndRun()
      requires Valid() && scheduled > 0
      modifies this
      ensures Valid() && destroyRequested == old(destroyRequested)
      ensures alive == (old(alive) && !old(destroyRequested))
      ensures !alive ==> mailboxes == old(mailboxes) && executed == old(executed)
      ensures alive ==>
                var all, n := Flatten(old(mailboxes)), Min(|Flatten(old(mailboxes))|, Max(1, maxPerActivation));
                executed == old(executed) + all[..n] && Flatten(mailboxes) == all[n..]
    {
      scheduled := scheduled - 1;
      if !alive {
        return;
      }
      if destroyRequested {
        alive := false;
        activated := false;
        pendingCount := pendingCount - 1;
        return;
      }
      var limit := Min(maxPerActivation, pendingCount);
      var done := Drain(limit);
      pendingCount := pendingCount - done;
      activated := false;
      if pendingCount > 0 {
        TryActivate();
      }
    }
  }
}
