/** The lightweight semaphore and the blocking queue as one thread after another uses them: their
    fields, the CAS loops, and the loops that spin on the queue after a wait. */
module BlockingQueueClass {
  import opened Numbers
  import opened Options

  /** The semaphore between the steps of its waiters: registered counts the waits that lowered the
      count and have neither been woken nor given up. */
  class LightweightSemaphore {
    var count: int
    var os: nat                 // value of the OS semaphore
    ghost var registered: nat

    ghost predicate Valid()
      reads this
    {
      registered == os + Pos(-count)
    }

    /** Permits to be had: in the count, or released to a registered wait. */
    ghost function Permits(): nat
      reads this
    {
      Pos(count) + os
    }

    constructor (initial: nat)
      ensures Valid() && registered == 0 && Permits() == initial
    {
      count, os, registered := initial, 0, 0;
    }

    /** Takes as many permits from the count as there are, up to max; the weak CAS may fail a number
        of times. */
    method TryWaitMany(max: nat, spurious: nat) returns (got: nat)
      requires Valid()
      modifies this`count
      ensures Valid() && got == Min(max, Pos(old(count))) && Permits() == old(Permits()) - got
    {
      var seen, failures := count, spurious;
      while seen > 0
        invariant seen == count == old(count) && Valid()
        decreases failures
      {
        var left := if seen > max then seen - max else 0;
        if failures == 0 {
          count := left;
          return seen - left;
        }
        failures, seen := failures - 1, count;
      }
      return 0;
    }

    /** fetch_sub: it finds a permit or registers. */
    method LowerCount() returns (got: bool)
      requires Valid()
      modifies this
      ensures Valid() && got == (old(count) > 0)
      ensures Permits() == old(Permits()) - (if got then 1 else 0)
      ensures registered == old(registered) + (if got then 0 else 1)
    {
      got := count > 0;
      count := count - 1;
      if !got {
        registered := registered + 1;
      }
    }

    /** The OS semaphore lets one registered wait through. */
    method Wake()
      requires Valid() && os > 0
      modifies this
      ensures Valid() && registered == old(registered) - 1 && Permits() == old(Permits()) - 1
    {
      os := os - 1;
      registered := registered - 1;
    }

    /** A wait whose time is up takes its registration back, or takes the permit released for it. */
    method GiveUp() returns (got: bool)
      requires Valid() && registered > 0
      modifies this
      ensures Valid() && registered == old(registered) - 1
      ensures got == (old(count) >= 0) && Permits() == old(Permits()) - (if got then 1 else 0)
    {
      if count >= 0 {
        Wake();
        return true;
      }
      count := count + 1;
      registered := registered - 1;
      return false;
    }

    /** A release goes to the registered waits that have none yet, the rest to the count. */
    method Signal(n: nat)
      requires Valid()
      modifies this`count, this`os
      ensures Valid() && Permits() == old(Permits()) + n
      ensures os == old(os) + Min(n, Pos(-old(count)))
    {
      var before := count;
      count := count + n;
      var toRelease := Min(-before, n);
      if toRelease > 0 {
        for r := 0 to toRelease
          invariant os == old(os) + r && count == before + n && before == old(count)
        {
          os := os + 1;
        }
      }
    }

    /** A timed wait that nobody signals meanwhile. */
    method WaitManyTimed(max: nat, spurious: nat) returns (got: nat)
      requires Valid() && registered == 0
      modifies this
      ensures Valid() && registered == 0 && got == Min(max, Pos(old(count)))
      ensures Permits() == old(Permits()) - got
    {
      got := TryWaitMany(max, spurious);
      if got != 0 || max == 0 {
        return;
      }
      var one := LowerCount();
      if !one {
        one := GiveUp();
      }
      // nobody signals between these steps, so no permit can have come in
      if one {
        assert false;
      }
      return 0;
    }
  }

  /** The inner queue with the semaphore in front of it. */
  class BlockingQueue {
    const sema: LightweightSemaphore
    var inner: seq<nat>

    /** There is a permit for every element. */
    ghost predicate Valid()
      reads this, sema
    {
      sema.Valid() && sema.registered == 0 && sema.count == |inner|
    }

    constructor ()
      ensures Valid() && inner == [] && fresh(sema)
    {
      sema := new LightweightSemaphore(0);
      inner := [];
    }

    method Enqueue(v: nat)
      requires Valid()
      modifies this, sema
      ensures Valid() && inner == old(inner) + [v]
    {
      inner := inner + [v];
      sema.Signal(1);
    }

    method EnqueueBulk(vs: seq<nat>)
      requires Valid()
      modifies this, sema
      ensures Valid() && inner == old(inner) + vs
    {
      inner := inner + vs;
      sema.Signal(|vs|);
    }

    /** Spins until the inner queue gives its first element; it may report empty a number of times. */
    method SpinDequeue(retries: nat) returns (v: nat)
      requires inner != []
      modifies this`inner
      ensures old(inner) == [v] + inner
    {
      var r: Option<nat>, left := None, retries;
      while r == None
        invariant r == None ==> inner == old(inner)
        invariant r.Some? ==> old(inner) == [r.value] + inner
        decreases r == None, left
      {
        if left == 0 {
          r, inner := Some(inner[0]), inner[1..];
        } else {
          left := left - 1;
        }
      }
      return r.value;
    }

    method TryDequeue(spurious: nat, retries: nat) returns (r: Option<nat>)
      requires Valid()
      modifies this, sema
      ensures Valid()
      ensures r == if old(inner) == [] then None else Some(old(inner)[0])
      ensures inner == if old(inner) == [] then [] else old(inner)[1..]
    {
      var got := sema.TryWaitMany(1, spurious);
      if got == 0 {
        return None;
      }
      var v := SpinDequeue(retries);
      return Some(v);
    }

    /** A bulk dequeue takes its permits at once and then loops until it has an element for each; the
        inner queue gives it so many of them at first, and then the rest. */
    method TryDequeueBulk(max: nat, spurious: nat, portions: seq<nat>) returns (r: seq<nat>)
      requires Valid()
      modifies this, sema
      ensures Valid() && |r| == Min(max, |old(inner)|) && old(inner) == r + inner
    {
      var got := sema.TryWaitMany(max, spurious);
      var left := portions;
      r := [];
      while |r| != got
        invariant |r| <= got <= |old(inner)| && sema.Valid() && sema.registered == 0 && sema.count == |old(inner)| - got
        invariant r == old(inner)[..|r|] && inner == old(inner)[|r|..]
        decreases |left|, got - |r|
      {
        var n := got - |r|;
        if left != [] {
          n, left := Min(left[0], n), left[1..];
        }
        r, inner := r + inner[..n], inner[n..];
      }
    }

    method WaitDequeueTimed(spurious: nat, retries: nat) returns (r: Option<nat>)
      requires Valid()
      modifies this, sema
      ensures Valid()
      ensures r == if old(inner) == [] then None else Some(old(inner)[0])
      ensures inner == if old(inner) == [] then [] else old(inner)[1..]
    {
      var got := sema.WaitManyTimed(1, spurious);
      if got == 0 {
        return None;
      }
      var v := SpinDequeue(retries);
      return Some(v);
    }
  }
}
