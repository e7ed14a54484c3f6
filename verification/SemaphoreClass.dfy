/** The asynchronous semaphore as one thread after another uses it: the count, the list of waiters and
    the loop that completes them. */
module SemaphoreClass {

  type Operation = nat

  class Semaphore {
    var count: int
    var waiters: seq<Operation>
    var completed: seq<Operation>   // operations whose Complete was called, in order

    /** Nobody waits for a drained semaphore. */
    ghost predicate Valid()
      reads this
    {
      waiters != [] ==> count > 0
    }

    constructor (initial: int)
      ensures Valid() && count == initial && waiters == [] && completed == []
    {
      count, waiters, completed := initial, [], [];
    }

    /** Draining the semaphore completes everybody who waits, in the order they came. */
    method Acquire(n: int) returns (left: int)
      requires Valid()
      modifies this
      ensures Valid() && count == left == old(count) - n
      ensures count <= 0 ==> waiters == [] && completed == old(completed) + old(waiters)
      ensures count > 0 ==> waiters == old(waiters) && completed == old(completed)
    {
      var prev := count;
      count := count - n;
      if prev <= n {
        var taken := waiters;
        waiters := [];
        for i := 0 to |taken|
          invariant waiters == [] && count == old(count) - n && completed == old(completed) + taken[..i]
        {
          completed := completed + [taken[i]];
        }
        assert taken[..|taken|] == taken;
      }
      return prev - n;
    }

    /** Raising the count completes nobody; a negative amount may strand the waiters, and exactly then
        the semaphore is no longer valid. */
    method Release(n: int) returns (now: int)
      requires Valid()
      modifies this`count
      ensures count == now == old(count) + n
      ensures Valid() <==> waiters == [] || count > 0
      ensures n >= 0 ==> Valid()
    {
      count := count + n;
      return count;
    }

    /** A wait completes at once if the semaphore is drained, and is queued otherwise. */
    method OnDrained(op: Operation)
      requires Valid()
      modifies this`waiters, this`completed
      ensures Valid()
      ensures count <= 0 ==> completed == old(completed) + [op] && waiters == old(waiters)
      ensures count > 0 ==> waiters == old(waiters) + [op] && completed == old(completed)
    {
      if count <= 0 {
        completed := completed + [op];
      } else {
        waiters := waiters + [op];
      }
    }
  }
}
