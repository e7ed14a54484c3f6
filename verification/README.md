# Verification of the ex_actor runtime

ex_actor runs actors on thread pools and across a cluster. This project models the protocols its
guarantees rest on and proves them for every run, with any number of threads or nodes:

- **Activation of an actor** (`ActorProtocol`, `ActorInvariant`, `ActorSafety`, `ActorDrain`,
  `ActorCalls`, `ActorOverflow`): pushes, destroy requests and activations share a CAS flag, a counter that may
  transiently be negative, and several mailboxes that may report empty behind an unfinished push. Messages run
  one at a time, none is stranded, and the user instance is destroyed once.
- **The bounded ring** (`RingProtocol`, `RingSafety`, `RingCalls`) and **the linked queue** (`LinkedQueue`): both refine
  the abstract mailbox of `Mailbox`, which is what the actor's proof assumes of its mailboxes.
- **The node pool under the linked queue** (`NodePoolProtocol`, `NodePoolInvariant`, `NodePoolSafety`,
  `NodePoolCalls`): a tagged stack of chunks, thread-local lists and reservation under a mutex. `PooledQueues` and
  `PooledCalls` put queues and pool together and show that each keeps what the other assumes.
- **The concurrent queue** (`ImplicitProducer`, `DequeueTickets`, `DequeueProgress`, `BlockIndexProtocol`,
  `BlockIndexSlots`, `BlockIndexInvariant`, `BlockIndexSafety`, `BlockIndexCalls`, `FreeList`, `FreeListCalls`):
  optimistic and overcommit counters, a block index that wraps, rewinds and grows under stale readers, and a
  reference-counted free list.
- **The lightweight semaphore and the queue it gates** (`GatedQueue`, `GatedCalls`), and the **asynchronous semaphore**
  (`AsyncSemaphore`).
- **The weak-priority pool** (`WeakPoolProtocol`, `WeakPoolSafety`, `WeakPoolCalls`).
- **The message broker** (`BrokerModel`, `BrokerInvariant`, `BrokerHandlers`, `BrokerSafety`): what each handler
  does, and what every run keeps whatever messages arrive. **The cluster** (`ClusterProtocol`, `ClusterInvariant`,
  `ClusterSafety`, `ClusterReplies`, `ClusterCompletion`, `ClusterRestart`): many brokers over a network that
  loses, repeats and reorders packets, in which nodes crash and are restarted.

Two kinds of modules stand side by side. The protocol modules are step systems: a state holds the shared
variables and one program point per thread, `Move` lists what a single atomic access does, and a run is any
interleaving of such steps (`Runs`). Fields named `past`, and those listed under "history", record what has
happened. Steps read them only to say whose a node, an index or a block is, and to know which list a chunk is:

- A linked queue takes nodes that are free, and a user of the pool writes and gives back nodes that are in use
  (`owner`). `PooledQueues` runs any number of queues and the pool in one memory without these conditions and
  proves that they always hold.
- A consumer of the block index claims an element of a published block that has one left (`claimed`).
  `ImplicitProducer` has a consumer take any index that the counters gave out, and proves that it is such a claim.
- A caller adds only a block that it owns to the free list (`phase`), as the source demands of it.
- `stack` and `lists` of the pool name the chunk that a CAS moves. That this, like any bound on an index, never
  keeps a thread from its next access is `NeverStuck` in `NodePoolSafety`, `LinkedQueue`, `DequeueTickets`,
  `BlockIndexSafety`, `FreeList` and `WeakPoolCalls`.

The modules whose names end in `Calls` say, for every reachable state, what one call can lead to by itself, so
that no step can be missing or refuse without need.

The class modules (`ActorClass`, `SequentialQueues`, `MpscQueueClass`, `BlockIndexClass`, `FreeListClass`,
`BlockingQueueClass`, `SemaphoreClass`, `WeakPoolClass`, `MessageBrokerClass`) have the source's objects with
their fields, arrays and loops, as one call after another sees them. `MessageBrokerClass` and `BlockIndexClass`
are proved to take exactly the steps of `BrokerModel` and `BlockIndexProtocol`, so the theorems about those apply
to them. `Counting`, `Division`, `LinkedMemory`,
`Modular`, `Numbers`, `Options` and `Runs` are shared tools.

How the model relates to the code:

- Atomic accesses are interleaved sequentially consistently, one per step. A lock-protected region is modelled
  by its lock and the accesses inside it, or as one step if everything it touches is protected by that lock.
- Positions, tags, tickets and request ids are unbounded integers. The wrap-around of the ticket counters is
  `DequeueTickets.CircularComparison`; the actor's counter is read modulo 2^64; the waiters' deadlines wrap at
  2^64. `pos & mask_` is `Modular.Wrap`, the capacity being a power of two; it is the remainder
  (`Modular.WrapIsRemainder`).
- Blocks of the concurrent queue are known by their numbers instead of the index of their first element;
  `BlockIndexSlots.BasesAreNumbers` relates the two.
- A mailbox capacity of 0 stands for the unbounded queue, 1 for the one-slot queue. A full mailbox makes the
  push throw; that changes nothing.
- A bulk dequeue that spans several blocks appears in the block index as one consumer per block;
  `BlockIndexSafety.BulkFindsEveryBlock` is about the one header it loads for all of them.
- The free list's caller owns the block it adds, as the source requires. Bulk dequeues ask for at least one
  element.
- A node's clock does not run backwards between two stamps of its own entry, and packets are delivered only to
  the address they were sent to. Node ids are unique, as every process draws its own. An address is bound by at
  most one running node; a node that crashed or stopped takes no more steps, nobody is told, and its successor
  may listen where it did.
- Payloads and addresses are opaque. Times, random choices, the order in which hash maps are iterated, and
  handler results are parameters of the steps or arbitrary choices.

Findings:

- The counter of an actor is a `size_t`: exactly 2^64 pending items read as none, so `ActorSafety.NoLostWakeUp`
  excludes multiples of 2^64. `ActorOverflow` has the runs in which they are stranded, and shows that no other
  number is.
- A node that is restarted at its old address has a new id (src/ex_actor/internal/actor_registry.cc:201-206), and
  others may still tell it of its predecessor. It then connects to itself, and a request to the predecessor can be
  taken for its own reply: exactly if the socket leads to the own address (`ClusterRestart.MatchingIsExact`;
  `ClusterRestart.RestartedNodeAnswersItself` has a run). Other packets for the predecessor fail the address check
  of its successor (`ClusterRestart.AddressCheckIsExact`, `ClusterRestart.ReplyCheckIsExact`).
- A dequeue reads the overcommit before the optimistic count, so tickets that others hand back in between count
  against it: it can return nothing although an element was there for it all the time
  (`DequeueProgress.HandedBackTicketsHideAnElement`; `DequeueProgress.NothingMeansSpokenFor` has the bound).
- A wait for a cluster state whose deadline exceeds 64 bits wraps and expires at the first check
  (`BrokerSafety.GivingUpEarlyIsExact`; `BrokerSafety.LongestTimeoutIsNone` has a run).
- The asynchronous semaphore can complete a wait although its count was positive during the wait's whole life:
  exactly if an Acquire that drained it had not taken the list when the wait started
  (`AsyncSemaphore.EarlyCompletionIsExact`, `AsyncSemaphore.ReleaseAllowsEarlyCompletion`).
- A negative release of that semaphore can strand waiters (`AsyncSemaphore.NegativeReleaseStrands`;
  `AsyncSemaphore.LosingIsExact` gives the exact condition).
- A request to a node that is not connected fails, but consumes a request id; a gossip round with a fanout of
  zero fails after it has stamped the node's own entry.

## Model

| member | source | states |
|---|---|---|
| `ActorSafety.NoLostWakeUp` | include/ex_actor/internal/actor.h:336-445 | in every run, as long as the instance lives, waiting messages or a destroy request (their number not a multiple of 2^64) imply that an activation is scheduled or running, or that a thread is still going to count, to try to activate or to look at the counter again |
| `ActorSafety.QuietMeansDone` | include/ex_actor/internal/actor.h:336-445 | in a reachable state with fewer than 2^64 pending items, where every thread is idle, the flag is down and the instance lives, every mailbox is empty and no destroy is pending |
| `ActorOverflow.LostExactlyIfWrapped` | include/ex_actor/internal/actor.h:442-444 | for every number n there is a run that leaves n messages in the mailbox of a living actor with the flag down and nothing scheduled; somebody is still going to activate it exactly if n is not a multiple of 2^64 |
| `ActorOverflow.WrappedCountStrands` | include/ex_actor/internal/actor.h:442-444 | a run after which 2^64 messages wait, every thread is idle and no activation will come |
| `ActorSafety.FlagMeansActivation` | include/ex_actor/internal/actor.h:388-397 | while the instance lives, the activation flag is up exactly if one activation token exists: won, scheduled or running |
| `ActorSafety.OneAtATime` | include/ex_actor/internal/actor.h:388-445 | at most one thread is between winning the flag and lowering it, and then nothing else is scheduled |
| `ActorSafety.ExecutesAlive` | include/ex_actor/internal/actor.h:399-415 | a message in hand or executing implies a live instance; the instance is reset at most once, and only after a destroy request |
| `ActorSafety.SilentAfterReset` | include/ex_actor/internal/actor.h:399-415 | once the instance is reset it stays reset and the log of executions never changes again |
| `ActorSafety.ClaimOrder` | include/ex_actor/internal/actor.h:266-277 | the messages executed from a mailbox are a prefix of the order in which pushes claimed their places, and lag behind the pops by exactly the one message in hand |
| `ActorSafety.HistoriesGrow` | include/ex_actor/internal/actor.h:349-355 | along every run claims and executions only grow: nothing claimed is lost or reordered, nothing executed is undone |
| `ActorSafety.ActivationsAreBounded` | include/ex_actor/internal/actor.h:417-434 | activations do not interleave, visit mailboxes in non-decreasing index order and execute at most max(1, limit) messages each |
| `ActorDrain.StopsEarlyOnlyIfEmpty` | include/ex_actor/internal/actor.h:417-434 | in every run, an activation that stops before it has executed max(1, limit) messages visited every mailbox: each had no message to pop at a moment since the limit was read |
| `ActorCalls.PushAlone` | include/ex_actor/internal/actor.h:349-397 | from every reachable state an idle thread can push into a mailbox with room by itself: the message ends up last, visible and counted, and the actor is scheduled once more unless it was active |
| `ActorCalls.DestroyAlone` | include/ex_actor/internal/actor.h:336-347 | from every reachable state an idle thread can ask for destruction by itself: the first request is marked, counted and scheduled, later ones change nothing |
| `ActorCalls.ActivationDestroys` | include/ex_actor/internal/actor.h:399-415 | from every reachable state with a live instance, a destroy request and a scheduled activation, a thread can reset the instance by itself, lower the flag and give the credit back |
| `ActorCalls.ActivationExecutes` | include/ex_actor/internal/actor.h:417-445 | from every reachable state without a destroy request, a scheduled activation that nobody disturbs executes a visible message if there is one, stops before its limit only with no message visible, and is scheduled again exactly if the counter reads non-zero |
| `ActorInvariant.CountMove` | include/ex_actor/internal/actor.h:349-436 | every step keeps unpopped + popped and not subtracted + destroy credit = counter + pushes not counted yet, the counter as an integer |
| `ActorClass.Actor.PushMessage` | include/ex_actor/internal/actor.h:349-355 | a full mailbox refuses and nothing changes; otherwise the message is last in its mailbox and a living actor is scheduled exactly once |
| `ActorClass.Actor.AsyncDestroy` | include/ex_actor/internal/actor.h:336-347 | the request is recorded once, with one credit, and a living actor is scheduled exactly once |
| `ActorClass.Actor.Drain` | include/ex_actor/internal/actor.h:417-434 | the drain loop executes the first min(total, max(1, limit)) messages of all mailboxes in visiting order and leaves the rest as they were |
| `ActorClass.Actor.PullMailboxAndRun` | include/ex_actor/internal/actor.h:399-445 | one activation executes those messages, or destroys the instance without executing, or does nothing to a destroyed one, and keeps the actor's counter, flag and schedule consistent |
| `RingSafety.InCasOrder` | include/ex_actor/internal/container.h:204-250 | what the consumer gets is a prefix of the values in the order of the winning CASes, and as long as the dequeue position says |
| `RingSafety.PopNeverThrows` | include/ex_actor/internal/container.h:237-250 | the check on the sequence number in Pop never fails |
| `RingSafety.SizeInRange` | include/ex_actor/internal/container.h:197-199 | Size, read by the consumer between two pops, lies between 0 and the capacity |
| `RingSafety.FullMeansFull` | include/ex_actor/internal/container.h:204-224 | Push returns false only at a moment when exactly capacity positions are claimed and unreleased |
| `RingSafety.NoOverwrite` | include/ex_actor/internal/container.h:204-250 | a producer that owns a cell is less than one round ahead of the taken values and never writes the cell the consumer is reading |
| `RingSafety.OneWriterPerCell` | include/ex_actor/internal/container.h:204-224 | two producers never own the same cell |
| `RingSafety.RingIsAMailbox` | include/ex_actor/internal/container.h:204-250 | every step of every run is a step of the abstract mailbox, or no step of it, through the abstraction function |
| `RingSafety.ProducerRefines` | include/ex_actor/internal/container.h:204-224 | the winning CAS claims a place of the mailbox, the sequence store makes it visible, no other access shows |
| `RingSafety.ConsumerRefines` | include/ex_actor/internal/container.h:237-250 | moving the data out pops the oldest visible place; a pop that finds nothing means that place is not visible |
| `Modular.WrapIsRemainder` | include/ex_actor/internal/container.h:208 | reducing a position by whole rounds is taking its remainder |
| `RingSafety.CapacityIsRounded` | include/ex_actor/internal/container.h:179-186 | the capacity is the least power of two that is at least 2 and at least the request |
| `RingCalls.PushAlone` | include/ex_actor/internal/container.h:204-224 | from every reachable state an idle producer can push by itself: with fewer than capacity places in use its value is claimed next, written and visible, otherwise nothing changes |
| `RingCalls.PopAlone` | include/ex_actor/internal/container.h:227-250 | from every reachable state between two pops the consumer can by itself take the value at the oldest place, if that is visible, and otherwise changes nothing |
| `SequentialQueues.BoundedMpscQueue.constructor` | include/ex_actor/internal/container.h:179-186 | the cells' sequence numbers make an empty queue of the rounded capacity |
| `SequentialQueues.BoundedMpscQueue.Push` | include/ex_actor/internal/container.h:204-224 | appends, or reports full exactly if the queue holds capacity elements, whatever number of times the weak CAS fails |
| `SequentialQueues.BoundedMpscQueue.TryPop` | include/ex_actor/internal/container.h:227-250 | removes and returns the first element, or returns nothing exactly if there is none |
| `SequentialQueues.BoundedMpscQueue.Size` | include/ex_actor/internal/container.h:197-199 | the number of elements, at most the capacity |
| `SequentialQueues.OneSlotUnsafeQueue.Push` | include/ex_actor/internal/container.h:132-139 | stores the value exactly if the slot is free |
| `SequentialQueues.OneSlotUnsafeQueue.TryPop` | include/ex_actor/internal/container.h:141-147 | returns and removes the value exactly if there is one |
| `LinkedQueue.InExchangeOrder` | include/ex_actor/3rd_lib/daking/MPSC_queue.h:448-538 | values come out once each, in the order of the exchanges of the head |
| `LinkedQueue.BulkIsContiguous` | include/ex_actor/3rd_lib/daking/MPSC_queue.h:463-513 | in every run the values passed to a bulk enqueue stand next to each other, in the caller's order, in the order of the queue from its exchange on and for good, and what the consumer has taken of these places is a prefix of them, although the pool writes free nodes meanwhile |
| `LinkedQueue.UnlinkedNodeStays` | include/ex_actor/3rd_lib/daking/MPSC_queue.h:448-538 | a node that an unfinished producer still has to link is in the queue with a null link, is neither free nor reused, and has no other producer to link it |
| `LinkedQueue.MissingLinkIsPending` | include/ex_actor/3rd_lib/daking/MPSC_queue.h:524-538 | a link missing inside the queue has a producer that is about to write it |
| `LinkedQueue.NeverStuck` | include/ex_actor/3rd_lib/daking/MPSC_queue.h:448-538 | in every run the consumer, and a producer that needs no further node, have a next access; no link that is followed leads nowhere |
| `LinkedQueue.ExchangeRefines` | include/ex_actor/3rd_lib/daking/MPSC_queue.h:448-484 | the exchange claims the places of the whole private chain, all but the first visible at once |
| `LinkedQueue.LinkRefines` | include/ex_actor/3rd_lib/daking/MPSC_queue.h:448-457 | the link makes the first of the claimed places visible |
| `LinkedQueue.ConsumerRefines` | include/ex_actor/3rd_lib/daking/MPSC_queue.h:524-538 | reading the value pops the oldest visible place; a failed dequeue means that place is not visible |
| `LinkedQueue.LinkedQueueIsAMailbox` | include/ex_actor/3rd_lib/daking/MPSC_queue.h:448-538 | every step of every run, recycling of nodes included, is a step of the abstract mailbox or no step of it |
| `NodePoolSafety.EveryNodeIsInOnePlace` | include/ex_actor/3rd_lib/daking/MPSC_queue.h:651-678 | every node ever reserved is with a user or at exactly one position of exactly one list, which is on the stack, in a thread's free list or in a thread's hands |
| `NodePoolSafety.HomesAreDistinct` | include/ex_actor/3rd_lib/daking/MPSC_queue.h:651-678 | chunks at different heights, free lists and chunks in hand of different threads are different lists |
| `NodePoolSafety.ChunksAreFullChains` | include/ex_actor/3rd_lib/daking/MPSC_queue.h:315-334 | following next_ from the head of a stacked chunk meets exactly ThreadLocalCapacity nodes and then null |
| `NodePoolSafety.FreeListsAreChains` | include/ex_actor/3rd_lib/daking/MPSC_queue.h:651-678 | a thread's free list is a null-terminated chain of exactly as many nodes as its size says, fewer than a chunk unless one was just popped into it |
| `NodePoolSafety.StackIsAChain` | include/ex_actor/3rd_lib/daking/MPSC_queue.h:200-233 | following next_chunk_ from the top visits the heads of all stacked chunks in order and then null |
| `NodePoolSafety.TagMakesPopSafe` | include/ex_actor/3rd_lib/daking/MPSC_queue.h:213-233 | a pop whose CAS succeeds read a next_chunk_ that is still current: the new top is the chunk below, and the thread gets the chunk that was on top |
| `NodePoolSafety.PoolLeavesUsersAlone` | include/ex_actor/3rd_lib/daking/MPSC_queue.h:651-678 | no step of the pool touches a node that a user has, except that user's own deallocation of it |
| `NodePoolSafety.AllocatedNodeIsFresh` | include/ex_actor/3rd_lib/daking/MPSC_queue.h:651-666 | an allocation hands out a node that no user had, with a null link |
| `NodePoolSafety.NodesComeInChunks` | include/ex_actor/3rd_lib/daking/MPSC_queue.h:315-334 | outside a reservation the number of nodes is exactly the counted number of chunks times their size |
| `NodePoolSafety.NeverStuck` | include/ex_actor/3rd_lib/daking/MPSC_queue.h:651-678 | in every run a thread that does not wait for the mutex has a next access, and an idle one can give back any node in use |
| `NodePoolCalls.AllocateAlone` | include/ex_actor/3rd_lib/daking/MPSC_queue.h:651-666 | from every reachable state an idle thread can allocate by itself: the head of its list, else the head of the top chunk, whose rest becomes its list, else a node of as many new chunks as there are, at least one |
| `NodePoolCalls.DeallocateAlone` | include/ex_actor/3rd_lib/daking/MPSC_queue.h:668-678 | from every reachable state an idle thread can give back a node in use by itself: it heads the thread's list, which goes on top of the stack exactly if it is full then |
| `NodePoolCalls.ReserveAlone` | include/ex_actor/3rd_lib/daking/MPSC_queue.h:680-705 | from every reachable state an idle thread can ask for n chunks by itself: exactly the missing ones are made and stacked, and if none is missing it returns after one look, without the mutex |
| `NodePoolCalls.CallEnds` | include/ex_actor/3rd_lib/daking/MPSC_queue.h:200-233 | from every reachable state a thread anywhere inside a call can end it by itself, whatever it read before, unless another one holds the mutex |
| `PooledQueues.EveryNodeHasOnePlace` | include/ex_actor/3rd_lib/daking/MPSC_queue.h:448-678 | in every run of any number of queues on one pool, every node ever reserved is at exactly one position of exactly one place: a queue's chain, a producer's or the consumer's hands, a stacked chunk, a free list, or a chunk in a thread's hands |
| `PooledQueues.EveryQueueIsAMailbox` | include/ex_actor/3rd_lib/daking/MPSC_queue.h:448-678 | every queue on the shared memory takes steps of its own protocol only, whatever the others do, and so refines the abstract mailbox |
| `PooledQueues.AllocationIsSound` | include/ex_actor/3rd_lib/daking/MPSC_queue.h:651-666 | a node that the pool hands out is free for the queue that takes it |
| `PooledQueues.WritesAreSound` | include/ex_actor/3rd_lib/daking/MPSC_queue.h:448-513 | a queue writes only links of nodes that the pool has in use |
| `PooledQueues.DeallocationIsSound` | include/ex_actor/3rd_lib/daking/MPSC_queue.h:668-678 | a queue gives back only a node that it has |
| `PooledCalls.AllocationIsOpen` | include/ex_actor/3rd_lib/daking/MPSC_queue.h:448-457 | in every run a thread of the pool that has a node can hand it to any producer that needs one, even if the value constructed in it garbles next_chunk_ in any way |
| `PooledCalls.GivingBackIsOpen` | include/ex_actor/3rd_lib/daking/MPSC_queue.h:524-538 | in every run a consumer that passed a node can give it back through any idle thread of the pool |
| `PooledCalls.QueuesGoOn` | include/ex_actor/3rd_lib/daking/MPSC_queue.h:448-538 | in every run a producer that has its nodes, and a consumer with no node to give back, have a next access in the shared memory |
| `PooledCalls.PoolGoesOn` | include/ex_actor/3rd_lib/daking/MPSC_queue.h:200-233 | in every run a thread inside the pool that does not wait for the mutex has a next access in the shared memory, and its write of next_chunk_ may destroy the value there in any way |
| `NodePoolSafety.ReserveCountsAreWholeChunks` | include/ex_actor/3rd_lib/daking/MPSC_queue.h:680-705 | the counts given to reserve are whole chunks if the node count is, so no node is left out |
| `MpscQueueClass.MpscQueue.Emplace` | include/ex_actor/3rd_lib/daking/MPSC_queue.h:448-457 | appends the value; queue and free list stay disjoint null-terminated chains |
| `MpscQueueClass.MpscQueue.TryDequeue` | include/ex_actor/3rd_lib/daking/MPSC_queue.h:524-538 | removes and returns the first value, or returns nothing exactly if there is none; the passed node goes to the free list |
| `MpscQueueClass.MpscQueue.EnqueueBulk` | include/ex_actor/3rd_lib/daking/MPSC_queue.h:486-513 | appends all values in order, by a chain built privately and linked in once |
| `MpscQueueClass.MpscQueue.TryDequeueBulk` | include/ex_actor/3rd_lib/daking/MPSC_queue.h:540-556 | returns the first min(n, size) values in order and leaves the rest |
| `MpscQueueClass.MpscQueue.Allocate` | include/ex_actor/3rd_lib/daking/MPSC_queue.h:651-666 | the first node of the free list, else of the top chunk, which becomes the free list, else of a chunk reserved for it; it is in no chain, list or chunk any more, its link is null, and no node outside the pool changes |
| `MpscQueueClass.MpscQueue.Deallocate` | include/ex_actor/3rd_lib/daking/MPSC_queue.h:668-678 | the node becomes the head of the free list, which becomes the top chunk exactly if it is full; no other link changes |
| `MpscQueueClass.MpscQueue.Reserve` | include/ex_actor/3rd_lib/daking/MPSC_queue.h:680-705 | as many chunks again as there are, at least one, go to the stack, and no existing node changes |
| `DequeueTickets.HeadNeverPassesTail` | include/ex_actor/3rd_lib/moody_camel_queue/concurrentqueue.h:2659-2724 | in every run of single and bulk dequeues, the head index plus the winners that have not claimed yet never exceeds the tail index |
| `DequeueTickets.WinnersBelowTail` | include/ex_actor/3rd_lib/moody_camel_queue/concurrentqueue.h:2659-2724 | among the first n tickets at most as many won as there are elements: the proof counts the losers below each winner |
| `DequeueTickets.EachIndexOnce` | include/ex_actor/3rd_lib/moody_camel_queue/concurrentqueue.h:2895-2916 | exactly the indices below the head were given out, each to exactly one call |
| `DequeueTickets.CountersAgreeWhenQuiet` | include/ex_actor/3rd_lib/moody_camel_queue/concurrentqueue.h:2659-2724 | when no call is under way, optimistic count minus overcommit is the head index |
| `DequeueProgress.AloneTakesAll` | include/ex_actor/3rd_lib/moody_camel_queue/concurrentqueue.h:2659-2724 | from every reachable quiet state, a dequeue that nobody disturbs moves the head by exactly min(max, tail - head) |
| `DequeueProgress.NothingMeansSpokenFor` | include/ex_actor/3rd_lib/moody_camel_queue/concurrentqueue.h:2659-2724 | in every run, a dequeue that returns nothing had a moment at which every element below the tail it loaded was consumed, won, undecided or waiting to be handed back, except for as many as were handed back since it read the overcommit |
| `DequeueProgress.HandedBackTicketsHideAnElement` | include/ex_actor/3rd_lib/moody_camel_queue/concurrentqueue.h:2659-2724 | a run in which that exception matters: a dequeue returns nothing although an element below its tail was spoken for by nobody from its start to its end |
| `DequeueTickets.NeverStuck` | include/ex_actor/3rd_lib/moody_camel_queue/concurrentqueue.h:2659-2724 | in every run a call of dequeue has a next access |
| `DequeueTickets.CircularComparison` | include/ex_actor/3rd_lib/moody_camel_queue/concurrentqueue.h:561-569 | circular_less_than on counters modulo m agrees with the true order exactly if their difference lies in (-m/2, m/2] |
| `BlockIndexSafety.LookupAgreesWithMap` | include/ex_actor/3rd_lib/moody_camel_queue/concurrentqueue.h:3057-3080 | through wrap-around, rewinding, growth and stale header and tail snapshots, the entry found for a claimed index has its block's key and the block its elements were written to |
| `BlockIndexSafety.TailKeyIsValid` | include/ex_actor/3rd_lib/moody_camel_queue/concurrentqueue.h:3068-3071 | the key read at the tail slot of any snapshot is not the invalid one |
| `BlockIndexSafety.LiveUntilEmptied` | include/ex_actor/3rd_lib/moody_camel_queue/concurrentqueue.h:2701-2714 | in every run a published block is in the index, with its entry and its value, exactly until the consumer that took its last element nulls the value; elements claimed and not consumed are exactly those in consumers' hands |
| `BlockIndexSafety.NextBlockNextSlot` | include/ex_actor/3rd_lib/moody_camel_queue/concurrentqueue.h:2989-2991 | adding one to the slot modulo the capacity leads to the slot reserved for the next block |
| `BlockIndexSafety.BulkFindsEveryBlock` | include/ex_actor/3rd_lib/moody_camel_queue/concurrentqueue.h:2920-2993 | in every run, however stale the one header a bulk dequeue loaded, the slot it reaches by adding one per block holds the key and the block of every later block it still has elements of |
| `BlockIndexSafety.NeverStuck` | include/ex_actor/3rd_lib/moody_camel_queue/concurrentqueue.h:3057-3080 | in every run the producer and every consumer that claimed an element have a next access; no lookup meets the invalid key |
| `BlockIndexCalls.InsertAlone` | include/ex_actor/3rd_lib/moody_camel_queue/concurrentqueue.h:3019-3048 | from every reachable state between two insertions the producer can by itself put a block into the index under the next number, whether or not the next entry is in use |
| `BlockIndexCalls.FailsAlone` | include/ex_actor/3rd_lib/moody_camel_queue/concurrentqueue.h:2609-2642 | without a block the producer can take its entry back, and everything about live blocks is as before |
| `BlockIndexCalls.UndoAlone` | include/ex_actor/3rd_lib/moody_camel_queue/concurrentqueue.h:2766-2788 | a bulk enqueue that fails part-way can take back, by itself, exactly the blocks it put into the index and none that was published before |
| `BlockIndexCalls.ConsumeAlone` | include/ex_actor/3rd_lib/moody_camel_queue/concurrentqueue.h:2895-2912 | from every reachable state an idle consumer can find by itself the block of any element that is published and not claimed |
| `BlockIndexCalls.CountAlone` | include/ex_actor/3rd_lib/moody_camel_queue/concurrentqueue.h:2701-2714 | a consumer that found its block can count its element by itself; the block leaves the index exactly with its last element |
| `ImplicitProducer.FindsTheBlockWrittenTo` | include/ex_actor/3rd_lib/moody_camel_queue/concurrentqueue.h:2659-2724 | in every run of the counters and the block index together, a consumer that was given index p finds the very block the element at p was written to, and p lies below the head and the tail |
| `ImplicitProducer.ClaimsAreSound` | include/ex_actor/3rd_lib/moody_camel_queue/concurrentqueue.h:2659-2724 | every index that a dequeue was given lies in a published block with an element left to claim, so what the block index assumes of a claim holds |
| `ImplicitProducer.NoElementTwice` | include/ex_actor/3rd_lib/moody_camel_queue/concurrentqueue.h:2895-2916 | two consumers are never after the same element |
| `ImplicitProducer.WritesToLiveBlocks` | include/ex_actor/3rd_lib/moody_camel_queue/concurrentqueue.h:2594-2657 | every element is written to a block that is in the index when it is published: the block that was being filled is never given away |
| `BlockIndexSlots.OffsetFinds` | include/ex_actor/3rd_lib/moody_camel_queue/concurrentqueue.h:3067-3077 | the offset from any tail slot that holds its own key leads to the slot reserved for the block, in whatever round |
| `BlockIndexSlots.GrownAgrees` | include/ex_actor/3rd_lib/moody_camel_queue/concurrentqueue.h:3099-3118 | old and doubled ring agree on where every block number of the old half lives |
| `BlockIndexSlots.BasesAreNumbers` | include/ex_actor/3rd_lib/moody_camel_queue/concurrentqueue.h:3067-3075 | masking the index and dividing the signed difference of bases is the difference of block numbers, exactly |
| `BlockIndexClass.CopySlots` | include/ex_actor/3rd_lib/moody_camel_queue/concurrentqueue.h:3099-3108 | the do-while loop copies each pointer exactly once, from the one after the tail round to the tail |
| `BlockIndexClass.DoubleSlots` | include/ex_actor/3rd_lib/moody_camel_queue/concurrentqueue.h:3094-3118 | the pointers of the doubled index: the copied ones, then fresh ones |
| `BlockIndexClass.BlockIndex.NewBlockIndex` | include/ex_actor/3rd_lib/moody_camel_queue/concurrentqueue.h:3082-3125 | growth keeps the map of live blocks and leaves room after the tail |
| `BlockIndexClass.BlockIndex.InsertEntry` | include/ex_actor/3rd_lib/moody_camel_queue/concurrentqueue.h:3019-3048 | the entry after the tail is keyed with the next block number, in a doubled index if it was in use, and nothing live changes |
| `BlockIndexClass.BlockIndex.BeginBlock` | include/ex_actor/3rd_lib/moody_camel_queue/concurrentqueue.h:2609-2642 | with a block, the map of live blocks gains it under the next number; without one, the map and the tail are as before |
| `BlockIndexClass.BlockIndex.RewindTail` | include/ex_actor/3rd_lib/moody_camel_queue/concurrentqueue.h:3050-3055 | the tail is back where it was, with the keyed entry next to it |
| `BlockIndexClass.BlockIndex.Lookup` | include/ex_actor/3rd_lib/moody_camel_queue/concurrentqueue.h:3057-3080 | for every live block the entry found holds its key and its block |
| `FreeList.OnTheListOnce` | include/ex_actor/3rd_lib/moody_camel_queue/concurrentqueue.h:1585-1606 | following the links from the head visits every listed block exactly once, and no other |
| `FreeList.AddsAndGetsAlternate` | include/ex_actor/3rd_lib/moody_camel_queue/concurrentqueue.h:1529-1579 | per block, adds and gets alternate in every run |
| `FreeList.NoDoubleGet` | include/ex_actor/3rd_lib/moody_camel_queue/concurrentqueue.h:1542-1579 | a block is not returned again without an add in between |
| `FreeList.TakenByOne` | include/ex_actor/3rd_lib/moody_camel_queue/concurrentqueue.h:1556-1567 | no two threads are about to return the same block |
| `FreeList.TakenIsUnlisted` | include/ex_actor/3rd_lib/moody_camel_queue/concurrentqueue.h:1556-1567 | the assertion on the flag holds: a block that was taken off has its flag clear and at least the two references still to be dropped |
| `FreeList.WaitingIsHeld` | include/ex_actor/3rd_lib/moody_camel_queue/concurrentqueue.h:1529-1540 | a block whose add returned early is referenced by some thread |
| `FreeList.LastHolderLists` | include/ex_actor/3rd_lib/moody_camel_queue/concurrentqueue.h:1569-1575 | the thread that drops the last reference to such a block goes on to list it |
| `FreeList.QuietMeansListed` | include/ex_actor/3rd_lib/moody_camel_queue/concurrentqueue.h:1529-1606 | when no call is under way every added block is on the list |
| `FreeList.NullMeansEmpty` | include/ex_actor/3rd_lib/moody_camel_queue/concurrentqueue.h:1542-1579 | in every run, a call of try_get returns null only if the list was empty at a moment of the call |
| `FreeList.NeverStuck` | include/ex_actor/3rd_lib/moody_camel_queue/concurrentqueue.h:1529-1606 | in every run a thread inside a call has a next access: it follows no null link and drops no reference that is not there |
| `FreeListCalls.GetAlone` | include/ex_actor/3rd_lib/moody_camel_queue/concurrentqueue.h:1542-1579 | from every reachable state an idle thread can get the head of the list by itself, with no reference of its own left on it, or null if the list is empty |
| `FreeListCalls.AddAlone` | include/ex_actor/3rd_lib/moody_camel_queue/concurrentqueue.h:1529-1606 | from every reachable state an idle thread can add a block of its own by itself: without references it becomes the head with the list's one, with references it is left to their last holder |
| `FreeListClass.FreeList.Add` | include/ex_actor/3rd_lib/moody_camel_queue/concurrentqueue.h:1529-1540 | the block becomes the head of the list, with exactly the list's reference |
| `FreeListClass.FreeList.TryGet` | include/ex_actor/3rd_lib/moody_camel_queue/concurrentqueue.h:1542-1579 | the head comes off with no reference left, or nothing exactly if the list is empty |
| `GatedQueue.PermitsAreConserved` | include/ex_actor/3rd_lib/moody_camel_queue/lightweightsemaphore.h:243-355 | initial + signalled = acquired + max(0, m_count) + OS value + releases not yet posted, through timeouts and bulk waits |
| `GatedQueue.NobodySleepsOnAPermit` | include/ex_actor/3rd_lib/moody_camel_queue/lightweightsemaphore.h:243-355 | registered waits = OS value + unposted releases + max(0, -m_count): if a thread sleeps and no release is there or on its way, there is no permit |
| `GatedQueue.WaitsReturnWhatWasAsked` | include/ex_actor/3rd_lib/moody_camel_queue/lightweightsemaphore.h:323-346 | no wait returns more than max, and an untimed wait for at least one returns at least one |
| `GatedQueue.SpinnersHaveElements` | include/ex_actor/3rd_lib/moody_camel_queue/blockingconcurrentqueue.h:278-286 | the permits that consumers hold never exceed the elements in the inner queue, so whoever spins after a wait has one for each of its permits |
| `GatedQueue.QuietMeansCounted` | include/ex_actor/3rd_lib/moody_camel_queue/blockingconcurrentqueue.h:120-139 | with nobody part-way through anything the count is the number of elements |
| `GatedCalls.EnqueueAlone` | include/ex_actor/3rd_lib/moody_camel_queue/lightweightsemaphore.h:348-355 | from every reachable state an idle producer can enqueue n elements by itself: n elements and permits more, and a release for each registered wait these cover |
| `GatedCalls.DequeueAlone` | include/ex_actor/3rd_lib/moody_camel_queue/blockingconcurrentqueue.h:278-286 | from every reachable state an idle consumer can take min(max, count) elements by itself, which the queue has |
| `GatedCalls.SleepsAlone` | include/ex_actor/3rd_lib/moody_camel_queue/lightweightsemaphore.h:273-286 | without a permit a wait registers once and sleeps |
| `GatedCalls.WakesAlone` | include/ex_actor/3rd_lib/moody_camel_queue/lightweightsemaphore.h:273-301 | with a release there a sleeping wait can return by itself with min(max, 1 + count) permits |
| `GatedCalls.TimesOutAlone` | include/ex_actor/3rd_lib/moody_camel_queue/lightweightsemaphore.h:285-300 | a timed wait can time out by itself: with a deficit it takes back its registration and gets nothing, otherwise it takes the release that was posted for it |
| `BlockingQueueClass.LightweightSemaphore.TryWaitMany` | include/ex_actor/3rd_lib/moody_camel_queue/lightweightsemaphore.h:323-332 | takes min(max, available) permits, whatever number of times the weak CAS fails |
| `BlockingQueueClass.LightweightSemaphore.LowerCount` | include/ex_actor/3rd_lib/moody_camel_queue/lightweightsemaphore.h:253-254 | takes a permit or registers one wait |
| `BlockingQueueClass.LightweightSemaphore.GiveUp` | include/ex_actor/3rd_lib/moody_camel_queue/lightweightsemaphore.h:264-270 | takes back the registration, or the permit released for it, exactly if the count is not negative |
| `BlockingQueueClass.LightweightSemaphore.Signal` | include/ex_actor/3rd_lib/moody_camel_queue/lightweightsemaphore.h:348-355 | raises the permits by the count and releases exactly as many registered waits as it covers |
| `BlockingQueueClass.LightweightSemaphore.WaitManyTimed` | include/ex_actor/3rd_lib/moody_camel_queue/lightweightsemaphore.h:335-340 | a timed wait without signals takes min(max, available) and leaves no registration behind |
| `BlockingQueueClass.BlockingQueue.Enqueue` | include/ex_actor/3rd_lib/moody_camel_queue/blockingconcurrentqueue.h:120-126 | appends one element and keeps one permit per element |
| `BlockingQueueClass.BlockingQueue.TryDequeue` | include/ex_actor/3rd_lib/moody_camel_queue/blockingconcurrentqueue.h:278-286 | removes and returns the first element, or returns nothing exactly if there is none, however often the inner queue reports empty at first |
| `BlockingQueueClass.BlockingQueue.TryDequeueBulk` | include/ex_actor/3rd_lib/moody_camel_queue/blockingconcurrentqueue.h:309-316 | removes exactly min(max, size) elements in order, in whatever portions the inner queue gives them |
| `BlockingQueueClass.BlockingQueue.WaitDequeueTimed` | include/ex_actor/3rd_lib/moody_camel_queue/blockingconcurrentqueue.h:354-362 | times out exactly if there is no element |
| `AsyncSemaphore.NoWaiterIsLost` | include/ex_actor/internal/util.h:247-258 | as long as every Release was harmless, somebody waiting implies a positive count or an Acquire between its subtraction and taking the list |
| `AsyncSemaphore.LosingIsExact` | include/ex_actor/internal/util.h:247-263 | over whole runs, with any Release: no waiter is ever lost exactly if every Release left the count positive, found nobody waiting, or found an Acquire about to take the list |
| `AsyncSemaphore.CompletesAtMostOnce` | include/ex_actor/internal/util.h:275-291 | every wait completes at most once, not before it started, and is not queued any more then |
| `AsyncSemaphore.DrainedMeansAllCompleted` | include/ex_actor/internal/util.h:247-291 | if all threads are idle, the count is zero or less and every Release was harmless, every wait that started has completed exactly once |
| `AsyncSemaphore.NotBeforeDrained` | include/ex_actor/internal/util.h:247-291 | in every run, with any Release: a wait that starts while no Acquire is about to take the list completes only after a moment since its start at which the count was zero or less |
| `AsyncSemaphore.EarlyCompletionIsExact` | include/ex_actor/internal/util.h:247-291 | from every reachable state with a positive count, a free lock and an idle thread, a new wait can complete without the count reaching zero exactly if some Acquire is about to take the list |
| `AsyncSemaphore.DrainedForGood` | include/ex_actor/internal/util.h:247-291 | if nothing ever raises the count, a completion implies a count of zero or less now |
| `AsyncSemaphore.ReleaseIsSafe` | include/ex_actor/internal/util.h:260-263 | a step of Release(n) leaves every waiter safe exactly if the result is positive, nobody waits, or an Acquire is about to take the list |
| `AsyncSemaphore.NegativeReleaseStrands` | include/ex_actor/internal/util.h:260-263 | a concrete run: count 1, one waiter, Release(-1), after which the count is 0, the waiter is queued for ever and every thread is idle |
| `AsyncSemaphore.ReleaseAllowsEarlyCompletion` | include/ex_actor/internal/util.h:247-263 | a concrete run in which, with a Release, a wait completes although the count was positive during its whole life |
| `SemaphoreClass.Semaphore.Acquire` | include/ex_actor/internal/util.h:247-258 | draining completes all waiters in order; otherwise nobody completes |
| `SemaphoreClass.Semaphore.Release` | include/ex_actor/internal/util.h:260-263 | waiters stay safe exactly if there are none or the count is positive |
| `SemaphoreClass.Semaphore.OnDrained` | include/ex_actor/internal/util.h:275-284 | completes at once exactly if the count is zero or less, and queues otherwise |
| `BrokerSafety.NoHungRequest` | src/ex_actor/internal/network.cc:231-249 | in every run, whatever arrives: the sockets are those of the known nodes minus self, an unsignalled request targets a connected node, no connected node is owed a deferred reply, and the next request id is not in use |
| `BrokerSafety.LosingANodeFailsItsRequests` | src/ex_actor/internal/network.cc:464-496 | a heartbeat check that times a node out leaves every request to it signalled and failing with that node |
| `BrokerSafety.RequestsFinishOnce` | src/ex_actor/internal/network.cc:231-249 | every request sent is either outstanding or finished, finishes once, and fails only with the loss of its target |
| `BrokerSafety.LookupsNeverFail` | src/ex_actor/internal/network.cc:288-323 | the MapAt lookups of a gossip round never throw; only a fanout of zero is refused |
| `BrokerSafety.NoMissedWakeUp` | src/ex_actor/internal/network.cc:547-557 | between handlers a waiter is marked met exactly if its predicate held at a moment since it registered, an unmarked one is false now, and a marked one may resume |
| `BrokerSafety.WaitResultsAreRight` | src/ex_actor/internal/network.cc:251-266 | a result is met exactly if the predicate held at a moment of the wait, and otherwise a check found the deadline passed, which means that the timeout elapsed unless the deadline wrapped |
| `BrokerSafety.TimeoutIsExactUnlessItWraps` | src/ex_actor/internal/network.cc:258 | a check counts the deadline as passed exactly if the timeout has elapsed or the 64-bit deadline wrapped |
| `BrokerSafety.GivingUpEarlyIsExact` | src/ex_actor/internal/network.cc:251-266 | from every reachable state, a wait for a condition that is false can give up before its timeout elapsed exactly if its deadline wraps |
| `BrokerSafety.LongestTimeoutIsNone` | src/ex_actor/internal/network.cc:251-266 | a concrete run: a wait with timeout 2^64 - 1 gives up at the time it began |
| `BrokerSafety.ConflictsAreReal` | src/ex_actor/internal/network.cc:399-418 | the conflict checks fire exactly if the message contradicts itself or what was heard before; otherwise all of it is heard |
| `BrokerSafety.OrderAndDuplicationDoNotMatter` | src/ex_actor/internal/network.cc:399-418 | two sequences of states with the same elements lead to the same table |
| `BrokerSafety.TableIsTheNewest` | src/ex_actor/internal/network.cc:399-418 | each entry is the newest of everything heard about its node since that node was last lost, and nodes without news are absent |
| `BrokerHandlers.HeartbeatLosesExactly` | src/ex_actor/internal/network.cc:325-343 | a heartbeat check keeps exactly the node itself and the nodes whose timestamp is not in the past or less than the timeout ago; it keeps their sockets, leaves requests to them unchanged, and deferred replies stay |
| `BrokerHandlers.DueWaitersAreSignalled` | src/ex_actor/internal/network.cc:345-354 | a check signals exactly the unmet waiters whose deadline is now or earlier, and changes nothing else |
| `BrokerHandlers.MetWaitersStay` | src/ex_actor/internal/network.cc:547-557 | a waiter that was met is signalled once: no handler touches it again before it returns |
| `BrokerHandlers.DueWaiterReturns` | src/ex_actor/internal/network.cc:345-354 | a waiter that was met or whose deadline has come can return after the next check, alone, with a result that says whether its condition was met |
| `BrokerHandlers.RequestIsHandled` | src/ex_actor/internal/network.cc:214-229 | a request delivered to its target sets off its handler once more and changes nothing else |
| `BrokerHandlers.ResponseCompletes` | src/ex_actor/internal/network.cc:420-429 | a response to an outstanding request signals it, and it will complete with this payload unless its target was lost; a response to an unknown request changes nothing |
| `BrokerHandlers.RequestFinishes` | src/ex_actor/internal/network.cc:239-249 | a resumed request is removed and finishes with the loss of its target, if that came, and else with its response, which is there |
| `BrokerHandlers.GossipGoesOut` | src/ex_actor/internal/network.cc:288-323 | a gossip round sends the whole stamped table to min(fanout, all) peers and to the contact, and nothing else |
| `BrokerInvariant.NewNodeJoins` | src/ex_actor/internal/network.cc:437-462 | a new node is connected and sent exactly the replies deferred for it, in order, and none stay deferred |
| `BrokerInvariant.DoesKeeps` | src/ex_actor/internal/network.cc:214-557 | every handler keeps the membership, request, gossip and waiter invariants |
| `MessageBrokerClass.MessageBroker.constructor` | src/ex_actor/internal/network.cc:155-166 | a new broker knows itself only and satisfies the invariants |
| `MessageBrokerClass.MessageBroker.EvaluateClusterStateWaiters` | src/ex_actor/internal/network.cc:547-557 | the loop marks and signals exactly the unmarked waiters whose predicate holds now |
| `MessageBrokerClass.MessageBroker.CheckClusterStateWaiterTimeout` | src/ex_actor/internal/network.cc:345-354 | the loop signals exactly the unmarked waiters whose deadline has passed |
| `MessageBrokerClass.MessageBroker.WaitClusterState` | src/ex_actor/internal/network.cc:251-261 | suspends exactly if the predicate does not hold, with a waiter for it |
| `MessageBrokerClass.MessageBroker.SendRequest` | src/ex_actor/internal/network.cc:231-239 | takes exactly the modelled step: errors for self and for unconnected targets, which still consume an id; otherwise one packet and one outstanding request |
| `MessageBrokerClass.MessageBroker.FinishSend` | src/ex_actor/internal/network.cc:239-249 | removes the request and reports a loss before a response |
| `MessageBrokerClass.MessageBroker.HandleRepliedResponse` | src/ex_actor/internal/network.cc:420-429 | an unknown id changes nothing; otherwise the response is stored and the request signalled |
| `MessageBrokerClass.MessageBroker.SendReply` | src/ex_actor/internal/network.cc:516-536 | sends to a connected requester and defers for any other |
| `MessageBrokerClass.MessageBroker.OnNodeAlive` | src/ex_actor/internal/network.cc:437-462 | connects, evaluates the waiters, and flushes the deferred replies |
| `MessageBrokerClass.MessageBroker.FailRequests` | src/ex_actor/internal/network.cc:464-482 | the two loops fail and signal exactly the requests to the lost node |
| `MessageBrokerClass.MessageBroker.OnNodeConnectionLost` | src/ex_actor/internal/network.cc:464-496 | fails its requests, forgets node and socket, keeps deferred replies, evaluates the waiters |
| `MessageBrokerClass.MessageBroker.CheckHeartbeatTimeout` | src/ex_actor/internal/network.cc:325-343 | loses exactly the other nodes last seen at least the timeout ago, a future timestamp counting as just seen |
| `MessageBrokerClass.MessageBroker.HandleGossipMessage` | src/ex_actor/internal/network.cc:399-418 | the loop learns the states in order up to the first conflict |
| `MessageBrokerClass.MessageBroker.DispatchReceivedMessage` | src/ex_actor/internal/network.cc:214-229 | gossip, responses to own requests, requests to this node, and an error for anything else |
| `MessageBrokerClass.MessageBroker.GetRandomPeers` | src/ex_actor/internal/network.cc:268-286 | distinct known nodes other than this one, min(fanout, all) of them |
| `MessageBrokerClass.MessageBroker.BroadcastGossip` | src/ex_actor/internal/network.cc:288-323 | stamps the own entry, then sends the whole table to the peers and to the contact; with a fanout of zero it fails after stamping |
| `ClusterSafety.RepliesMatchRequests` | src/ex_actor/internal/network.cc:214-249 | over a network that drops, duplicates and reorders: a request completes at most once, and a normal completion carries a payload its target's handler produced from exactly what was sent under this id, deferred replies included, unless the target listens on the requester's own address |
| `ClusterReplies.EveryAnswerIsReplied` | src/ex_actor/internal/network.cc:431-536 | in every run, for every answer that a handler produced, a reply with its data is under way to the requester's address or waits at the node for the requester |
| `ClusterReplies.DeferredGrowUntilFlushed` | src/ex_actor/internal/network.cc:437-536 | in every run, the replies deferred for a node only grow at their end, until all of them are under way to it |
| `ClusterCompletion.EveryRequestIsSent` | src/ex_actor/internal/network.cc:498-514 | in every run, every request on record is under way to its target's address |
| `ClusterCompletion.RequestCanBeAnswered` | src/ex_actor/internal/network.cc:214-229 | from every reachable state with a request under way to a running node, for every data there is a continuation in which the node's handler has answered it with this data |
| `ClusterCompletion.RequestCanComplete` | src/ex_actor/internal/network.cc:214-249 | from every reachable state, an unsignalled request between running nodes has a continuation in which it completes with whatever its target's handler answers, also if the target has not discovered the requester yet |
| `ClusterRestart.MatchingIsExact` | src/ex_actor/internal/network.cc:214-249 | in every reachable state, a request to a connected node is certain to be matched in all that can follow exactly if the socket does not lead to the requester's own address |
| `ClusterRestart.RestartedNodeAnswersItself` | src/ex_actor/internal/network.cc:214-249 | a run of 12 states in which a node crashes, is restarted at its address, and completes a request to its predecessor with the request's own payload, although the predecessor never answered anything |
| `ClusterRestart.ReplyCheckIsExact` | src/ex_actor/internal/network.cc:221-228 | a reply, sent at once or flushed later, fails the address check of a node exactly if that node is not the requester and has the requester's address |
| `ClusterRestart.AddressCheckIsExact` | src/ex_actor/internal/network.cc:221-228 | a request fails the address check of a node exactly if that node is neither its sender nor its target and has the target's address |
| `ClusterSafety.AnswersAreAskedFor` | src/ex_actor/internal/network.cc:431-435 | every answer a handler produced answers a request that its requester really sent to that node, with that payload, also among restarted nodes |
| `ClusterSafety.BeliefsAreGenuine` | src/ex_actor/internal/network.cc:288-301 | every table entry about a node carries that node's own address and name and a timestamp no newer than its own entry, and the socket leads to its address, also among restarted nodes |
| `ClusterSafety.GossipInFlightIsGenuine` | src/ex_actor/internal/network.cc:288-301 | the same holds of every state in a gossip message still under way |
| `ClusterSafety.ChecksNeverFire` | src/ex_actor/internal/network.cc:214-418 | no gossip delivered to a node makes a conflict check fail, and the address check fails only at a node that shares its address with the packet's requester or responder |
| `WeakPoolSafety.BitmapIsExact` | src/ex_actor/internal/scheduler/weak_priority_thread_pool.cc:78-83 | whenever a sub-queue is unlocked, bit p is set exactly if stack p is not empty |
| `WeakPoolSafety.PopsTheLowestLevel` | src/ex_actor/internal/scheduler/weak_priority_thread_pool.cc:107-121 | under the lock a pop takes the top of the lowest-numbered non-empty stack, finds one if there is any, and never reads an empty stack |
| `WeakPoolSafety.EachOperationIsInOnePlace` | src/ex_actor/internal/scheduler/weak_priority_thread_pool.cc:58-128 | every operation enqueued is in exactly one place: one local slot or hand, one sub-queue, or executed, once |
| `WeakPoolSafety.RetryingWorkersHaveWork` | src/ex_actor/internal/scheduler/weak_priority_thread_pool.cc:130-142 | the sub-queues hold one operation per permit, per worker in the retry loop and per unsignalled push, so a retrying worker always has one to find |
| `WeakPoolSafety.QuietMeansExecuted` | src/ex_actor/internal/scheduler/weak_priority_thread_pool.cc:130-154 | with no thread part-way and no permit left, every operation enqueued has been executed exactly once |
| `WeakPoolSafety.KeepsTheMostUrgent` | src/ex_actor/internal/scheduler/weak_priority_thread_pool.cc:58-76 | in every run, at every moment of an execution the worker's local slot holds the first of the most urgent operations enqueued in it so far, and is empty exactly if there was none; all others were given away |
| `WeakPoolCalls.EnqueueAlone` | src/ex_actor/internal/scheduler/weak_priority_thread_pool.cc:58-85 | from every reachable state a thread can enqueue by itself if its sub-queue is unlocked: the more urgent of the new operation and the one in the slot stays there, the other is on top of its stack, marked and signalled |
| `WeakPoolCalls.DequeueAlone` | src/ex_actor/internal/scheduler/weak_priority_thread_pool.cc:87-128 | from every reachable state with a permit an idle worker that drew two unlocked sub-queues, one of them not empty, takes the top of the lowest level of both by itself and executes it |
| `WeakPoolCalls.EndAlone` | src/ex_actor/internal/scheduler/weak_priority_thread_pool.cc:130-154 | a worker that ends an operation executes the one in its slot next, if there is one |
| `WeakPoolCalls.NeverStuck` | src/ex_actor/internal/scheduler/weak_priority_thread_pool.cc:58-128 | in every run a thread part-way through a call that does not wait for a lock has a next access |
| `WeakPoolClass.SubQueueObject.Push` | src/ex_actor/internal/scheduler/weak_priority_thread_pool.cc:78-83 | the operation is on top of its stack and the bitmap is exact |
| `WeakPoolClass.SubQueueObject.TryPop` | src/ex_actor/internal/scheduler/weak_priority_thread_pool.cc:107-121 | the top of the lowest-numbered non-empty stack comes off, or nothing exactly if all are empty, and the bitmap is exact |
| `WeakPoolClass.WeakPriorityThreadPool.EnqueueOperation` | src/ex_actor/internal/scheduler/weak_priority_thread_pool.cc:58-85 | the local slot, the chosen sub-queue and the semaphore after each of the four outcomes |
| `WeakPoolClass.WeakPriorityThreadPool.TryDequeueOperation` | src/ex_actor/internal/scheduler/weak_priority_thread_pool.cc:87-128 | of the two sub-queues drawn, moved apart if they are the same, what comes out is the top of a stack at least as urgent as anything in either, something comes out exactly if either holds anything, and no other sub-queue is touched |

## Left out

- C++ weak memory orders: steps interleave sequentially consistently only.
- The `ExActorShouldActivate` hook, allocation failure outside the block index, and throwing constructors: they void or clutter the guarantees.
- stdexec senders, coroutine frames and async scopes: a resumed coroutine is a later step, and scheduling adds one activation.
- Liveness: the theorems say that whoever has to act next exists and what a call leads to if it runs; that a thread is scheduled is up to the operating system, and calls may disturb one another for ever.
- ZMQ sockets, linger settings, the rebuilding of the contact socket with `contact_node_discovered_`, `Stop`, and the periodic scheduler's timing: network and clock are parameters.
- Serialization, handler-key hashing and logging: payloads are opaque.
- Explicit producers and their tokens, the implicit-producer hash table, and the per-block emptiness flags of the concurrent queue: a block's elements are counted.
- Construction and destruction of elements inside blocks, and moves that throw.
- `_free_global`, `reset` and the registration of threads in the linked queue's pool: a thread's free list stays its own. Queues are created and never destroyed.
- The stack of chunks in the class of the linked queue is a sequence of heads; the links of chunks are in `NodePoolSafety`.
- The bitmap of a sub-queue is a set of bits or a sequence of 64 booleans, not a machine word.
- The OS semaphore's waits do not fail for other reasons than a timeout.
- `ActorRegistryBackend`, `PreallocSlot`, the other thread pools and `SchedulerUnion`: only bookkeeping.
- That dead nodes stay dead, or that a returned cluster snapshot still satisfies the predicate: the code promises neither.
