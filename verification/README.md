# Verified model of the network simulator and its queue

The repository is a small network simulator. Hosts exchange files over a
Go-Back-N protocol, routers find routes with an asynchronous distance vector
algorithm, and every message travels through a lock-free queue, wrapped in a
blocking queue, that is vendored in full. This project models these parts in
Dafny and proves what they are for. `dafny verify dfyconfig.toml` checks it.

Concurrent code is modelled as a state machine: one step per load, store,
fetch_add, compare-and-swap or system call, with any number of threads, in every
interleaving. A run is a sequence of states that starts in `Init` and whose
neighbours are related by `Next`; the main results are statements about every
state, or every step, of every run. Sequential code is a class with the fields,
loops and branches of the original, proved against the functions that the
machines use.

## The modules

Lock-free queue (`concurrentqueue.h`):

- `Claims` - how consumers negotiate indices through the optimistic count, the
  overcommit count and the head.
- `CircularOrder` - when the wrapped comparison of counters is the true one.
- `BlockIndex` - the growing ring that maps block bases to blocks, and its invariant.
- `IndexObjects` - the same ring as header and entry objects with the copy loop, each
  method tied to the operation of `BlockIndex` that it stands for.
- `BlockStore` - one producer that fills blocks and keeps the index, any number of
  consumers that look up their blocks through whatever header they read.
  `BlockStoreSafety` has its invariant, `BlockStoreRuns` the results about lookups,
  values and blocks, `BlockStoreAccounts` conservation, `EnqueueOutcome` what one
  whole call of an enqueue does, and `BlockStoreProgress` that calls end and can succeed.
- `Fifo` - claims and blocks together: the producer is a FIFO queue; `FifoProgress` has
  whole calls of dequeue and enqueue.
- `FreeList` - the reference-counted free list; `FreeListCalls` has its whole calls.
- `BlockPool` - initial pool, free list and allocator.
- `SharedPool` - several producers, each a block store, with one pool.
- `RecycledBlocks` - the pool with the free list.
- `ProducerHash`, `ProducerHashSafety` - the hash from threads to producers;
  `ProducerHashRoom` shows when it has room, `ProducerHashCalls` what its calls return and
  leave behind, `ProducerHashOutcome` that producers are reused and that calls can succeed.

Blocking queue: `Semaphore` (the lightweight semaphore) and `BlockingQueue` (the
coupling of permits and items).

Transfer: `Packets` (cutting a message and joining it again), `GoBackN` (the
protocol), `GoBackNLimit` (how many packets the ids suffice for), `GoBackNRepeats` (what
packets sent again do to the receiver after the completion), `GoBackNFinished` (what their
acknowledgements do to the sender), `TcpConnections` (the connection object), `Timers`
(timer threads, flag and lock), `Connections` (protocol and timers together).

Routing: `Routes` (topology and routes), `Routing` (the algorithm, soundness and
optimality), `RoutingLoops` (loop freedom), `RoutingTermination`, `Convergence`
(the message counter), `NetworkNodes` and `Networks` (the objects).

`Options`, `Ranges`, `Totals` and `Modular` are small helpers.

## Findings

- The comment at TCPConnection.cpp:11 says 2**15 - 1; the value is 65535. The model
  follows the code.
- Ids repeat after `maxPacketId` packets. If data packets keep their order a transfer
  may have up to `2 * maxPacketId` packets, header included, and if they do not, up to
  `maxPacketId`: exactly up to there ids decide like packet numbers in every run
  (`GoBackNLimit.IdsLimit`) and every message of that size arrives as it was sent
  (`GoBackNLimit.LengthLimit`). With one packet more there is a run in which a packet
  sent again is taken for the next one. The window alone does not keep this from
  happening: slow start is capped at `maxPacketId` (TCPConnection.cpp:190), one more than
  a window's ids tell apart (`GoBackN.WindowLimit`), and congestion avoidance
  (TCPConnection.cpp:192) has no cap.
- After a completed transfer the receiver takes any packet with an eight-byte body for a
  new header, and any packet with the id 1 for the next packet. What it then receives
  begins with the true header, for every message of a size and in every run, exactly if
  no slice is eight bytes long and there are at most `maxPacketId + 1` packets
  (`GoBackNRepeats.TrueStartLimit`).
- The sender goes on to handle acknowledgements when it has finished. One with an id above
  the next expected one restarts it and arms a timer, which then goes on for ever
  (TCPConnection.cpp:199-205, `Timers.RearmedForEver`); one with the expected id makes it
  write behind the end of its buffer (TCPConnection.cpp:179-180). Up to `maxPacketId - 2`
  packets neither happens, and no larger bound will do (`GoBackNFinished.QuietLimit`,
  `Connections.RestLimit`); the exact numbers for a restart without order and for the
  overrun are in `GoBackNFinished.RestartLimit` and `GoBackNFinished.OverrunLimit`.
- `addLink` between two hosts prints that this is not possible and then uses a router
  that is not there (Network.cpp:42-47).
- The convergence counter can read zero before a router has started, and while a message
  is queued, because a message is counted after it was enqueued
  (`Convergence.ZeroCanComeTooEarly`); `Convergence.ZeroIff` says exactly when it
  reads zero.

## Model

| member | source | states |
|---|---|---|
| CircularOrder.WrappedComparisonAgrees | concurrentqueue-master/concurrentqueue.h:476-480 | for counters less than a range apart, the wrapped comparison is the true one if and only if they are at most half the range apart (strictly less when the first is behind) |
| Claims.ApprovedWithinTail | concurrentqueue-master/concurrentqueue.h:2555-2561 | however old the copies of the overcommit counter were, no more tickets are approved than elements were published |
| Claims.CountersBalance | concurrentqueue-master/concurrentqueue.h:2551-2619 | in every reachable state optimistic = head + overcommit + undecided claims |
| Claims.ClaimsNeverOverrun | concurrentqueue-master/concurrentqueue.h:2780-2801 | head plus all granted claims never passes the tail, so taken indices are published ones, single or bulk |
| Claims.ClaimsAreForGood | concurrentqueue-master/concurrentqueue.h:2562-2562 | each index below the head has one claimer for good; later states only append to the record |
| Claims.QuiescentCountersAgree | concurrentqueue-master/concurrentqueue.h:2613-2615 | with no consumer at work, what a new attempt computes as available is exactly tail - head |
| Claims.UndisturbedAttemptGetsAll | concurrentqueue-master/concurrentqueue.h:2780-2801 | an attempt that runs alone gets min(max, elements present), and fails only on an empty queue; with max zero it goes on although it claims nothing |
| Claims.WrappedLooksAgree | concurrentqueue-master/concurrentqueue.h:2780-2794 | both looks at the tail, in both wrapped forms, decide as unbounded integers would, however large the counters have become, as long as less than half their range happens around one attempt |
| FreeList.RunKeepsInv | concurrentqueue-master/concurrentqueue.h:1459-1538 | the invariant of the free list holds in every state of every run of add and try_get |
| FreeList.PoppedFlagIsClear | concurrentqueue-master/concurrentqueue.h:1490-1496 | the assertion after a successful pop: the should-be-on-list flag is clear |
| FreeList.HandsAreExclusive | concurrentqueue-master/concurrentqueue.h:1459-1538 | no node is in two hands: clients, the list and threads at work on nodes never share one |
| FreeList.PopTakesTheHead | concurrentqueue-master/concurrentqueue.h:1487-1497 | no ABA: a pop installs the true successor and hands out a node that was on the list |
| FreeList.ListIsAcyclic | concurrentqueue-master/concurrentqueue.h:1516-1538 | following links from the head visits each listed node once and stops |
| FreeList.EveryNodeIsAccountedFor | concurrentqueue-master/concurrentqueue.h:1459-1538 | each node is with a client, on the list, in one thread's hands, or flagged with a reference holder that will add it |
| FreeList.NoneLostWhenIdle | concurrentqueue-master/concurrentqueue.h:1459-1538 | when all threads are idle each node is held by a client or on the list |
| FreeListCalls.NothingOnlyFromEmpty | concurrentqueue-master/concurrentqueue.h:1478-1512 | a try_get that comes back with nothing, whatever the others did meanwhile, has a moment in between at which the list was empty |
| FreeListCalls.ReferencesNeedOne | concurrentqueue-master/concurrentqueue.h:1482-1486 | a thread takes a reference only to a node that has one already, by raising its word by one, and the count never runs into the flag |
| FreeListCalls.UndisturbedGet | concurrentqueue-master/concurrentqueue.h:1478-1497 | a try_get that nobody disturbs hands the first node to its caller and leaves the rest of the list; it gets nothing only from an empty list |
| FreeListCalls.UndisturbedAdd | concurrentqueue-master/concurrentqueue.h:1459-1476 | an add that nobody disturbs puts its node in front of the list |
| FreeListCalls.UndisturbedCallsEnd | concurrentqueue-master/concurrentqueue.h:1459-1538 | left alone, a thread is back after at most six steps, with the first node or with its own node in front |
| BlockIndex.PutKeyKeepsInv | concurrentqueue-master/concurrentqueue.h:2911-2915 | reusing an entry for the next block keeps keys and slots in step |
| BlockIndex.GrowthMeansFull | concurrentqueue-master/concurrentqueue.h:2907-2919 | the index grows only when all its entries hold live blocks |
| BlockIndex.GrowKeepsInv | concurrentqueue-master/concurrentqueue.h:2967-3008 | after growing, old and new header agree on the position of every block, modulo their capacities |
| BlockIndex.LookupIsSlot | concurrentqueue-master/concurrentqueue.h:2948-2961 | the position computed from any tail position and the key found there is the slot of the wanted block |
| BlockIndex.SlotHoldsBlock | concurrentqueue-master/concurrentqueue.h:2962-2963 | through any header since the block's own, the slot holds the block under its base |
| BlockIndex.TailReadIsKeyed | concurrentqueue-master/concurrentqueue.h:2955-2957 | a tail read in any header carries a key |
| BlockIndex.ClearKeepsInv | concurrentqueue-master/concurrentqueue.h:2605-2605 | taking an emptied block out of the index keeps the invariant |
| IndexObjects.ProducerIndex.CopyRing | concurrentqueue-master/concurrentqueue.h:2981-2989 | the copy loop goes exactly once round the old ring and copies each entry to its place |
| IndexObjects.ProducerIndex.NewBlockIndex | concurrentqueue-master/concurrentqueue.h:2967-3008 | the new header shares the old entries in order, adds fresh ones without keys, leaves the old header untouched, and represents the grown ring of BlockIndex |
| IndexObjects.ProducerIndex.InsertEntry | concurrentqueue-master/concurrentqueue.h:2901-2933 | the entry taken is the next one if free, a fresh one after growing, or none and nothing changed; the objects then represent the ring after the steps of BlockStore |
| IndexObjects.ProducerIndex.StartBlock | concurrentqueue-master/concurrentqueue.h:2501-2533 | success puts the block into the ring; a failure, be it of the index or of the pool, leaves the tail at the entry where it stood, also when the index has grown in between, and no block in the entry behind it |
| IndexObjects.ProducerIndex.IndexFor | concurrentqueue-master/concurrentqueue.h:2948-2964 | the position is as many positions from the tail as the block is blocks away, and under the invariant of BlockIndex the entry there holds the wanted block under its base |
| IndexObjects.RewindUndoesAdvance | concurrentqueue-master/concurrentqueue.h:2935-2939 | rewinding after advancing leads back |
| BlockStoreRuns.RunKeepsSafe | concurrentqueue-master/concurrentqueue.h:2487-2619 | the invariant of producer, index, blocks and consumers holds in every state of every run |
| BlockStoreRuns.LookupsAreRight | concurrentqueue-master/concurrentqueue.h:2948-2963 | in every state a consumer's stale header and tail lead to a key, to its own block, and to the value enqueued at its index |
| BlockStoreRuns.ConsumersNeverStuck | concurrentqueue-master/concurrentqueue.h:2562-2609 | a consumer with a claim can always take its next step; both assertions of the lookup hold |
| BlockStoreRuns.ProducerNeverStuck | concurrentqueue-master/concurrentqueue.h:2649-2699 | a running enqueue can always take its next step: the entries it reverts and the blocks it writes are where it looks for them |
| BlockStoreRuns.GrowingHelps | concurrentqueue-master/concurrentqueue.h:2923-2931 | after growing, the next entry has no key (the assertion of insert_block_index_entry) |
| BlockStoreRuns.DeliveredIsEnqueued | concurrentqueue-master/concurrentqueue.h:2565-2597 | what is delivered for index x is the x-th value enqueued, and was published |
| BlockStoreRuns.FetchedOnce | concurrentqueue-master/concurrentqueue.h:2814-2821 | each index is fetched at most once |
| BlockStoreRuns.HistoryOnlyGrows | concurrentqueue-master/concurrentqueue.h:2487-2619 | nothing written, delivered or marked empty is ever taken back |
| BlockStoreRuns.ReleasedBlocksAreDone | concurrentqueue-master/concurrentqueue.h:2599-2607 | a block leaves the index only after each of its slots was enqueued, delivered and marked empty |
| BlockStoreRuns.EmptyCounterFits | concurrentqueue-master/concurrentqueue.h:1628-1633 | the counter of dequeued elements never exceeds the block size |
| BlockStoreRuns.GivenBackOnce | concurrentqueue-master/concurrentqueue.h:2599-2607 | a consumer that gives a block back is its only holder |
| BlockStoreRuns.UndoneBlocksGivenBackOnce | concurrentqueue-master/concurrentqueue.h:2668-2676 | the blocks given back by a failed enqueue are distinct, owned, and no longer in the index |
| EnqueueOutcome.EnqueueIsAllOrNothing | concurrentqueue-master/concurrentqueue.h:2626-2700 | a whole call, interleaved with any consumers, either appends and publishes all its values, or leaves contents, lookups, tail and tail block as they were and gives back every block it took |
| EnqueueOutcome.FailsOnlyForMemory | concurrentqueue-master/concurrentqueue.h:2661-2679 | a call in which no allocation fails appends its values |
| BlockStoreProgress.FetchStepsAreBounded | concurrentqueue-master/concurrentqueue.h:2803-2871 | a consumer with n indices to fetch is through after at most 5 n + 3 steps of its own, whatever the others do; releasing a block counts as one step |
| BlockStoreProgress.EnqueueStepsAreBounded | concurrentqueue-master/concurrentqueue.h:2626-2773 | an enqueue of n values succeeds or fails after at most 8 ceil(n / 32) + n + 6 steps of its own, whatever the consumers do; obtaining a block counts as one step |
| BlockStoreProgress.EnqueueCanSucceed | concurrentqueue-master/concurrentqueue.h:2649-2699 | from every reachable state of an enqueue before a failure some continuation publishes its values |
| BlockStoreProgress.EnqueueCanFail | concurrentqueue-master/concurrentqueue.h:2661-2679 | when no block can be had, some continuation undoes the call and returns with the tail unchanged |
| BlockStoreAccounts.IdleMeansAllDelivered | concurrentqueue-master/concurrentqueue.h:2551-2619 | once all threads have returned, exactly the claimed indices were delivered and marked empty |
| BlockStoreAccounts.IdleBlocksAreLive | concurrentqueue-master/concurrentqueue.h:2599-2607 | once all threads have returned, every owned block holds an element not yet dequeued or room at the tail |
| BlockStoreAccounts.EmptyQueueOwnsOneBlock | concurrentqueue-master/concurrentqueue.h:2599-2607 | an empty idle queue owns at most the tail block, and none at a block boundary |
| Fifo.RunKeepsInv | concurrentqueue-master/concurrentqueue.h:2487-2619 | counters and blocks, run together, keep both invariants and their link |
| Fifo.PublishEnqueues | concurrentqueue-master/concurrentqueue.h:2546-2546 | publishing appends the call's values to the contents, all at once |
| Fifo.TakeDequeues | concurrentqueue-master/concurrentqueue.h:2801-2801 | taking indices removes the oldest values from the contents, and those are what the thread goes on to fetch |
| Fifo.OtherStepsKeepContents | concurrentqueue-master/concurrentqueue.h:2487-2619 | no other step changes the contents |
| Fifo.FetchDelivers | concurrentqueue-master/concurrentqueue.h:2565-2597 | each fetch delivers the next value of the thread's own claim, to the thread that claimed the index |
| Fifo.OwedStays | concurrentqueue-master/concurrentqueue.h:2803-2869 | what a thread is still owed changes only by its own taking and fetching |
| Fifo.NothingLostNothingTwice | concurrentqueue-master/concurrentqueue.h:2551-2619 | when all threads are idle, the values delivered are the values enqueued, number by number, and the rest is the contents |
| Fifo.TakersFindTheirElements | concurrentqueue-master/concurrentqueue.h:2799-2801 | a thread about to take n indices finds at least n published elements |
| FifoProgress.DequeueNeverStuck | concurrentqueue-master/concurrentqueue.h:2780-2879 | inside a dequeue a thread can always take its next step |
| FifoProgress.DequeueStepsAreBounded | concurrentqueue-master/concurrentqueue.h:2780-2879 | a dequeue of at most max elements is back after at most 5 max + 9 steps of its own, whatever the others do |
| FifoProgress.UndisturbedDequeue | concurrentqueue-master/concurrentqueue.h:2780-2879 | from every reachable state in which nobody is dequeuing, a dequeue that nobody disturbs can come back with the oldest min(max, present) elements, claimed by it and delivered in order, and leaves the rest |
| FifoProgress.UndisturbedEnqueue | concurrentqueue-master/concurrentqueue.h:2626-2773 | from every reachable state in which nobody is enqueuing, an enqueue that nobody disturbs can append its values |
| BlockPool.PoolBlockHasOnePlace | concurrentqueue-master/concurrentqueue.h:3056-3065 | every block of the initial pool is in exactly one of pool, free list and one producer's hands, although the pool index may run past the end |
| BlockPool.HandedOutOnce | concurrentqueue-master/concurrentqueue.h:3094-3112 | a block handed out was in nobody's hands and is then in those of the producer that asked |
| BlockPool.PoolUsedFirst | concurrentqueue-master/concurrentqueue.h:3056-3065 | a thread asks the free list or the allocator, or comes back with nothing, only when no block of the initial pool is left |
| BlockPool.FirstBlockFirst | concurrentqueue-master/concurrentqueue.h:3094-3112 | what is handed out is the first block left of the initial pool, and if none is left a listed block or one that did not exist |
| BlockPool.CallCanSucceed | concurrentqueue-master/concurrentqueue.h:3094-3112 | every thread can call, and wherever its call is it can still get a block |
| BlockPool.OnlyPoolBlocksRecycled | concurrentqueue-master/concurrentqueue.h:3067-3078 | with recycling off only pool blocks enter the free list, and they are never destroyed |
| SharedPool.BlocksAreNotShared | concurrentqueue-master/concurrentqueue.h:3094-3112 | several producers with one pool: in every reachable state no block belongs to two of them |
| SharedPool.PoolBlockHasOneOwner | concurrentqueue-master/concurrentqueue.h:3056-3092 | every block of the initial pool is in exactly one of the pool, the free list and the blocks of one producer |
| SharedPool.ProducersRunAsAlone | concurrentqueue-master/concurrentqueue.h:2487-2619 | whatever the others do, each producer's state is one that it reaches in a run of its own, so all results about one producer hold for it |
| SharedPool.StoreStepsFit | concurrentqueue-master/concurrentqueue.h:2599-2607 | every step other than obtaining a block that a producer or its consumers could take alone is possible here too: a block they give away is theirs to give |
| SharedPool.ObtainFits | concurrentqueue-master/concurrentqueue.h:2515-2521 | a producer that asks for a block can take whichever the pool hands it |
| SharedPool.RequestsCanBeMet | concurrentqueue-master/concurrentqueue.h:3094-3112 | whenever a producer asks for a block, some continuation gives it one and leaves the other producers as they were |
| RecycledBlocks.ListedIsInCustody | concurrentqueue-master/concurrentqueue.h:1459-1538 | pool and free list together: the blocks that the pool counts as listed are those on the list, in the hands of a thread inside add or try_get, or flagged for their last referrer |
| RecycledBlocks.PoolBlockIsFound | concurrentqueue-master/concurrentqueue.h:3056-3092 | every block of the initial pool is not handed out yet, with one producer, or in the custody of the free list, and never in two of these places |
| RecycledBlocks.ReturnedIsListed | concurrentqueue-master/concurrentqueue.h:3089-3092 | a node that a thread returns from try_get is one that the pool counts as listed, and the thread one that the pool waits for, so the block can be handed out |
| RecycledBlocks.ReleasedCanBeAdded | concurrentqueue-master/concurrentqueue.h:3067-3078 | a block that a producer gives back is one that a thread may add |
| RecycledBlocks.AskersNeverStuck | concurrentqueue-master/concurrentqueue.h:3089-3092 | a thread that the pool sends to the free list can always begin there, take its next step or return |
| RecycledBlocks.UndisturbedCallReuses | concurrentqueue-master/concurrentqueue.h:3100-3104 | with the initial pool used up and nobody else at work on the list, a thread gets its first block |
| RecycledBlocks.AllocatesOnlyWhenDry | concurrentqueue-master/concurrentqueue.h:3094-3112 | a call allocates, or returns nothing, only if no block of the initial pool is left and the free list was empty at some moment of the call |
| RecycledBlocks.PoolStepsFit | concurrentqueue-master/concurrentqueue.h:3056-3078 | every step of the pool in which the list has no part is possible here too |
| ProducerHashSafety.RunKeepsInv | concurrentqueue-master/concurrentqueue.h:3388-3533 | the invariant of tables, entries and threads holds in every state of every run |
| ProducerHashSafety.LookupReturnsOwn | concurrentqueue-master/concurrentqueue.h:3411-3456 | a call returns the thread's own producer, or nothing to a thread that has none |
| ProducerHashSafety.NeverInsertsTwice | concurrentqueue-master/concurrentqueue.h:3391-3393 | a thread with a producer finds its entry, whatever others insert, remove, copy or append, and never inserts again |
| ProducerHashSafety.ProducerStays | concurrentqueue-master/concurrentqueue.h:3388-3533 | once obtained, the producer stays the thread's own until its exit |
| ProducerHashSafety.NoSharing | concurrentqueue-master/concurrentqueue.h:3227-3244 | no two threads hold the same producer, and a held one is active |
| ProducerHashSafety.EntriesCarryOwner | concurrentqueue-master/concurrentqueue.h:3506-3522 | an entry carries its own thread's producer, but for the moment between its two stores |
| ProducerHashSafety.ExitLeavesNothing | concurrentqueue-master/concurrentqueue.h:3536-3564 | an exiting thread has no entry left in any table before its producer becomes recyclable |
| ProducerHashRoom.SlotIsFree | concurrentqueue-master/concurrentqueue.h:3411-3424 | while fewer threads have registered than half the slots of the first table, that table is the only one and has an empty slot |
| ProducerHashRoom.ScansEnd | concurrentqueue-master/concurrentqueue.h:3411-3449 | then no scan for a lookup, an insertion or an exit goes once round the table |
| ProducerHashCalls.CallObtains | concurrentqueue-master/concurrentqueue.h:3451-3522 | a call by a thread without a producer ends with one that is new or was inactive when it was taken, between call and return, and is active; or with none, and then the last step was an allocation that failed |
| ProducerHashCalls.CallRegisters | concurrentqueue-master/concurrentqueue.h:3411-3449 | a call that returns a producer leaves the thread's entry in a table no older than the newest one at the call: found there, inserted, or copied forward |
| ProducerHashCalls.LoadIsKept | concurrentqueue-master/concurrentqueue.h:3451-3487 | a thread that registers as number n does so in a table of which n is less than three quarters |
| ProducerHashOutcome.ReusesFirst | concurrentqueue-master/concurrentqueue.h:3227-3244 | a new producer is made only if each producer there was in use at some moment of the scan |
| ProducerHashOutcome.InUseMeansHeld | concurrentqueue-master/concurrentqueue.h:3536-3564 | a producer is active if and only if some thread has it, so an exit frees it |
| ProducerHashOutcome.CallCanSucceed | concurrentqueue-master/concurrentqueue.h:3388-3533 | with fewer registrations than half the first table, every thread can call, and wherever its call is, it can go on to return a producer |
| ProducerHashOutcome.GrowingCanSucceed | concurrentqueue-master/concurrentqueue.h:3457-3482 | a thread that grows the hash can get a table in which its number is less than half the slots |
| ProducerHashOutcome.ExitCanEnd | concurrentqueue-master/concurrentqueue.h:3536-3564 | under the same condition an exit that has begun can end and free the producer |
| ProducerHashOutcome.NeverStuck | concurrentqueue-master/concurrentqueue.h:3388-3564 | inside a call or an exit a thread can always take its next step: tables, slots and producers that it works on are there |
| Semaphore.NeverOverIssued | concurrentqueue-master/lightweightsemaphore.h:407-416 | acquired never exceeds initial plus signalled; the rest is in the count, posted or being posted |
| Semaphore.WaitersAreCounted | concurrentqueue-master/lightweightsemaphore.h:276-346 | waiters = max(0, -count) + posts in progress + permits, and initial + signalled = acquired + count + waiters |
| Semaphore.CancellerHasPermit | concurrentqueue-master/lightweightsemaphore.h:297-309 | a timed-out waiter that sees a count of zero or more has a permit posted or being posted |
| Semaphore.NoLostWakeup | concurrentqueue-master/lightweightsemaphore.h:276-346 | while a unit is left and a thread waits, a permit is posted or being posted |
| Semaphore.NeverMoreThanAsked | concurrentqueue-master/lightweightsemaphore.h:382-405 | in every state, what a call has got or returns is at most what it was asked for |
| Semaphore.QuickAttemptIsGreedy | concurrentqueue-master/lightweightsemaphore.h:382-394 | a call of tryWaitMany returns with min(max, units there) of the moment before its return, and takes exactly these; it returns nothing only if nothing is there, however often its CAS failed |
| Semaphore.WaitsForUnits | concurrentqueue-master/lightweightsemaphore.h:276-346 | a call that may wait returns nothing only as a waiter that has lowered the count, found it negative and taken that back; with less than it asked for it returns only if that leaves no unit |
| Semaphore.WaitForeverGetsSome | concurrentqueue-master/lightweightsemaphore.h:400-405 | the assertion of waitMany: without a timeout a call returns at least one unit and at most what it asked for, unless the system's wait came back without a permit |
| Semaphore.NeverStuck | concurrentqueue-master/lightweightsemaphore.h:276-416 | inside an operation a thread can always take its next step |
| Semaphore.UnitsCanBeHad | concurrentqueue-master/lightweightsemaphore.h:377-388 | with units there, a quick attempt that nobody disturbs gets min(max, units) in two steps |
| Semaphore.SpinnersCanTake | concurrentqueue-master/lightweightsemaphore.h:317-327 | so does a waiting call while it spins |
| Semaphore.WaitersCanSleep | concurrentqueue-master/lightweightsemaphore.h:276-296 | with none there, a waiting call can come to sleep in three steps, counted |
| Semaphore.PermitWakesWaiter | concurrentqueue-master/lightweightsemaphore.h:290-306 | a posted permit wakes a sleeper, and lets one that is giving up have its unit |
| Semaphore.SleepersCanGiveUp | concurrentqueue-master/lightweightsemaphore.h:302-309 | while the count is negative a sleeper can give up in three steps and takes its count back |
| Semaphore.PostsCanBeMade | concurrentqueue-master/lightweightsemaphore.h:411-415 | a signaller can post all its permits |
| Semaphore.QuietCountIsExact | concurrentqueue-master/lightweightsemaphore.h:355-424 | with no operation under way the count is what is left |
| BlockingQueue.ItemsAreAccountedFor | concurrentqueue-master/blockingconcurrentqueue.h:130-137 | items = enqueued and not signalled + units nobody has + units held and not used |
| BlockingQueue.SpinnersHaveItems | concurrentqueue-master/blockingconcurrentqueue.h:366-374 | a thread that loops on the inner dequeue has an item present for each unit it holds |
| BlockingQueue.SpinnersDoNotCompete | concurrentqueue-master/blockingconcurrentqueue.h:301-310 | the items suffice for the units that all threads hold together |
| BlockingQueue.QuietCountIsItems | concurrentqueue-master/blockingconcurrentqueue.h:130-137 | with no operation under way the semaphore counts the items |
| BlockingQueue.SpinnersCanDequeue | concurrentqueue-master/blockingconcurrentqueue.h:366-374 | so such a thread can always take an item |
| BlockingQueue.ItemsCanBeHad | concurrentqueue-master/blockingconcurrentqueue.h:366-374 | with no operation under way and items there, a call that nobody disturbs gets min(max, items) units |
| BlockingQueue.EnqueuesCanSignal | concurrentqueue-master/blockingconcurrentqueue.h:130-137 | an enqueue of n items can add n units and gets as many permits to post as there are waiters to wake |
| Packets.HeaderRoundTrip | TCPConnection.cpp:240-241 | the size written into the header is the size read from it |
| Packets.PacketizeRoundTrip | TCPConnection.cpp:228-262 | the data packets' bodies, joined, are the message |
| Packets.PacketAt | TCPConnection.cpp:243-258 | packet i carries i modulo the number of ids, and no data packet is empty |
| GoBackN.RunKeepsInv | TCPConnection.cpp:170-353 | the invariant of sender, receiver and both channels holds in every state of every run |
| GoBackN.BufferIsPrefix | TCPConnection.cpp:307-330 | until the message is complete, the receiver's buffer is a prefix of the sender's packets, the header first |
| GoBackN.FileIsMessage | TCPConnection.cpp:340-353 | the file written is the message given to packetize |
| GoBackN.AckedMeansAccepted | TCPConnection.cpp:177-180 | the sender never counts more packets as acknowledged than were accepted, although discarded ones are acknowledged too: until the first file in every transfer, and for good within the limit |
| GoBackN.SenderFinishesLast | TCPConnection.cpp:183-188 | the sender finishes only after the file was written |
| GoBackN.TransferCanAlwaysFinish | TCPConnection.cpp:131-147 | from every reachable state of a transfer of any length, whatever was lost, some continuation completes it |
| GoBackN.WindowIsKept | TCPConnection.cpp:276-292 | in every transfer, between handler calls lastAcked < lastSent <= min(lastAcked + cwnd, last packet), cwnd and ssthresh at least 1 |
| GoBackN.IdsDecideLikeNumbers | TCPConnection.cpp:177-181 | comparing ids modulo maxPacketId decides as comparing packet numbers, at both ends, within the limit on the packets and, with order, for any length while the window stays below maxPacketId |
| GoBackN.WindowLimit | TCPConnection.cpp:278-288 | ids tell a window's packets from the expected one if and only if the window is at most maxPacketId - 1 |
| GoBackNLimit.SlowStartReaches | TCPConnection.cpp:189-198 | without losses the windows 1, 2, 4, .. are sent, accepted and acknowledged one after the other, up to the one that reaches packet maxPacketId |
| GoBackNLimit.IdsRunOut | TCPConnection.cpp:319-325 | with more packets than the limit a state is reached in which the packet maxPacketId before the expected one may arrive |
| GoBackNLimit.IdsLimit | TCPConnection.cpp:177-181 | ids decide like packet numbers in every run if and only if there are at most 2 * maxPacketId packets with order, maxPacketId without |
| GoBackNLimit.LengthLimit | TCPConnection.cpp:307-353 | every message of a size arrives as sent in every run, the buffer a prefix of the packets and the file the message, if and only if it is cut into no more packets than that |
| GoBackNRepeats.RepeatsAreHarmless | TCPConnection.cpp:310-330 | with no eight-byte slice and at most maxPacketId + 1 packets every file ever written is the message, whatever is sent again after the completion |
| GoBackNRepeats.TrueStartLimit | TCPConnection.cpp:310-330 | within the limit, what is received after the completion begins with the true header, for every message of a size and in every run, if and only if no slice is eight bytes long and there are at most maxPacketId + 1 packets |
| GoBackNFinished.LateAcksAreQuiet | TCPConnection.cpp:170-208 | with at most maxPacketId - 2 packets every acknowledgement that reaches a finished sender has an id below the next expected one, so it neither restarts it nor passes the end of its buffer |
| GoBackNFinished.QuietLimit | TCPConnection.cpp:170-208 | for either channel that is the largest such number of packets |
| GoBackNFinished.RestartLimit | TCPConnection.cpp:199-206 | without order a finished sender can be restarted if and only if there are at least maxPacketId - 1 packets and their number is not maxPacketId - 2 modulo maxPacketId |
| GoBackNFinished.OverrunLimit | TCPConnection.cpp:177-180 | within the limit on packets, an acknowledgement behind the end of the buffer can reach a finished sender if and only if the transfer has exactly as many packets as the limit |
| GoBackN.SlowStartDoubles | TCPConnection.cpp:189-190 | after k windows of slow start the window is 2^k, below threshold and cap |
| GoBackN.AvoidanceAddsOne | TCPConnection.cpp:191-192 | from the threshold on k windows add k to the window |
| GoBackN.RestartThenAvoidance | TCPConnection.cpp:123-129 | after a restart the window doubles until half of the old one, and then grows by one per window |
| TcpConnections.TcpConnection.Packetize | TCPConnection.cpp:228-262 | the output buffer holds the dummy and the packets of the message |
| TcpConnections.TcpConnection.SendNextWindow | TCPConnection.cpp:276-292 | exactly the packets after the last acknowledged one, up to the window or the end, are sent in order |
| TcpConnections.TcpConnection.HandleAck | TCPConnection.cpp:170-208 | the sender moves as the protocol's function says, also after the completion, and transmits its window exactly when that says so; it reports exactly the acknowledgement that is looked up behind the end of the buffer |
| TcpConnections.TcpConnection.Retransmit | TCPConnection.cpp:138-144 | after a timeout exactly the first unacknowledged packet is sent again |
| TcpConnections.TcpConnection.HandleData | TCPConnection.cpp:307-338 | the receiver moves as the protocol's function says, and every packet is acknowledged with its own id |
| TcpConnections.TcpConnection.OnNewFileCompletelyReceived | TCPConnection.cpp:340-353 | the bodies behind the header are written in order and the receiver is reset |
| Timers.ExactlyOneTimer | TCPConnection.cpp:194-205 | between handler calls exactly one timer thread lives, listed and allowed to act, while the transfer is unfinished, none afterwards, and one again if a late acknowledgement has restarted the sender |
| Timers.RearmedForEver | TCPConnection.cpp:131-147 | once that has happened there is a timer thread for good |
| Timers.NobodyActsDuringJoin | TCPConnection.cpp:155-167 | while stopTimeout has given up the lock, no timer retransmits or touches the thread list |
| Timers.JoinIsNeverStuck | TCPConnection.cpp:161-163 | every thread being joined is over or can take a step |
| Timers.JoinIsShort | TCPConnection.cpp:131-164 | a join lasts for at most three steps, whatever is scheduled, since each brings the one living timer closer to its end |
| Timers.NoThreadIsForgotten | TCPConnection.cpp:149-164 | a living timer thread is always listed, and the list is cleared only when all are over |
| Timers.LockIsExclusive | TCPConnection.cpp:137-137 | at most one thread holds the connection lock |
| Connections.OneTimerUntilDone | TCPConnection.cpp:170-208 | protocol and timers together: between handler calls one timer may retransmit exactly as long as the protocol is not done, or was restarted |
| Connections.TimerForEachWindow | TCPConnection.cpp:192-205 | between handler calls as many timers have been started as windows were sent, counting acknowledgements that end a window before the last packet, acknowledgements above the expected one and timeouts; all timers but the youngest are over, and that one is alive unless the transfer is done and was not restarted |
| Connections.ShortTransfersRest | TCPConnection.cpp:149-167 | with at most maxPacketId - 2 packets no timer thread is left when the protocol is done and the handler rests, and none comes back |
| Connections.TimerComesBack | TCPConnection.cpp:199-206 | a timer comes back after the completion in some run if and only if in some run of the protocol alone an acknowledgement that restarts it reaches the finished sender |
| Connections.TimerComesBackAt | TCPConnection.cpp:199-206 | without order: if and only if there are at least maxPacketId - 1 packets and their number is not maxPacketId - 2 modulo maxPacketId |
| Connections.RestLimit | TCPConnection.cpp:149-167 | for either channel, maxPacketId - 2 is the largest number of packets up to which the timers end with the transfer |
| Routing.CostsAreReal | Nodes/AbstractNode.cpp:56-70 | at every moment entries and messages carry costs of real routes, and an entry's next hop starts its route |
| Routing.ConvergedIsOptimal | Nodes/Router.cpp:88-125 | once all routers have started and no routing message is left, entries exist for exactly the reachable destinations and are cheapest routes |
| Routing.NoRouteIsCheaper | Nodes/Router.cpp:59-69 | in a converged state no route is cheaper than the entry at its start |
| RoutingLoops.NextHopIsCloser | Nodes/Router.cpp:127-137 | in every state a next hop other than the destination is a router with an entry cheaper by at least the link |
| RoutingLoops.TablesOnlyImprove | Nodes/AbstractNode.cpp:56-70 | entries are never lost and never become dearer |
| RoutingLoops.JourneyComesCloser | Nodes/Router.cpp:127-137 | after k hops, while tables keep changing, a packet has arrived or stands at a router at least k cheaper |
| RoutingLoops.HopsAreBounded | Nodes/Host.cpp:89-96 | the number of hops is at most the first table's cost, and no node on the way lacks an entry |
| RoutingTermination.EveryRunIsFinite | Nodes/Router.cpp:88-125 | no schedule goes on for ever |
| RoutingTermination.NextDecreases | Nodes/Router.cpp:88-125 | each step decreases (unstarted nodes, absent entries, sum of costs, work under way) lexicographically |
| RoutingTermination.StuckMeansConverged | Nodes/Host.cpp:67-73 | a run that cannot go on has converged, with every send counted |
| Convergence.CounterBalances | NetworkController.cpp:34-47 | counter + enqueued and not yet counted = queued + being processed, as integers and modulo 2^64 |
| Convergence.ZeroIff | NetworkController.cpp:49-53 | the counter reads zero if and only if as many messages are uncounted as are open |
| Convergence.ZeroDetectsConvergence | Network.cpp:127-135 | once all routers have started and made their first announcements, and no message is enqueued and not yet counted, the counter is zero exactly if nothing is queued, being processed or still to be sent; zero then means convergence |
| Convergence.ZeroMeansOptimal | Network.cpp:127-135 | under that condition the tables are optimal |
| Convergence.ZeroCanComeTooEarly | Nodes/Router.cpp:116-117 | a run in which the counter reads zero with an entry missing, before a router has started and again with a message queued |
| NetworkNodes.Node.SendToAll | Nodes/Router.cpp:114-123 | one message to each target, each counted after it was enqueued |
| NetworkNodes.Node.BroadcastNewLink | Nodes/Router.cpp:109-125 | a running router sends the news to each neighbour once, others send nothing |
| NetworkNodes.Node.UpdateRoutingTable | Nodes/Router.cpp:88-96 | strict relaxation of one entry, broadcast by a running router exactly when it changed |
| NetworkNodes.Node.AddLinkTo | Nodes/AbstractNode.cpp:42-54 | links and table of a node that gets a new link; a running router broadcasts it if its table changed |
| NetworkNodes.Node.HandleRoutingMessage | Nodes/Router.cpp:59-69 | relaxation with the sender's offer, broadcast, and counting down |
| NetworkNodes.Node.StartRouter | Nodes/Router.cpp:34-37 | every entry is announced to every neighbour once |
| NetworkNodes.NetworkController.IncConvergeCounter | NetworkController.cpp:34-38 | the counter goes up by one in 64 bits |
| NetworkNodes.NetworkController.DecConvergeCounter | NetworkController.cpp:40-47 | the counter goes down by one in 64 bits |
| NetworkNodes.RelaxIsLearning | Nodes/AbstractNode.cpp:56-70 | the machine's relaxation step changes the node's table as the object's method does, and nobody else's |
| NetworkNodes.BroadcastIsNews | Nodes/Router.cpp:109-125 | the machine's broadcast is what the object's method sends |
| NetworkNodes.BroadcastAllIsAllNews | Nodes/Router.cpp:34-37 | the machine's initial broadcast is what the object's method sends |
| Networks.Network.AddNode | Network.cpp:8-26 | an address in use is refused; otherwise the node is new and has no links |
| Networks.Network.AddLink | Network.cpp:28-59 | both ends record the link with one cost, nobody else changes, and the topology stays symmetric; unknown addresses and two hosts leave everything as it was |
| Networks.Network.BuiltNetworkIsInitial | Network.cpp:100-107 | a network built by these methods is a valid topology whose tables are those a run starts from |

## Left out

- Weak memory orders and fences: every step is sequentially consistent. Spin counts are nondeterminism.
- Wrap-around of the 64-bit queue counters inside the machines; `CircularOrder` and `Claims.WrappedLooksAgree` say when the wrapped comparisons agree. The semaphore's count, the `int` cast of its release count and the producer hash's count do not wrap either.
- Explicit producers, tokens, consumer rotation and their block index, which the simulator never uses.
- The check of the head before a block is started, and `MAX_SUBQUEUE_SIZE`: with the default limit the check always passes.
- Exceptions of element constructors and assignments, alignment, moving and swapping queues, destructors, debug code and memory statistics.
- `dequeue_bulk` with a maximum of zero in modules `BlockStore` and `Fifo`, which ask for at least one element: such a call goes on to look up a block although it has claimed nothing (`Claims.UndisturbedAttemptGetsAll`).
- In module `BlockStore` the pool is "any block not owned, or failure"; `SharedPool` puts several stores and `BlockPool` together. In `BlockPool` the free list is a set of blocks; `RecycledBlocks` puts `FreeList` in its place, for nodes that are a fixed finite set of blocks. Block contents other than the element slots and the counter are not modelled, and resetting the counter of a block just obtained is part of obtaining it.
- The free list's 31-bit reference count does not overflow: there are at most 2^30 - 1 threads.
- The producer list is a sequence of flags: a scan goes through it from the newest on, and a new producer joins it in one step.
- ProducerHashRoom.SlotIsFree: is about fewer registrations than half the first table; whether a slot is free in every table that the hash grows to is not proved. The count alone does not bound the slots used there, as a thread that loaded an outgrown table may reuse a tombstone in it, which takes its unit of the count back, and be copied into a fresh slot later.
- ProducerHashOutcome.CallCanSucceed: is about the same condition, and so is `ProducerHashOutcome.ExitCanEnd`.
- BlockStoreProgress.EnqueueStepsAreBounded: counts obtaining a block as one step, and `BlockStoreProgress.FetchStepsAreBounded` releasing one; the free list behind them is lock-free but has no such bound.
- Whether an inner `try_dequeue` succeeds at once: module `BlockingQueue` shows that an item is present, `FifoProgress.UndisturbedDequeue` that an undisturbed attempt gets it.
- The implicit producer, the free list, the semaphore and the hash are step relations on values, not classes: their fields are updated by many threads at once. In-place update is shown for the producer's own index objects.
- GoBackNRepeats.TrueStartLimit: is about transfers within the limit of `GoBackNLimit`; beyond it already the first file can be wrong.
- GoBackNFinished.RestartLimit: is about data packets in any order; for an ordered channel `QuietLimit` gives the largest bound, and which longer transfers can be restarted depends on how far the window reaches before packet `maxPacketId - 1` is acknowledged.
- Connections.TimerComesBackAt: likewise about data packets in any order.
- What the sender does after it has written behind the end of its buffer: a run of `GoBackN` does not go on there.
- Repeated transfers over one connection, zero-length messages, closing and resetting a connection, `measureRTT` (floating point) with the flags and times in the output buffer that only it reads, real timeouts, random drop rates (loss is a free choice), logging and files other than the one received.
- The last slice of `packetize` is taken as clipped at the end of the message, and the vector's capacity as exact.
- Data packets of an ordered channel are lost or arrive once; those of the reordering channel may also be repeated.
- Links that change after `run`, `updateLinkCost`, `temporarilyDownLink`, `removeLink`, a pair of nodes linked twice with different costs, overflow of costs, host-host links, and bounded router buffers (`setBufferSize` never records the limit).
- Routing messages are unordered bags, and the order in which a router iterates over its links is free; both cover more schedules than the code has.
- Data packets do not appear in the routing machine's queues; they change no table.
- Shutdown, `clearQueue`, printing, `draw`, `logLink`, main.cpp and the C interface.
