# A verified model of the atomic queues

The queues of this repository are ring buffers. A push takes a ticket from
`head_`, a pop takes one from `tail_`, and each ticket belongs to a slot that
its holders then use as a small lock between producers and consumers. This
project models the queues, the locks and barriers around them, and two client
programs, and proves what holds in all interleavings of any number of threads.

The concurrent parts are step systems: one atomic access per step, in any
order, with spurious failures of `compare_exchange_weak`. Words are 32-bit and
wrap around; next to them, histories keep unbounded tickets. Parts that work on
words alone are functions, loops and classes are methods and classes.

| file | models |
|---|---|
| Words.dfy, Bits.dfy, Remap.dfy, Sizing.dfy | wrapping indexes, bit fields, the three remappers, rounding of sizes |
| SlotMap.dfy | tickets and slots, and how many tickets a slot receives |
| Protocol.dfy | the steps of `AtomicQueue` with many producers and consumers, and their invariant |
| Calls.dfy | what a call to `AtomicQueue` is answered with |
| Conservation.dfy, Drain.dfy, Capacity.dfy, Delivery.dfy | nothing is lost; who can finish; how full it gets; in which order elements arrive |
| Scenarios.dfy | runs that show what does not hold |
| StateQueue.dfy, StateCalls.dfy | `AtomicQueue2`, its refinement to `AtomicQueue`, and what a call to it is answered with |
| Spsc.dfy | both queues with one producer and one consumer |
| Sums.dfy, Clients.dfy, Outcomes.dfy, Programs.dfy | client programs, the throughput benchmark and the example |
| StateClients.dfy | the same programs with `AtomicQueue2` |
| Fifo.dfy, LockedQueue.dfy | the sequential bounded queue, and the locked ring buffer under a ticket lock |
| Sequential.dfy | the three queue classes as one thread sees them |
| Barriers.dfy | the two barriers |

## Where code and documentation differ

The model follows the code.

* `README.md:227` gives 2^32 - 1 as the limit of the size. The signed
  comparisons make it 2^31 - 1: from 2^31 on, an empty queue looks full, so
  that `try_push` on it fails (`Words.FullTestExactIff`). A `B` queue that is asked for more than 2^31
  elements silently becomes one of the least size (`Sizing.DynamicSizeIsValid`).
* `README.md:234` says that each slot is accessed by one producer and one
  consumer only. A sleeping producer can be overtaken on its slot by one a lap
  later, also when all clients only try (`Scenarios.OvertakingRun`). Elements
  then arrive out of ticket order. `Delivery.OrderIffNoOvertaking` says exactly
  when one side keeps the order of its tickets, `Delivery.DeliversIff` and
  `Delivery.DeliveryIffNoOvertaking` when elements go to the pops with their
  tickets. Nothing is lost even so (`Conservation.RunConserves`).
* `README.md:252` says that an incomplete push does not affect any other push.
  In `AtomicQueue2` a producer asleep while it is storing makes the next
  producer of its slot wait, too (`StateQueue.PushWaitsForPush`). For
  `AtomicQueue`, `Drain.OneFrozenIff` and `Drain.FrozenAffectsOne` say exactly
  whom a preempted thread affects.
* With `MINIMIZE_CONTENTION = false` and a size that does not divide 2^32, the
  two sides lose their common slots when the indexes wrap around
  (`SlotMap.WrapConsistentIff`). The queues are modelled with sizes for which
  this does not happen.
* The language lets a relaxed load return a value that is as old as one likes,
  unless the thread has read, written or synchronised with a newer one. If a
  thread's first load of the other index is 2^31 claims old, it may overfill the
  queue or pop what is not there (`Scenarios.OverfillingRun`,
  `Scenarios.OverpoppingRun`; `Capacity.ClaimIsSafeIff` and
  `Capacity.PopClaimIsSafeIff` are the exact conditions).
* A thread that sleeps between its loads for long enough sees a wrapped
  difference, also when all loads are current. `try_push` may return false on an
  empty queue and `try_pop` on one that is not (`Scenarios.WronglyFullRun`,
  `Scenarios.WronglyEmptyRun`; `Capacity.FullIsJustifiedIff` and
  `Capacity.EmptyIsJustifiedIff` are the exact conditions), and after 2^32 claims
  an exchange succeeds that should not (`Scenarios.OversleepingRun`).
* `TicketSpinlock::unlock()` without an argument skips a ticket
  (`LockedQueue.UnlockWithoutTicketStrands`). The lock is modelled as its
  `LockGuard` uses it.
* `was_empty` and `was_full` of the locked queue are const functions that lock a
  mutex that is not mutable. They are modelled as if it were.

## Model

| member | source | states |
|---|---|---|
| Words.SignedDifference | include/atomic_queue/defs.h:173 | the signed difference of two wrapped counters is the true one whenever that is in [-2^31, 2^31) |
| Words.FullTestExactIff | include/atomic_queue/atomic_queue.h:402 | the full test is exact for every fill level and every index if and only if the size is below 2^31; from 2^31 on even an empty queue looks full |
| Words.StaleFullTestIff | include/atomic_queue/atomic_queue.h:402 | whatever two indexes it compares, the full test passes exactly if their distance modulo 2^32 is below the size or at least 2^31 |
| Words.StaleEmptyTestIff | include/atomic_queue/atomic_queue.h:421 | and the empty test holds exactly if their distance modulo 2^32 is 0 or at least 2^31 |
| Remap.SwapIsInvolution | include/atomic_queue/atomic_queue.h:53-58 | the exchange of element and line bits maps below 2^k, undoes itself there, and depends on the low k bits only |
| Remap.RemapXorSwaps | include/atomic_queue/atomic_queue.h:71-83 | `RemapXor` is the exchange of the two lowest N-bit fields, with and without a size, for every 32-bit index |
| Remap.RemapAndSwaps | include/atomic_queue/atomic_queue.h:85-101 | `RemapAnd` is the same exchange |
| Remap.RemapBmiSwaps | include/atomic_queue/atomic_queue.h:104-133 | `RemapBmi`, by the bit-level meaning of bzhi and bextr under the control word N << 8 or N, is the same exchange |
| Remap.RemappersAgree | include/atomic_queue/atomic_queue.h:71-133 | all three remappers agree for every index, every power-of-two size of at least 2^(2N), and every N in 1..8 |
| Remap.NeighboursOnDifferentLines | include/atomic_queue/atomic_queue.h:53-58 | tickets less than 2^N apart go to different cache lines of 2^N elements |
| Sizing.Smear | include/atomic_queue/atomic_queue.h:192-200 | the or-smear with shifts 1, 2, 4, ... is the or of all right shifts below twice the last one |
| Sizing.OrAllOnes | include/atomic_queue/atomic_queue.h:170-180 | the or of enough right shifts of a number is ones from its highest bit down |
| Sizing.ShuffleBitsIff | include/atomic_queue/atomic_queue.h:40-50 | all bits of a line index are shuffled exactly if contention is to be minimized and an array of 2^k elements has room for both fields; otherwise none |
| Sizing.RoundUp32IsLeastPower | include/atomic_queue/atomic_queue.h:202-204 | the result is the least power of two that is at least a exactly for a in 1..2^31, and 0 for all other 32-bit a |
| Sizing.RoundUp64IsLeastPower | include/atomic_queue/atomic_queue.h:206-208 | the same of the 64-bit version, exactly for 1..2^63 |
| Sizing.StaticSizeIsValid | include/atomic_queue/atomic_queue.h:487-489 | a statically sized queue asked for 1..2^30 elements gets a power of two that is large enough, below 2^31, and has room for its shuffle bits |
| Sizing.DynamicSizeIsValid | include/atomic_queue/atomic_queue.h:606 | a B queue always gets a power of two with room for its shuffle bits, at least what it was asked for if and only if that is at most 2^31, and the least size of its class above that |
| Sizing.DynamicSizeIsLeast | include/atomic_queue/atomic_queue.h:606 | for requests up to 2^31, no smaller power of two would be enough and have room for the shuffle bits |
| SlotMap.RemapIsSwap | include/atomic_queue/atomic_queue.h:136-146 | the slot of a wrapped index is the exchange applied to the unbounded ticket: the wrap at 2^32 does not show |
| SlotMap.PowerConfigIsConsistent | include/atomic_queue/atomic_queue.h:487-489 | for each power-of-two size up to 2^31 and its shuffle bits: slots are in range, each slot is hit, and two tickets share one exactly if they are congruent modulo the size, also across the wrap |
| SlotMap.PowerConfigIsValid | include/atomic_queue/atomic_queue.h:487-489 | and up to 2^30 the size is below 2^31, as the signed comparisons need |
| SlotMap.WrapConsistentIff | include/atomic_queue/atomic_queue.h:140-142 | for a size that is not rounded, tickets a lap apart share their slot across the wrap if and only if the size divides 2^32 |
| SlotMap.SlotCongruence | include/atomic_queue/atomic_queue.h:140-150 | two tickets share a slot if and only if they are congruent modulo the size |
| SlotMap.IssuedWindow | include/atomic_queue/atomic_queue.h:140-150 | any `size` consecutive tickets cover every slot exactly once |
| SlotMap.IssuedWithinLap | include/atomic_queue/atomic_queue.h:140-150 | with indexes at most a lap apart, no slot has received two tickets more on one side than on the other |
| SlotMap.IssuedBeyondLap | include/atomic_queue/atomic_queue.h:140-150 | beyond a lap, some slot has |
| SlotMap.SameSlotApart | include/atomic_queue/atomic_queue.h:140-150 | different tickets of one slot are at least a lap apart |
| SlotMap.WindowDistinct | include/atomic_queue/atomic_queue.h:140-150 | no two of `size` consecutive tickets share a slot |
| Protocol.InitInv | include/atomic_queue/atomic_queue.h:510-514 | the invariant holds in every initial state |
| Protocol.ClaimPushKeepsInv | include/atomic_queue/atomic_queue.h:401-404 | a claim of a producer ticket keeps the invariant |
| Protocol.ClaimPopKeepsInv | include/atomic_queue/atomic_queue.h:420-423 | a claim of a consumer ticket keeps the invariant |
| Protocol.StoreKeepsInv | include/atomic_queue/atomic_queue.h:334-338 | a successful compare-and-exchange of an empty slot keeps the invariant |
| Protocol.RemoveKeepsInv | include/atomic_queue/atomic_queue.h:308-317 | an exchange that yields an element keeps the invariant |
| Protocol.AccessKeepsInv | include/atomic_queue/atomic_queue.h:291-455 | every atomic access of every operation keeps the invariant, with spurious failures and loads of any age |
| Protocol.NextKeepsInv | include/atomic_queue/atomic_queue.h:391-455 | so does every step |
| Protocol.RunInv | include/atomic_queue/atomic_queue.h:291-455 | in every run that mixes all operations: 0 or 1 more stores than takes on each slot, the cell is the element between, takes follow stores in order, every ticket issued is used or held, and indexes are their counters modulo 2^32 |
| Calls.StepMoves | include/atomic_queue/atomic_queue.h:391-455 | each step is a call by one thread at rest or an access by one thread in a call, and leaves all other threads alone |
| Calls.CallIsAnswered | include/atomic_queue/atomic_queue.h:391-455 | in every run, a push returns when it has stored the element of its call, a pop with the element that it takes, exactly once and with a ticket claimed in this call; a try may instead return false, having done nothing, after a test that says so |
| Calls.ReturnIsAnswer | include/atomic_queue/atomic_queue.h:391-455 | every return in every run is such an answer to the operation that the thread last called |
| Calls.ResultStays | include/atomic_queue/atomic_queue.h:391-455 | a thread at rest keeps its result until it calls the next operation |
| Calls.TryPushAlone | include/atomic_queue/atomic_queue.h:400-408 | from any place before its claim, also after a failed exchange, a `try_push` that runs alone claims a ticket for its element or gives up within four accesses; with a fresh head it gives up exactly if the queue looks full |
| Calls.TryPopAlone | include/atomic_queue/atomic_queue.h:419-427 | likewise a `try_pop`, which with a fresh tail gives up exactly if the queue looks empty |
| Calls.LoadsMayBeStale | include/atomic_queue/atomic_queue.h:394-423 | a load sees the index as it was any number of claims ago, and the tests decide on exactly that value |
| Calls.ExchangesMayFail | include/atomic_queue/atomic_queue.h:335-404 | a weak exchange may fail for no reason, and then nothing is claimed or stored |
| Conservation.SlotIsFifo | include/atomic_queue/atomic_queue.h:291-340 | the values stored in a slot are those taken from it, in order, and then the one that it holds |
| Conservation.SlotsConserve | include/atomic_queue/atomic_queue.h:291-340 | summed over the slots, stored elements are taken elements plus contents, as multisets |
| Conservation.RunConserves | include/atomic_queue/atomic_queue.h:391-455 | in every state of every run, the multiset of stored elements is that of the popped ones plus the contents, and each slot yields its elements in the order of the stores |
| Drain.BalancedSlotIsNotStuck | README.md:234-235 | while some threads are frozen: on a slot whose stores and takes, with those that are claimed by threads that are not frozen, are as many or one store more, one of these threads is ready as long as there is one |
| Drain.CompletionEffect | include/atomic_queue/atomic_queue.h:291-340 | a completion finishes one claim, so their number is a termination measure, and touches no other thread, no index and the balance of no slot |
| Drain.DrainSlots | README.md:250-255 | from any reachable state, completions alone finish all claims of threads that are not frozen on such slots, while the frozen threads and those on other slots stand still |
| Drain.DrainableIff | README.md:250-255 | while a set of threads is frozen, all claims of the others on a set of slots can be finished if and only if for each slot the stores, with the claimed ones of the others, are as many as the takes, with the claimed ones of the others, or one more |
| Drain.OneFrozenIff | README.md:252-255 | a frozen thread concerns its own slot only, where all others can finish if and only if, for a push, the producers are one or two tickets ahead, and for a pop, the consumers are level or one ahead |
| Drain.FrozenWithinLap | README.md:254-255 | within a lap, a frozen push is in the way if and only if a pop of its ticket has been claimed, and a frozen pop if and only if the next push on its slot has |
| Drain.FrozenAffectsOne | README.md:254-255 | and then exactly one other operation cannot finish: some thread of the other side is on the slot, and with any one of these left out all others can finish |
| Drain.BalancedIff | include/atomic_queue/atomic_queue.h:391-428 | all slots are balanced if and only if 0 <= head - tail <= size |
| Drain.NoDeadlock | README.md:250-255 | in a reachable state with 0 <= head - tail <= size in which no slot access can succeed, no claim is unfinished |
| Capacity.ClaimFindsRoom | include/atomic_queue/atomic_queue.h:401-404 | a compare-and-exchange of `try_push` that succeeds does so with fewer than `size` elements claimed, if no thread has slept through 2^32 claims or uses an index 2^31 old |
| Capacity.ClaimFindsElement | include/atomic_queue/atomic_queue.h:420-423 | one of `try_pop` does so with an element to claim, if no thread has slept through 2^32 claims or uses an index more than 2^31 old |
| Capacity.ClaimIsSafeIff | include/atomic_queue/atomic_queue.h:401-404 | after the test of `try_push` has passed, the claim finds room whatever the tail may have become if and only if the tail that it saw is less than 2^31 behind |
| Capacity.PopClaimIsSafeIff | include/atomic_queue/atomic_queue.h:420-423 | after the test of `try_pop` has passed, the claim finds an element whatever the head may have become if and only if the head that it saw is at most 2^31 behind the tail |
| Capacity.NextWithinCapacity | include/atomic_queue/atomic_queue.h:391-428 | every step of try-only clients keeps 0 <= head - tail <= size, under the same two conditions |
| Capacity.RunWithinCapacity | include/atomic_queue/atomic_queue.h:391-428 | 0 <= head - tail <= size in all reachable states of any number of try-only threads, even with stale loads of both indexes, as long as no thread sleeps through 2^32 claims or uses a value 2^31 old; both conditions are needed |
| Capacity.CurrentRunWithinCapacity | include/atomic_queue/atomic_queue.h:391-428 | if loads are current, the first of the two conditions is enough: the signed differences of successful claims never overflow |
| Capacity.SleepIsSafeIff | include/atomic_queue/atomic_queue.h:404 | a thread that sleeps through at most n claims is sure to see another head if there were any, if and only if n is below 2^32 |
| Capacity.TriesNeverDeadlock | include/atomic_queue/atomic_queue.h:391-428 | in every run of such clients, if no slot access can succeed then no claim is unfinished |
| Capacity.FullIsJustified | include/atomic_queue/atomic_queue.h:401-404 | in every reachable state of any clients, `try_push` gives up only if the queue is full at that instant or its thread has overslept, and always if it has |
| Capacity.EmptyIsJustified | include/atomic_queue/atomic_queue.h:420-423 | in every reachable state of any clients, `try_pop` gives up only if the queue is empty at that instant or its thread has overslept, and always if it has |
| Capacity.FullIsJustifiedIff | include/atomic_queue/atomic_queue.h:401-404 | a `try_push` that gives up is sure to do so on a full queue, whatever the head may be by now, if and only if it has not overslept: the tail is not past the head that it has seen, or by a distance that modulo 2^32 is not in (2^31, 2^32 - size] |
| Capacity.EmptyIsJustifiedIff | include/atomic_queue/atomic_queue.h:420-423 | a `try_pop` that gives up is sure to do so on an empty queue, whatever the tail may be by now, if and only if it has not overslept: the head is not past the tail that it has seen, or by a distance that modulo 2^32 is in (0, 2^31) |
| Capacity.RunFullIsJustified | include/atomic_queue/atomic_queue.h:400-404 | in every run of tries with current loads in which none sleeps through 2^32 claims before an exchange, `try_push` returns false only with exactly `size` elements in the queue, unless it has overslept; never otherwise while the tail is at most 2^31 past the head that it has seen |
| Capacity.RunEmptyIsJustified | include/atomic_queue/atomic_queue.h:419-423 | in such runs, `try_pop` returns false only on an empty queue, unless it has overslept; never otherwise while the head is less than 2^31 past the tail that it has seen |
| Delivery.StepView | include/atomic_queue/atomic_queue.h:291-455 | seen from one side, each step issues one ticket, uses one on its slot, or does nothing |
| Delivery.ViewNextAccounted | include/atomic_queue/atomic_queue.h:391-455 | every issued ticket is held by exactly one thread or has been used on its own slot, never both |
| Delivery.UseKeepsOrderIff | include/atomic_queue/atomic_queue.h:291-340 | a use keeps the ticket order of its slot if and only if no older ticket of the slot is still held |
| Delivery.OrderIffNoOvertaking | include/atomic_queue/atomic_queue.h:291-455 | in any run, one side has used the tickets of all slots in order if and only if no thread of that side has ever overtaken the holder of an older ticket of its slot |
| Delivery.DeliversIff | include/atomic_queue/atomic_queue.h:291-455 | every pop has returned the element of the push with its ticket if and only if stores and takes of every slot have used its tickets in the same order |
| Delivery.DeliveryIffNoOvertaking | include/atomic_queue/atomic_queue.h:291-455 | in any run in which no consumer overtakes, once the slots are empty, delivery was by ticket if and only if no producer has overtaken another |
| Delivery.OnePerSideDelivers | include/atomic_queue/atomic_queue.h:291-455 | with one thread on each side the queue for many producers and consumers delivers the element of every push to the pop with its ticket |
| Delivery.InOrderDelivers | include/atomic_queue/atomic_queue.h:430-455 | with both sides in order, every pop has returned the element of the push with the same ticket |
| Delivery.NoLapNoOvertaking | include/atomic_queue/atomic_queue.h:402 | nobody is overtaken as long as no ticket is issued a lap after an unused one |
| Delivery.NoLapDelivery | include/atomic_queue/atomic_queue.h:291-455 | so in such runs the pop with ticket t returns exactly the element pushed with ticket t |
| Scenarios.OvertakingRun | include/atomic_queue/atomic_queue.h:402 | strict FIFO is false in general: a run of three try-only clients of a queue with one slot, all loads current, in which the pop with ticket 0 returns the element of push ticket 1 |
| Scenarios.OverfillingRun | include/atomic_queue/atomic_queue.h:402 | the bound on the age of a loaded tail cannot be dropped: all loads of a run are current but one, by a thread that has not called anything before, of a tail 2^31 - 1 pops old, and two elements are claimed in a queue with one slot |
| Scenarios.OverpoppingRun | include/atomic_queue/atomic_queue.h:421 | nor can that on the age of a loaded head: after one load of a head 2^31 + 1 pushes old, more pops than pushes are claimed |
| Scenarios.OversleepingRun | include/atomic_queue/atomic_queue.h:404 | the bound on sleeping is exact: a run with current loads in which a thread sleeps through 2^32 claims, exchanges the same head successfully, and overfills the queue |
| Scenarios.WronglyFullRun | include/atomic_queue/atomic_queue.h:402 | a run with current loads in which `try_push` returns false on an empty queue, after 2^31 + 1 pops between its two loads |
| Scenarios.WronglyEmptyRun | include/atomic_queue/atomic_queue.h:421 | a run with current loads in which `try_pop` returns false although the queue has an element, after 2^31 pushes between its two loads |
| StateQueue.AccessOwned | include/atomic_queue/atomic_queue.h:342-389 | every access keeps: a slot is STORING or LOADING exactly while one thread that stores or loads owns it |
| StateQueue.RunOwned | include/atomic_queue/atomic_queue.h:342-389 | so in every state of every run |
| StateQueue.NoDataRace | include/atomic_queue/atomic_queue.h:362-387 | no two threads are ever about to access the same plain element |
| StateQueue.OthersWait | include/atomic_queue/atomic_queue.h:377-388 | as long as a thread is storing or loading on a slot, no other push or pop gets on there |
| StateQueue.PushWaitsForPush | README.md:252 | an incomplete push does affect another push: a run within the capacity of one slot in which a push can only wait for a producer asleep in STORING |
| StateQueue.SimulateStore | include/atomic_queue/atomic_queue.h:387-388 | a push takes effect, as a store of `AtomicQueue`, when its slot becomes STORED |
| StateQueue.SimulateTake | include/atomic_queue/atomic_queue.h:342-363 | a pop takes effect when its slot goes from STORED to LOADING |
| StateQueue.SimulateNext | include/atomic_queue/atomic_queue.h:342-455 | every step of `AtomicQueue2` is a step of `AtomicQueue` with the same result, or invisible there |
| StateQueue.RunRefines | include/atomic_queue/atomic_queue.h:342-455 | every run of `AtomicQueue2` is matched, state by state, by a run of `AtomicQueue` with current loads that may pause: same indexes, operations, results and slot contents |
| StateQueue.NoDeadlock | include/atomic_queue/atomic_queue.h:342-389 | with 0 <= head - tail <= size, if no slot access can succeed, not counting spurious failures, then no operation of `AtomicQueue2` is unfinished |
| StateQueue.TriesNeverDeadlock | include/atomic_queue/atomic_queue.h:342-428 | in every run of try-only clients of `AtomicQueue2` that do not sleep through 2^32 claims, the signed difference of the indexes is in 0..size, and if no slot access can succeed then no operation is unfinished |
| StateCalls.CallIsAnswered | include/atomic_queue/atomic_queue.h:342-455 | in every run of `AtomicQueue2`, a push returns when the slot of the ticket claimed in this call becomes STORED with the element of its call; a pop returns the element that was in the slot of its ticket when it acquired it; a try may instead return false, having done nothing, after a test that says so |
| StateCalls.ReturnIsAnswer | include/atomic_queue/atomic_queue.h:342-455 | every return in every run is such an answer to the operation that the thread last called |
| StateCalls.ResultStays | include/atomic_queue/atomic_queue.h:342-455 | a thread at rest keeps its result until it calls the next operation |
| StateCalls.TryPushAlone | include/atomic_queue/atomic_queue.h:400-408 | a `try_push` that runs alone claims a ticket for its element or gives up within four accesses, from any place before its claim |
| StateCalls.TryPopAlone | include/atomic_queue/atomic_queue.h:419-427 | and so does a `try_pop` |
| StateCalls.ExchangesMayFail | include/atomic_queue/atomic_queue.h:356-404 | a weak exchange may fail for no reason, and then nothing is claimed or acquired |
| Spsc.BlockedIff | include/atomic_queue/atomic_queue.h:297-331 | the next slot to push to is occupied exactly if the queue is full, and the next one to pop from exactly unless it is empty |
| Spsc.ProduceKeepsInv | include/atomic_queue/atomic_queue.h:327-331 | each load and store of the producer keeps the ring invariant, in both slot variants |
| Spsc.ConsumeKeepsInv | include/atomic_queue/atomic_queue.h:297-306 | and so does each one of the consumer |
| Spsc.NextIsFifoStep | include/atomic_queue/atomic_queue.h:297-375 | each step is invisible, or a push that returns with its element appended to a queue with room, or a pop that returns the oldest element |
| Spsc.RunIsFifo | include/atomic_queue/atomic_queue.h:395-448 | in every interleaving of optimistic operations and tries, with stale loads of the other index: popped is a prefix of pushed, at most `size` apart, and the steps are those of a FIFO queue |
| Spsc.PushIsAnswered | include/atomic_queue/atomic_queue.h:392-442 | in every run, a push returns when it has pushed the element that it was called with, just once; a `try_push` may instead return false, having done nothing, after a test that says so |
| Spsc.PopIsAnswered | include/atomic_queue/atomic_queue.h:411-455 | and a pop returns the oldest element, just once; a `try_pop` may instead return false in the same way |
| Spsc.RestStays | include/atomic_queue/atomic_queue.h:391-455 | while a side is at rest, its last result and what it has pushed or popped stay as they are |
| Spsc.ProducerAdvances | include/atomic_queue/atomic_queue.h:327-442 | each access of a call of the producer brings it nearer to its return, unless it waits in a full queue |
| Spsc.ConsumerAdvances | include/atomic_queue/atomic_queue.h:297-455 | and so for the consumer, unless it waits in an empty queue |
| Spsc.PushOnce | include/atomic_queue/atomic_queue.h:431-441 | whatever has happened before, a producer at rest can push an element into a queue with room in at most six steps of its own |
| Spsc.PopOnce | include/atomic_queue/atomic_queue.h:445-454 | and a consumer at rest can pop the oldest element of a queue that is not empty |
| Spsc.LoadsMayBeStale | include/atomic_queue/atomic_queue.h:394-417 | the tests decide on any past value of the other index that the load may return |
| Spsc.NoDataRace | include/atomic_queue/atomic_queue.h:362-387 | the plain element that the producer writes is never the one that the consumer reads |
| Spsc.FullIsJustified | include/atomic_queue/atomic_queue.h:394-398 | `try_push` gives up if and only if the queue is full and the consumer has not advanced the tail for the next element yet |
| Spsc.EmptyIsJustified | include/atomic_queue/atomic_queue.h:413-417 | `try_pop` gives up if and only if the queue is empty and the producer has not advanced the head for the next element yet |
| Spsc.NeverBothWait | include/atomic_queue/atomic_queue.h:297-375 | the producer spins exactly while the queue is full and the consumer exactly while it is empty, so never both |
| Clients.ClientNextKeepsInv | src/benchmarks.cc:345-387 | each step of the threads of a client program keeps: each element of the scripts is in one place, sums are those of the received elements, and only stops may be last in the queue |
| Clients.ClientRunInv | src/benchmarks.cc:337-391 | so in every state of every run |
| Outcomes.StuckHasEnded | src/example.cc:24-58 | a state in which every thread spins or waits in vain is one in which all of them have ended |
| Outcomes.NeverStuck | src/example.cc:24-58 | no run of a well-formed client program reaches a deadlock |
| Outcomes.AllStoppedAllFinished | src/example.cc:56-58 | once all consumers have stopped, all pushers have finished, and no stop value is left |
| Outcomes.EndIndexes | src/example.cc:58 | and as many pops as pushes have been claimed |
| Outcomes.ExactlyOnce | src/example.cc:58-69 | and the queue is empty, every element was popped exactly once, and the sums add up to the sum of the scripts |
| Programs.ProgressDescends | src/benchmarks.cc:345-387 | every step that is not spinning lowers a potential of 6 per element to push and 3 per consumer |
| Programs.BoundedProgress | src/benchmarks.cc:345-387 | in any run, at most as many steps as the initial potential are not spinning |
| Programs.CanComplete | src/benchmarks.cc:337-391 | from every reachable state the program can be completed |
| Programs.SomeRunCompletes | src/benchmarks.cc:337-391 | and there is a run that ends: all consumers stop and all pushers finish |
| Programs.BenchmarkProducer | src/benchmarks.cc:340-353 | the do-while loop of a producer pushes n, n - 1, ..., 1: its script |
| Programs.ExampleProducer | src/example.cc:44-45 | so does the for loop, for n = 0 too |
| Programs.ConsumerLoop | src/benchmarks.cc:381-389 | a consumer stops at the first stop value and has added up all elements up to it, from its bias on |
| Programs.BenchmarkScripts | src/benchmarks.cc:337-391 | each of N producers pushes n, n - 1, ..., 1, each of N consumers stops at 1, and sums begin at 1 |
| Programs.ExampleScripts | src/example.cc:24-54 | each producer pushes n, n - 1, ..., 1, the main thread joins them and pushes a 0 per consumer, consumers stop at 0, and sums begin at 0 |
| Programs.Checksum | src/benchmarks.cc:438-453 | the checksum loop adds up all sums that are set, each less its bias of 1 |
| Programs.BenchmarkIsCorrect | src/benchmarks.cc:433-457 | the throughput benchmark, in every run: never stuck, at most N (6 n + 3) steps that are not spinning, and at the end an empty queue, each of 1..n popped exactly N times and nothing else, and a checksum of N n (n + 1) / 2 |
| Programs.ExampleIsCorrect | src/example.cc:24-73 | the example, in every run: never stuck, and at the end as many pops as pushes, an empty queue, each of 1..n popped exactly once per producer, 0 once per consumer and nothing else, and consumer sums that add up to the expected total |
| StateClients.SimulateStep | src/benchmarks.cc:345-387 | each step of a client program with `AtomicQueue2` is one with `AtomicQueue`, or not seen there; none that changes anything can be repeated for ever |
| StateClients.EveryRunIsCorrect | src/example.cc:24-73 | a well-formed client program with `AtomicQueue2`, in every run: never stuck, a bounded number of steps that are not spinning, and at the end equal indexes, all slots EMPTY, each element popped exactly once, and the right sums |
| StateClients.BenchmarkIsCorrect | src/benchmarks.cc:433-457 | so for the throughput benchmark, with the same counts and a checksum of N n (n + 1) / 2 |
| StateClients.ExampleIsCorrect | src/example.cc:24-73 | and for the example, with the same counts and consumer sums that add up to the expected total |
| Fifo.AfterIsFifo | include/atomic_queue/atomic_queue_mutex.h:48-69 | on any sequence of operations the sequential bounded queue yields what it accepted, in order, with at most `size` in between |
| Fifo.UnsignedTests | include/atomic_queue/atomic_queue_mutex.h:51-62 | the unsigned tests of the locked queue are exact at every index, also across the wrap |
| LockedQueue.PositionIsDistance | include/atomic_queue/spinlock.h:82-83 | the position that a waiting thread computes is exactly the number of unlocks before its turn |
| LockedQueue.MutualExclusion | include/atomic_queue/spinlock.h:57-72 | at most one thread is between lock and unlock |
| LockedQueue.EntersInTurn | include/atomic_queue/spinlock.h:80-91 | a thread enters exactly when the number of unlocks equals its ticket, and nobody is inside then |
| LockedQueue.NeverStuck | include/atomic_queue/spinlock.h:80-91 | while a ticket is unserved, the thread that drew it can take a step that changes the state |
| LockedQueue.BackOff | include/atomic_queue/spinlock.h:86-88 | the inner loop ends, after as many pauses as the position, 2^32 for 0 |
| LockedQueue.UnlockWithoutTicketStrands | include/atomic_queue/spinlock.h:93-99 | `unlock()` admits ticket n + 2 and passes over n + 1, which may enter after k further unlocks if and only if k + 1 is a multiple of 2^32 |
| LockedQueue.TestDecides | include/atomic_queue/atomic_queue_mutex.h:48-79 | inside the lock, the test of each operation decides as the sequential queue does |
| LockedQueue.SectionStep | include/atomic_queue/atomic_queue_mutex.h:48-79 | each access inside the lock brings memory from the queue before the operation to that after it |
| LockedQueue.NextKeepsInv | include/atomic_queue/atomic_queue_mutex.h:48-79 | every step of every thread keeps the invariant of lock, memory and results |
| LockedQueue.RunIsSerial | include/atomic_queue/atomic_queue_mutex.h:48-69 | in every run the results are exactly those of the sequential bounded queue in the order of lock tickets, across the wrap of all four counters |
| LockedQueue.CallIsAnswered | include/atomic_queue/atomic_queue_mutex.h:48-79 | in every run, the result that a caller gets is that of its own operation in the sequential queue, at the place of a lock ticket drawn during the call, so that the order of tickets respects that of calls |
| LockedQueue.ReturnIsAnswer | include/atomic_queue/atomic_queue_mutex.h:48-79 | every return in every run is such an answer to the operation that the thread last called |
| LockedQueue.ResultStays | include/atomic_queue/atomic_queue_mutex.h:48-79 | a thread at rest keeps its result until it calls the next operation |
| Sequential.AtomicQueueCommon.TryClaimPush | include/atomic_queue/atomic_queue.h:394-405 | claims the ticket of the head if and only if the queue is not full, however often the weak exchange fails |
| Sequential.AtomicQueueCommon.TryClaimPop | include/atomic_queue/atomic_queue.h:413-424 | claims the ticket of the tail if and only if the queue is not empty |
| Sequential.AtomicQueueCommon.WasSize | include/atomic_queue/atomic_queue.h:465-469 | the size is exact for one thread |
| Sequential.AtomicQueueCommon.WasFull | include/atomic_queue/atomic_queue.h:461-463 | true if and only if the queue holds `size` elements |
| Sequential.AtomicQueueCommon.WasEmpty | include/atomic_queue/atomic_queue.h:457-459 | true if and only if the queue is empty |
| Sequential.AtomicQueue.DoPush | include/atomic_queue/atomic_queue.h:321-340 | the element is appended in the slot of its ticket, in both modes |
| Sequential.AtomicQueue.DoPop | include/atomic_queue/atomic_queue.h:291-319 | the oldest element is taken and its slot marked empty |
| Sequential.AtomicQueue.TryPush | include/atomic_queue/atomic_queue.h:392-409 | appends the element and returns true, or returns false with the contents unchanged if and only if the queue is full |
| Sequential.AtomicQueue.TryPop | include/atomic_queue/atomic_queue.h:411-428 | yields the oldest element, or false if and only if the queue is empty |
| Sequential.AtomicQueue.Push | include/atomic_queue/atomic_queue.h:430-442 | appends the element to a queue that is not full |
| Sequential.AtomicQueue.Pop | include/atomic_queue/atomic_queue.h:444-455 | yields the oldest element of a queue that is not empty |
| Sequential.AtomicQueue2.DoPush | include/atomic_queue/atomic_queue.h:366-389 | the element is appended, and the slot state ends as STORED |
| Sequential.AtomicQueue2.DoPop | include/atomic_queue/atomic_queue.h:342-364 | the oldest element is taken, and the slot state ends as EMPTY |
| Sequential.AtomicQueue2.TryPush | include/atomic_queue/atomic_queue.h:392-409 | as that of `AtomicQueue`, for elements of any value |
| Sequential.AtomicQueue2.TryPop | include/atomic_queue/atomic_queue.h:411-428 | as that of `AtomicQueue` |
| Sequential.AtomicQueueMutex.TryPush | include/atomic_queue/atomic_queue_mutex.h:48-58 | appends the element, or returns false if and only if the queue is full |
| Sequential.AtomicQueueMutex.TryPop | include/atomic_queue/atomic_queue_mutex.h:60-69 | yields the oldest element, or false if and only if the queue is empty |
| Sequential.RunAll | include/atomic_queue/atomic_queue.h:482-554 | on every sequence of operations all three classes give the same results, those of the bounded queue, in both modes, with any remapping, across any number of wraps, and however often each weak exchange of each operation fails |
| Barriers.ProceedKeepsInv | include/atomic_queue/barrier.h:37-45 | each access keeps: the counter is the number of callers that have not counted down, and indexes mirror the order of arrival |
| Barriers.ReturnsTogether | include/atomic_queue/barrier.h:37-45 | no caller returns before all have entered, and its index is below their number and nobody else has it |
| Barriers.IndexesArePermutation | include/atomic_queue/barrier.h:37-45 | when all have returned, every number below their number is the index of exactly one |
| Barriers.CountdownNeverStuck | include/atomic_queue/barrier.h:37-45 | until all have returned, some caller can take a step that changes the state |
| Barriers.GateOpensForAll | include/atomic_queue/barrier.h:19-29 | `Barrier`: no waiter leaves and the releaser does not return before all have arrived, then each waiter can leave at once, and until then the releaser can go on or a waiter has yet to arrive |

## Left out

* Weak memory: steps are sequentially consistent, except that loads of the
  indexes may be stale where a property says so. Loads in `AtomicQueue2` and in
  the client programs return current values.
* Objects shared by threads (the queues, the ticket lock, the barriers) are
  states of step systems rather than classes, because what matters is how the
  threads interleave. The classes in Sequential.dfy update their arrays in place,
  for one thread.
* `maximize_throughput_` and `total_order_`: the former only adds loads before a
  retry, the latter only strengthens a memory order.
* Optimistic pushes and pops by one thread on a full or an empty queue, which
  wait for ever: in Sequential.dfy they are preconditions. Protocol.dfy and
  Spsc.dfy model the waiting.
* `was_size`, `was_empty` and `was_full` of the atomic queues while others use
  them: two loads in no particular order give no useful bound.
* Elements are integers. Moving them, and what their constructors may throw, is
  not modelled, nor are allocators, move, swap and destruction of the queues.
* The sums of the client programs are unbounded integers; the
  64-bit sums of the sources are those modulo 2^64. Starvation warnings, timing,
  placement and the conversion through double are not modelled.
* `Spinlock`, `UnfairSpinlock` and adapters to other mutexes: foreign calls, or
  without an order to state.
* Huge pages, processor frequency, latency benchmarks, and the other queues that
  the benchmarks compare with.
* A barrier that is used more than once, or with a number of callers other than
  the one it was started with.
- Capacity.RunWithinCapacity: assumes that no thread sleeps through 2^32 claims between its load and its compare-and-exchange, and that the index of the other side that it compared with is not 2^31 old; without either the claim is false, as Scenarios.OversleepingRun, Scenarios.OverfillingRun and Scenarios.OverpoppingRun show.
- Capacity.NextWithinCapacity: assumes the same two things.
- Capacity.ClaimFindsRoom: assumes the same two things.
- Capacity.ClaimFindsElement: assumes the same two things.
- Capacity.CurrentRunWithinCapacity: assumes that no thread sleeps through 2^32 claims between its load and its compare-and-exchange, without which the claim is false, as Scenarios.OversleepingRun shows.
- Capacity.RunFullIsJustified: assumes that no thread sleeps through 2^32 claims before an exchange, since then more than `size` elements may be claimed; oversleeping between the two loads is part of what it states.
- Capacity.RunEmptyIsJustified: assumes the same.
- Delivery.NoLapDelivery: delivery in ticket order needs the hypothesis, as Scenarios.OvertakingRun shows; Delivery.DeliversIff is the exact condition.
- StateQueue.TriesNeverDeadlock: assumes that no thread sleeps through 2^32 claims, counted in the matching run of `AtomicQueue`, whose histories keep the counts.
- StateQueue.RunRefines: the value that `AtomicQueue` reserves must not be pushed, since that queue cannot take it; it is arbitrary.
- LockedQueue.RunIsSerial: the two loads of the indexes by the test inside the lock are one step; nobody else is inside.
