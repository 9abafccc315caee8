# Proofs about the lock-free data plane

This project models the concurrent core of the pipeline crates in Dafny and proves, for every
interleaving, what that code is there to guarantee. It covers

- the vendored concurrent queue: the stamped ring (`bounded.rs`) and the linked-block queue with
  batch push and cooperative block destruction (`unbounded.rs`);
- the FIFO work-stealing queue (`fifo.rs`, `transfer.rs`, `lib.rs`);
- the crossfire wake protocol: waker nodes, the multi-waiter registry, blocking receivers, and
  the sender count (`waker.rs`, `waker_registry.rs`, `blocking_rx.rs`, `shared.rs`);
- the crossfire reference-count and one-shot hand-off (`waitgroup.rs`, `oneshot.rs`).

**How a protocol is modelled.** A state is a shared memory and a program counter per thread. An
action is one atomic access, or one access to a value cell; its effect is a function. A run is any
sequence of states in which each follows from the one before by some enabled action of some
thread, so a theorem about `Run(r)` and an index is a theorem about every reachable state of every
interleaving, for any number of threads, items, capacities and queues. Failing weak
compare-exchanges, time-outs, spurious wake-ups and the choices of callers are actions or flags of
actions. Fields marked as history in a memory record what has happened (which thread reserved a
slot, which events are owed); no action of the code depends on them.

Each protocol has an inductive invariant in small predicates. One lemma per effect (`...Keeps`)
shows that the memory keeps its part and that other threads are not disturbed (`Kept`, `Calm`);
`InvStep` puts them together with what the acting thread needs, and also shows that no enabled
action is undefined (out of bounds, reading an empty cell). The theorems listed below follow from
the invariant. A thread's part of the invariant has a case per program point. It is quantified,
`forall x :: x == pc ==> Facts(m, p, x)`, which keeps the cases out of proofs that do not look at
them; a lemma named `...Point` unfolds it.

**What calls do.** The theorems above speak of steps. The `...Calls` modules speak of whole calls:
they observe a call from outside, by the memory before and after each of its thread's steps, and
prove that at its return it has done what it was asked for, or has seen a reason not to.
`AloneIsSequential` and the `...Alone` modules add that calls do return.

**What is sequential in the source is imperative here.** The waker node and the registry are
classes whose methods are proved against functions on their values; the ring transfer works on
arrays in place, in chunks and element by element; the arithmetic of `len` is a method.

**Words and positions.** Ring tickets, queue positions and stamps are unbounded in the protocol
models. `BoundedWords`, `UnboundedWords` and `StealWords` relate them to the packed and wrapping
words that the code computes with; masking with a power of two minus one is written as the
remainder. A load and the compare-exchange that uses it are assumed to be less than one full wrap
of the word apart.

## Findings

Four promises do not hold as they stand; each has a concrete run, and the exact condition under
which the code keeps it.

- A blocking one-shot receive after a pending poll can fail its assertion: it can exactly if the
  poll is still registered and the sender has not acted (`Oneshot.BlockingReceiveSafeIff`,
  `Oneshot.PollThenBlockFails`).
- `try_into_inner` of a wait group frees memory that a guard will still access exactly if the
  waker lock is held (`WaitGroup.IntoInnerSafeIff`, `WaitGroup.IntoInnerUnsafeReachable`).
- A `close` of the bounded ring can be undone by the tail store of a `force_push`. In a closed ring
  that can still happen exactly if some `force_push` has moved the head and not yet stored the
  tail, or loaded the tail of the full ring before the close and the head has not moved since
  (`BoundedClose.ReopensIff`, `BoundedClose.ForcePushCanReopen`); otherwise the close is final
  (`BoundedClose.ClosedIsFinal`), and so it is once a pop has reported Closed
  (`BoundedClose.ClosedVerdictIsFinal`).
- The FIFO work-stealing queue can lose items, or store a tail behind its worker head, through
  code of its caller that runs within a call. `steal`, `steal_and_pop` and `drain` call a count
  function and `extend` an iterator, and both may use the same worker handle in safe code. The
  machine has these callbacks as steps. In every reachable state, an action can be followed by such
  a loss if and only if it is one of two (`StealBreak.BreaksIffHarmful`): the answer of a count
  function that after the bounds is at least 1, given while the tail of the destination is no
  longer the one that the steal loaded and the heads of the source still are; or a push by the
  iterator of `extend` to the queue being extended that is not refused as full. So a push to the
  destination does no harm if the count function then asks for nothing, nor if the source's heads
  have moved, because then the compare-exchange fails and the count function is asked again (and
  that answer judged again). Both occur (`StealBreak.CountFunctionCanBreak`,
  `StealBreak.IteratorCanBreak`). All theorems of `StealInv`, `StealRuns`, `StealWords` and
  `Transfer` hold of the runs in which callbacks do anything but these two.

One restriction that the source leaves to its callers is shown to be needed: a wait group whose
threshold was raised over a live guard can leave its waiter asleep at or below it, exactly if the
`done` of such a guard took the count there (`WaitGroupWake.NoLostWake`,
`WaitGroupWake.LastDoneWakesIff`, `WaitGroupWake.LateGuardWakesLate`).

The wake protocol needs its event count only while a sender is alive. After the last one is gone
it is the close that wakes receivers (`WakeRuns.NoStrandedItem`, `WakeRuns.CloseWakesEverybody`).

## Files

| files | contents |
|---|---|
| `Basics`, `Laps` | option type; slots and laps of a ring |
| `Oneshot` | the one-shot channel |
| `WaitGroup`, `WaitGroupWake` | memory safety, and wake-ups, of the wait group |
| `BoundedRing`, `BoundedCalls`, `BoundedClose`, `BoundedWords` | the stamped ring on tickets; what its calls do; when a close is final; the ring on packed words |
| `Unbounded`, `UnboundedInv`, `UnboundedDuty`, `UnboundedQueue`, `UnboundedCalls`, `UnboundedAlone`, `UnboundedWords` | the block queue: machine, invariant, unfinished work, theorems, what calls do, that they end, index words |
| `StealQueue`, `StealInv`, `StealRuns`, `StealCalls`, `StealAlone`, `StealBreak`, `StealWords`, `Transfer` | the work-stealing queues: machine with callbacks, invariant, theorems, what calls do, that they end, which callbacks break it, 32-bit positions, ring copies |
| `Waker`, `Registry` | waker node and registry, sequentially |
| `WakeProtocol`, `WakeInv`, `WakeSteps`, `WakeDuty`, `WakeRuns`, `WakeCalls` | the wake protocol: machine, invariant, its preservation, who wakes whom, theorems, what a receive returns |

## Model

| member | source | states |
|---|---|---|
| Oneshot.InvStep | crates/youpipe-crossfire/src/oneshot.rs:110-228 | every atomic step of both sides keeps the invariant that ties the four flags, the value cell, the waker cell and the two program counters together |
| Oneshot.RunKeepsInv | crates/youpipe-crossfire/src/oneshot.rs:110-228 | so it holds in every state of every run |
| Oneshot.NeverPanicsNorUsesFreedBox | crates/youpipe-crossfire/src/oneshot.rs:110-228 | no panic or unreachable branch is reached, the box is freed at most once, and afterwards neither side has a step left |
| Oneshot.FinishedExactlyOnce | crates/youpipe-crossfire/src/oneshot.rs:243-311 | when both sides are finished the box was freed exactly once and the value sent was delivered or dropped exactly once |
| Oneshot.DeliversOnlyWhatWasSent | crates/youpipe-crossfire/src/oneshot.rs:369-475 | a receiver gets at most one value, the one that was sent, and then it is not dropped as well |
| Oneshot.WakerReadIsExclusive | crates/youpipe-crossfire/src/oneshot.rs:152-228 | while the sender reads the waker cell nobody can change it and it holds a waker |
| Oneshot.ParkedReceiverIsWoken | crates/youpipe-crossfire/src/oneshot.rs:417-475 | a parked receiver without a token is registered with a sender that has yet to act, or is about to be woken under its own waker |
| Oneshot.PendingTaskIsWoken | crates/youpipe-crossfire/src/oneshot.rs:369-410 | a task whose last poll returned Pending is registered under that poll's waker with a sender that has yet to act, or that waker is about to be woken or has been |
| Oneshot.EmptyIsEarly | crates/youpipe-crossfire/src/oneshot.rs:347-365 | try_recv reports Empty exactly before the sender has acted, and neither a poll nor a blocking receive that looks after that waits any longer |
| Oneshot.SentIsReceived | crates/youpipe-crossfire/src/oneshot.rs:123-150 | once the sender has acted, steps of the receiver alone bring it to its end, with exactly what was sent |
| Oneshot.ReceiveEnds | crates/youpipe-crossfire/src/oneshot.rs:347-475 | a receiver ends with what was sent, or by timing out on a sender that has not acted, or by being dropped, and in no other way |
| Oneshot.SenderFinishesAlone | crates/youpipe-crossfire/src/oneshot.rs:152-228 | the sender never waits: wherever the receiver has stopped, its own steps bring it to its end |
| Oneshot.BlockingReceiveSafeIff | crates/youpipe-crossfire/src/oneshot.rs:417-475 | a blocking receive can reach a panic if and only if an earlier poll is still registered and unlocked when it starts |
| Oneshot.PollThenBlockFails | crates/youpipe-crossfire/src/oneshot.rs:369-475 | and that state is reachable by one poll |
| WaitGroup.InvStep | crates/youpipe-crossfire/src/waitgroup.rs:994-1180 | every step of guards (clone, done, wake) and owner (wait, register, drop) keeps the invariant; the count is the number of live references |
| WaitGroup.RunKeepsInv | crates/youpipe-crossfire/src/waitgroup.rs:994-1180 | so it holds in every state of every run |
| WaitGroup.NoUseAfterFree | crates/youpipe-crossfire/src/waitgroup.rs:1002-1099 | freed at most once, no enabled action touches freed memory, the count never underflows |
| WaitGroup.FreedExactlyOnce | crates/youpipe-crossfire/src/waitgroup.rs:1002-1034 | when owner and guards are finished the allocation was freed exactly once |
| WaitGroup.FreeingAlone | crates/youpipe-crossfire/src/waitgroup.rs:1026-1099 | a guard about to free is alone: owner gone, every other guard past its last access |
| WaitGroup.DropFreeAlone | crates/youpipe-crossfire/src/waitgroup.rs:1002-1024 | an owner about to free is alone |
| WaitGroup.TakeIsExclusive | crates/youpipe-crossfire/src/waitgroup.rs:1061-1143 | while a done takes the waker out of the slot, the owner is not about to write it and no other done is about to take it |
| WaitGroup.IntoInnerSafeIff | crates/youpipe-crossfire/src/waitgroup.rs:500-508 | with only the owner counted, some guard still has an access ahead if and only if the waker lock is held |
| WaitGroup.IntoInnerUnsafeReachable | crates/youpipe-crossfire/src/waitgroup.rs:733-741 | a run in which try_into_inner would free under a guard's feet |
| WaitGroupWake.WakeStep | crates/youpipe-crossfire/src/waitgroup.rs:1038-1143 | every step keeps what a sleeping waiter relies on |
| WaitGroupWake.NoLostWake | crates/youpipe-crossfire/src/waitgroup.rs:1103-1180 | a waiter asleep without token, with no done holding its waker, has its waker in the slot and the SET flag set; its count is down to its threshold if and only if the done of a guard of a lower threshold took it there |
| WaitGroupWake.ReturnsAtThreshold | crates/youpipe-crossfire/src/waitgroup.rs:1103-1180 | a wait or poll returns, unless it gives up, exactly where the owner finds the count at most its threshold |
| WaitGroupWake.WaitSawThreshold | crates/youpipe-crossfire/src/waitgroup.rs:1146-1180 | in every run, when a wait returns and has not given up, the count was down to the threshold at some step of that wait |
| WaitGroupWake.DoneFinishesAlone | crates/youpipe-crossfire/src/waitgroup.rs:1038-1099 | in every run a guard that is given up is done after at most eight steps of its own, wherever all others have stopped |
| WaitGroupWake.InTimeNeverMisses | crates/youpipe-crossfire/src/waitgroup.rs:1038-1099 | with no guard of a lower threshold alive and the threshold left alone, no done ever leaves a sleeper behind |
| WaitGroupWake.LastDoneWakesIff | crates/youpipe-crossfire/src/waitgroup.rs:1038-1099 | whatever the guards' thresholds: the done that brings a sleeper's count down to its threshold takes the waker if and only if its guard's threshold is at least the sleeper's; otherwise it is the miss that leaves it asleep |
| WaitGroupWake.LateGuardWakesLate | crates/youpipe-crossfire/src/waitgroup.rs:355-363 | a run in which a guard from before a higher threshold lets the waiter sleep on below it |
| BoundedRing.InvStep | crates/youpipe-concurrent-queue/src/bounded.rs:86-303 | every atomic step of push, force_push and pop keeps the ticket invariant |
| BoundedRing.RunKeepsInv | crates/youpipe-concurrent-queue/src/bounded.rs:86-303 | so it holds in every state of every run |
| BoundedRing.StampTellsPhase | crates/youpipe-concurrent-queue/src/bounded.rs:151-303 | a slot's stamp, compared with head and tail, says whether it is free, being written, full or being read, for one ticket, and who its only user is |
| BoundedRing.LeavesOnceWithItsValue | crates/youpipe-concurrent-queue/src/bounded.rs:101-130 | each ticket's value leaves at most once, with the value it was reserved for |
| BoundedRing.ClaimedMeansLeaving | crates/youpipe-concurrent-queue/src/bounded.rs:231-303 | every claimed ticket has left, or has one thread about to take its value and no second one |
| BoundedRing.RefinesFifo | crates/youpipe-concurrent-queue/src/bounded.rs:101-303 | the ring is a FIFO sequence of at most cap values; a tail CAS appends, a head CAS removes the oldest, force_push removes the oldest and appends, nothing else changes it |
| BoundedRing.FullVerdictIsTrue | crates/youpipe-concurrent-queue/src/bounded.rs:86-98 | Full only with exactly cap tickets outstanding at the load of the head |
| BoundedRing.EmptyVerdictIsTrue | crates/youpipe-concurrent-queue/src/bounded.rs:279-296 | Empty or Closed only with none outstanding at the load of the tail |
| BoundedRing.LenSeesOneInstant | crates/youpipe-concurrent-queue/src/bounded.rs:306-328 | the loads that len returns from differ by the outstanding tickets at its load of the head, between 0 and cap |
| BoundedCalls.AddsWhatWasAsked | crates/youpipe-concurrent-queue/src/bounded.rs:151-213 | in every run only a push adds a value, and it is the one it was given; only a force_push removes one with it, and only a pop removes one without |
| BoundedCalls.EveryCallReturnsWhatItShould | crates/youpipe-concurrent-queue/src/bounded.rs:86-295 | whatever else goes on: a push that returns has put exactly its value into the ring, to be popped, or has done nothing and found the ring closed or (push) full; a pop has taken exactly one ticket out, with its value, or found the ring empty; a close leaves the ring closed |
| BoundedCalls.AloneIsSequential | crates/youpipe-concurrent-queue/src/bounded.rs:86-370 | left alone, every call of a quiet ring comes to its end and does exactly what it does on a sequential ring |
| BoundedCalls.AloneOnQueue | crates/youpipe-concurrent-queue/src/bounded.rs:86-303 | that is: push appends unless closed or full, force_push replaces the oldest value of a full ring, pop removes the oldest |
| BoundedClose.ReopensIff | crates/youpipe-concurrent-queue/src/bounded.rs:101-130 | in every reachable closed state, some continuation loses the closed mark if and only if some force_push in flight has moved the head, or loaded the tail of the full ring before the close with the head still there |
| BoundedClose.ClosedIsFinal | crates/youpipe-concurrent-queue/src/bounded.rs:362-365 | if there is none, the ring stays closed in every continuation and its tail never moves; closed and drained stays so |
| BoundedClose.ClosedVerdictIsFinal | crates/youpipe-concurrent-queue/src/bounded.rs:279-292 | once a pop has reported Closed, in every continuation the ring is closed, its head and tail are fixed and equal: no pop ever gets another value |
| BoundedClose.ForcePushCanReopen | crates/youpipe-concurrent-queue/src/bounded.rs:101-130 | a reachable closed state from which a force_push clears the mark |
| BoundedWords.NextPowerOfTwo | crates/youpipe-concurrent-queue/src/bounded.rs:54-83 | the least power of two reached by doubling is at least n and less than twice it |
| BoundedWords.NewPositionIsNextTicket | crates/youpipe-concurrent-queue/src/bounded.rs:151-228 | the new position computed from a word is the word of the next ticket, across the end of a lap |
| BoundedWords.StampWords | crates/youpipe-concurrent-queue/src/bounded.rs:151-303 | within a slot, the two stamp tests identify ticket and phase without ambiguity |
| BoundedWords.FullTest | crates/youpipe-concurrent-queue/src/bounded.rs:200-222 | stamp plus one lap equals tail plus one exactly if the slot still holds the ticket one lap back |
| BoundedWords.EveryStepInStep | crates/youpipe-concurrent-queue/src/bounded.rs:86-328 | each step on words does on the encoding what the ticket machine does |
| BoundedWords.WordRunsAreTicketRuns | crates/youpipe-concurrent-queue/src/bounded.rs:86-328 | every run on words is the encoding of a run on tickets |
| BoundedWords.WordAccessesInRange | crates/youpipe-concurrent-queue/src/bounded.rs:151-303 | every buffer index is below the capacity and no subtraction underflows |
| BoundedWords.LenOfIsTicketDifference | crates/youpipe-concurrent-queue/src/bounded.rs:306-328 | the arithmetic of len is the ticket difference for all laps and for the full/empty tie |
| BoundedWords.LenIsExact | crates/youpipe-concurrent-queue/src/bounded.rs:306-328 | so len returns the number outstanding at its load of the head |
| UnboundedInv.InvStep | crates/youpipe-concurrent-queue/src/unbounded.rs:136-620 | every step of push, push_n, pop, destroy, len and close keeps the invariant, and none is undefined |
| UnboundedInv.StartFilling | crates/youpipe-concurrent-queue/src/unbounded.rs:244-267 | after a reservation push links a filled block first and push_n fills its slots first; either way the invariant of the next point holds |
| UnboundedInv.RefillKeeps | crates/youpipe-concurrent-queue/src/unbounded.rs:385-408 | refilling the stage keeps it equal to the last items pulled, and changes neither what was written nor the reported length |
| UnboundedInv.ExtendSpots | crates/youpipe-concurrent-queue/src/unbounded.rs:444-470 | a segment extends the positions of a call by fresh slots, in order, holding its next items |
| UnboundedDuty.DutyStep | crates/youpipe-concurrent-queue/src/unbounded.rs:193-584 | unfinished work always has a thread that does it, step by step |
| UnboundedQueue.RunKeepsGood | crates/youpipe-concurrent-queue/src/unbounded.rs:136-620 | invariant, duties and history hold in every state of every run |
| UnboundedQueue.FreedExactlyWhenUnused | crates/youpipe-concurrent-queue/src/unbounded.rs:136-153 | a block is freed if and only if its last slot is claimed and no thread (pusher, linker, reader, destroyer) has an access to it ahead |
| UnboundedQueue.FreedOnce | crates/youpipe-concurrent-queue/src/unbounded.rs:549-575 | it is freed once, after all 31 slots were written and read |
| UnboundedQueue.UserNotFreed | crates/youpipe-concurrent-queue/src/unbounded.rs:252-267 | no thread with an access ahead works on a freed block, including the linker of next |
| UnboundedQueue.UnusedIsFreed | crates/youpipe-concurrent-queue/src/unbounded.rs:136-153 | a block with its last slot claimed and nobody at work in it has been freed: no order of READ and DESTROY bits leaks it |
| UnboundedQueue.RefinesFifo | crates/youpipe-concurrent-queue/src/unbounded.rs:243-276 | the queue is a FIFO sequence: a tail CAS appends the next items of its call in iterator order, a head CAS removes the first value, nothing else changes it |
| UnboundedQueue.SlotUsedOnce | crates/youpipe-concurrent-queue/src/unbounded.rs:452-480 | a reserved slot is for one value for ever, filled once by its reserver and taken once by its claimer, with that value |
| UnboundedQueue.ReportedPrefix | crates/youpipe-concurrent-queue/src/unbounded.rs:318-493 | push_n returns having enqueued exactly the prefix it reports, at increasing positions in order, and all the iterator had or reported unless the queue is closed |
| UnboundedQueue.ReportFollowsReservations | crates/youpipe-concurrent-queue/src/unbounded.rs:444-491 | the reported count changes only with a reservation, by its size, and the new positions are the reserved ones |
| UnboundedQueue.NothingLeftUndone | crates/youpipe-concurrent-queue/src/unbounded.rs:123-133 | a reserved slot not written, and a claimed one not read, has its thread at work; with no push in progress all slots are written, all earlier blocks linked, and the tail not at a block end |
| UnboundedQueue.MarkIsSafe | crates/youpipe-concurrent-queue/src/unbounded.rs:501-560 | the head mark implies that the tail has left the block; every claim is of a reserved, unclaimed slot of the loaded block; head never passes tail |
| UnboundedQueue.EmptyVerdictIsTrue | crates/youpipe-concurrent-queue/src/unbounded.rs:514-526 | Empty or Closed only if every reserved ticket is claimed at the load of the tail |
| UnboundedCalls.EveryCallReturnsWhatItShould | crates/youpipe-concurrent-queue/src/unbounded.rs:193-583 | whatever else goes on: a push or push_n that returns has enqueued exactly the prefix of its items that it reports, filled in, and all of them unless the queue is closed; a pop has claimed one slot and taken its value, or claimed none and seen the queue drained |
| UnboundedCalls.GivesUpOnlyWhenDrained | crates/youpipe-concurrent-queue/src/unbounded.rs:489-533 | a pop that gives up, at whatever access, does so with every reserved slot claimed |
| UnboundedCalls.CloseCloses | crates/youpipe-concurrent-queue/src/unbounded.rs:637-640 | a close closes, and leaves the content alone |
| UnboundedAlone.EveryCallFinishesAlone | crates/youpipe-concurrent-queue/src/unbounded.rs:193-618 | with all others outside of their calls, a bounded number of its own steps, none of which waits, bring a thread to the end of push, push_n, pop or len |
| UnboundedAlone.RunMoves | crates/youpipe-concurrent-queue/src/unbounded.rs:543-560 | a head at a block end has its thread that moves it on, and an installed first block its thread that puts it at the head |
| UnboundedQueue.ClosedIsFinal | crates/youpipe-concurrent-queue/src/unbounded.rs:637-640 | after a close nothing is enqueued, and closed and drained stays so |
| UnboundedWords.Fields | crates/youpipe-concurrent-queue/src/unbounded.rs:206-209 | offset, block and mark as the code extracts them from an index word |
| UnboundedWords.SameWord | crates/youpipe-concurrent-queue/src/unbounded.rs:514-532 | words, positions and blocks compare equal exactly when they are |
| UnboundedWords.Moves | crates/youpipe-concurrent-queue/src/unbounded.rs:243-258 | adding twice n moves n slots; adding two steps over a block end; a close sets the lowest bit |
| UnboundedWords.TestsAgreeInRuns | crates/youpipe-concurrent-queue/src/unbounded.rs:193-532 | in every reachable state each test of push, push_n, pop and len on the index words it loaded (closed, block end, empty, other block, compare-exchange, unchanged tail) has the outcome of the test on positions |
| UnboundedWords.StoresAgreeInRuns | crates/youpipe-concurrent-queue/src/unbounded.rs:193-558 | and the two index words after any access are those that the code computes from the words |
| UnboundedWords.LenOf | crates/youpipe-concurrent-queue/src/unbounded.rs:594-618 | block-end fix-up, rotation and block correction give the ticket difference, without underflow |
| UnboundedWords.FixUp | crates/youpipe-concurrent-queue/src/unbounded.rs:595-605 | the mark is erased and an index on a block end moved to the next block |
| UnboundedWords.Distance | crates/youpipe-concurrent-queue/src/unbounded.rs:607-617 | the rotated difference minus the blocks between is the ticket difference |
| UnboundedWords.LenSeesOneInstant | crates/youpipe-concurrent-queue/src/unbounded.rs:587-594 | len returns only with loads whose difference is the number outstanding at its load of the head |
| StealInv.InvStep | crates/youpipe-st3/src/fifo.rs:156-782 | every step of push, extend, pop, drain, steal and steal_and_pop, over any number of queues and threads, and of any calls within a count function, and pushes within an iterator, keeps the invariant, but for the two harmful callbacks |
| StealInv.RunKeepsInv | crates/youpipe-st3/src/fifo.rs:156-782 | so it holds in every state of every run without those |
| StealRuns.HeadsAndTail | crates/youpipe-st3/src/fifo.rs:156-215 | stealer head, worker head, tail are in order within one capacity; the heads differ exactly while one steal or drain is in progress, and only its booker works on it |
| StealRuns.EveryItemInOnePlace | crates/youpipe-st3/src/fifo.rs:614-685 | every item pushed is in exactly one slot of one queue, or in the hands of exactly one thief, or handed out |
| StealRuns.ItemsAreConserved | crates/youpipe-st3/src/fifo.rs:374-467 | no action loses or duplicates an item; only a push brings one in; what is handed out stays so |
| StealRuns.NeverOverwrites | crates/youpipe-st3/src/fifo.rs:125-135 | no slot is written while a booked or unread item is in it |
| StealRuns.QueuesAreFifo | crates/youpipe-st3/src/fifo.rs:374-467 | push appends, pop takes the oldest, a booking takes the n oldest, a thief appends them in order to its destination, and every other queue is unchanged |
| StealRuns.ReturnsYoungest | crates/youpipe-st3/src/fifo.rs:748-752 | steal_and_pop returns the youngest of the items it stole |
| StealRuns.VerdictsAreTrue | crates/youpipe-st3/src/fifo.rs:169-197 | a failed push means full; a pop that ends without a claim, and a steal that finds nothing, mean nothing visible, at that access; Busy means another steal in progress |
| StealRuns.StealsTakeAllTheyMay | crates/youpipe-st3/src/fifo.rs:169-198 | a steal computes the room of its destination as it loads it, offers its count function all that is visible, and books the greatest number that the answer, the items and the room allow |
| StealCalls.EveryCallReturnsWhatItShould | crates/youpipe-st3/src/fifo.rs:374-782 | whatever else goes on, in callbacks too: push puts its item at the end unless there was no room, extend as many items as there was room for; pop hands out the first visible item or has seen none; steal moves the first visible items in order, steal_and_pop hands out the last of them; or nothing happens, for a reason that was seen |
| StealAlone.EveryCallCanFinishAlone | crates/youpipe-st3/src/fifo.rs:374-782 | no call waits for another thread: in every reachable state, wherever the others have stopped, a bounded number of its own steps bring a thread to the end of its call |
| StealRuns.AssertionsHold | crates/youpipe-st3/src/fifo.rs:630-669 | free capacity between 0 and capacity, no more booked than fits, stealer head unchanged at the end of a steal |
| StealBreak.InvIsWhole | crates/youpipe-st3/src/fifo.rs:125-135 | under the invariant no queue is broken: every item pushed and not handed out is in a slot that somebody may still read, or in a thief's hands, and no tail is behind its worker head |
| StealBreak.BreaksIffHarmful | crates/youpipe-st3/src/fifo.rs:166-213 | in every reachable state some continuation of an action breaks a queue if and only if the action is a count function's answer that books under a stale destination tail and unmoved source heads, or a push of extend's iterator that is not refused |
| StealBreak.AnswerBreaks | crates/youpipe-st3/src/fifo.rs:614-685 | such an answer is followed by a lost item or a tail behind the worker head: the booking succeeds, and the transfer or the tail store hits live positions |
| StealBreak.IterPushBreaks | crates/youpipe-st3/src/fifo.rs:403-424 | and so is such a push: it overwrites what extend has written, or is itself overwritten or hidden |
| StealBreak.CountFunctionCanBreak | crates/youpipe-st3/src/fifo.rs:614-655 | a run in which a count function pushes to the destination and then asks for one item |
| StealBreak.IteratorCanBreak | crates/youpipe-st3/src/fifo.rs:403-424 | a run in which the iterator of an extend pushes to the queue being extended |
| StealWords.PackRoundTrip | crates/youpipe-st3/src/lib.rs:97-107 | unpack after pack |
| StealWords.UnpackRoundTrip | crates/youpipe-st3/src/lib.rs:97-107 | pack after unpack |
| StealWords.NewCapacity | crates/youpipe-st3/src/fifo.rs:270-284 | the capacity is a power of two, at least what was asked, at most 2^31, and mask plus one does not wrap |
| StealWords.WordsAgreeInRuns | crates/youpipe-st3/src/fifo.rs:345-424 | in every reachable state wrapping 32-bit positions give the same emptiness, fullness, item count, free capacity, indices and new positions as unbounded ones, without underflow or overflow |
| StealWords.StaleLoadsAgree | crates/youpipe-st3/src/fifo.rs:156-240 | the same for the heads that pop, book_items and is_likely_empty loaded earlier, if they are less than 2^32 old: emptiness, item count and the busy test |
| StealWords.HeadsCompare | crates/youpipe-st3/src/fifo.rs:199-213 | comparing the packed heads compares both positions |
| Transfer.TransferItems | crates/youpipe-st3/src/transfer.rs:42-117 | the chunked copy leaves the destination as the element move does |
| Transfer.TransferLoop | crates/youpipe-st3/src/transfer.rs:122-137 | the element loop leaves it so too, also within one ring |
| Transfer.MovedArrives | crates/youpipe-st3/src/transfer.rs:122-137 | every moved item arrives at its place |
| Transfer.MovedElsewhere | crates/youpipe-st3/src/transfer.rs:122-137 | no other destination slot changes |
| Transfer.CopyChunk | crates/youpipe-st3/src/transfer.rs:107-115 | a chunk is copied exactly, by loop or in bulk |
| Transfer.ChunkMoves | crates/youpipe-st3/src/transfer.rs:100-116 | copying a chunk contiguous on both sides carries the element move on |
| Transfer.CutIsContiguous | crates/youpipe-st3/src/transfer.rs:72-77 | cutting at both wrap points leaves contiguous chunks on both sides |
| Transfer.ChunkAssertionHolds | crates/youpipe-st3/src/transfer.rs:79-98 | in a self-steal the chunk-disjointness assertion holds, empty chunks included |
| Transfer.StealMeetsContract | crates/youpipe-st3/src/fifo.rs:634-655 | every transfer of a steal fits both rings, and within one ring its runs share no slot |
| Waker.PackRoundTrip | crates/youpipe-crossfire/src/waker.rs:232-243 | state and stamp come back from a packed word |
| Waker.UnpackRoundTrip | crates/youpipe-crossfire/src/waker.rs:232-243 | and a word from its state and stamp |
| Waker.OneDelivery | crates/youpipe-crossfire/src/waker.rs:362-485 | a wake spends its event exactly on a waiting node with its stamp; per episode at most one wake, close or abandon changes the word; a retired node is left alone |
| Waker.WakerInner.Wake | crates/youpipe-crossfire/src/waker.rs:435-485 | result, new word and unpark of a wake |
| Waker.WakerInner.Abandon | crates/youpipe-crossfire/src/waker.rs:362-369 | succeeds exactly up to Waiting, and closes |
| Waker.WakerInner.CloseWake | crates/youpipe-crossfire/src/waker.rs:372-379 | closes and unparks exactly up to Waiting |
| Waker.WakerInner.CommitWaiting | crates/youpipe-crossfire/src/waker.rs:311-336 | Init becomes Waiting under the same stamp, anything else is reported |
| Waker.WakerInner.SetSeq | crates/youpipe-crossfire/src/waker.rs:299-302 | the stamp changes, the state does not |
| Waker.WakerInner.Retire | crates/youpipe-crossfire/src/waker.rs:345-348 | the state becomes Reuse, the stamp stays |
| Registry.BatchIsSingles | crates/youpipe-crossfire/src/waker_registry.rs:603-722 | firing for n events reaches the same queue and node states as n single fires |
| Registry.FireAddsUp | crates/youpipe-crossfire/src/waker_registry.rs:603-722 | firing for a and then for b events is firing for a + b |
| Registry.TwoPhases | crates/youpipe-crossfire/src/waker_registry.rs:640-713 | collecting under the lock and waking afterwards is firing entry by entry, in a sorted queue |
| Registry.FiredMeetsSpec | crates/youpipe-crossfire/src/waker_registry.rs:625-722 | a fire for n events takes entries up to the n-th committed waiter, or all, wakes exactly the nodes of the live entries with their stamp that are neither woken nor closed, and delivers the smaller of n and the number of committed waiters |
| Registry.ClosedReaches | crates/youpipe-crossfire/src/waker_registry.rs:744-756 | a close closes exactly those nodes, of all entries |
| Registry.RegistryMulti.FireN | crates/youpipe-crossfire/src/waker_registry.rs:625-722 | the rounds of fire_n leave queue and nodes as firing entry by entry does, and report whether an event was delivered; in terms of the nodes: exactly those awaiting a wake, up to the n-th committed waiter, are woken; every node whose word changed was unparked once, and no other |
| Registry.RegistryMulti.Fire | crates/youpipe-crossfire/src/waker_registry.rs:826-841 | one event, as above; Woken exactly if some queued node was a committed waiter, else Next |
| Registry.RegistryMulti.RegWaker | crates/youpipe-crossfire/src/waker_registry.rs:428-440 | a registration is appended under a fresh stamp; sortedness, flag and stamp ownership are kept |
| Registry.RegistryMulti.ClearWakers | crates/youpipe-crossfire/src/waker_registry.rs:523-590 | a run of entries is dropped from the front: own, stale duplicates, dead, woken or closed; never another waiter's; the flag follows the queue |
| Registry.ClearDropsOnly | crates/youpipe-crossfire/src/waker_registry.rs:523-590 | what the scan may drop, for any queue |
| Registry.ClearScans | crates/youpipe-crossfire/src/waker_registry.rs:523-590 | and it drops all entries up to the first that is to be left or ends the scan |
| Registry.CancelDropsOwn | crates/youpipe-crossfire/src/waker_registry.rs:523-590 | so a cancelled registration is gone, unless such an entry comes before it |
| Registry.RegistryMulti.AbandonWaker | crates/youpipe-crossfire/src/waker_registry.rs:776-786 | closed and cleared unless already woken or closed |
| Registry.RegistryMulti.CancelWaker | crates/youpipe-crossfire/src/waker_registry.rs:790-823 | cleared and retired exactly if still registered |
| Registry.RegistryMulti.Close | crates/youpipe-crossfire/src/waker_registry.rs:744-756 | every live node with an entry of its own stamp that is neither woken nor closed is closed and unparked once, and no other; the queue and the flag are cleared |
| WakeRuns.InvStep | crates/youpipe-crossfire/src/waker_registry.rs:428-846 | every step of senders, receivers, fires, cancellations, closes and other channels keeps the invariant |
| WakeRuns.RunKeepsInv | crates/youpipe-crossfire/src/blocking_rx.rs:126-180 | so it holds in every state of every run |
| WakeRuns.WakeAccounting | crates/youpipe-crossfire/src/waker_registry.rs:625-722 | with a sender alive and a receiver queued that found the channel empty, items are at most the events owed plus the receivers woken for one |
| WakeRuns.CreditsAreEvents | crates/youpipe-crossfire/src/shared.rs:270-326 | what counts: for a fire, its events not landed until it has seen no waiter; for a receiver, one, from its wake by an event until it takes an item or looks again |
| WakeRuns.NoStrandedItem | crates/youpipe-crossfire/src/blocking_rx.rs:126-176 | with a sender alive and everybody idle or asleep, no item is in the channel while a receiver sleeps |
| WakeRuns.CloseWakesEverybody | crates/youpipe-crossfire/src/shared.rs:196-205 | with the last sender gone and everybody idle or asleep, nobody sleeps |
| WakeRuns.FireReturns | crates/youpipe-crossfire/src/waker_registry.rs:625-722 | landed and remaining events add up to n in every round; a fire returns after n landed or having seen no waiter |
| WakeRuns.EmptyIsEmpty | crates/youpipe-crossfire/src/waker_registry.rs:628-683 | it notes that only with the queue empty at that moment |
| WakeRuns.LandsOnWaiter | crates/youpipe-crossfire/src/waker.rs:435-485 | an event lands only on a receiver in its wait, under the stamp of its entry |
| WakeRuns.RegistryIsSound | crates/youpipe-crossfire/src/waker_registry.rs:428-440 | in every state the queue is strictly sorted, a clear flag means empty, and stamps belong to their nodes |
| WakeRuns.CancelIsHarmless | crates/youpipe-crossfire/src/waker_registry.rs:523-590 | under any interleaving a cancellation drops only its own node's entries and those of nodes woken or closed |
| WakeRuns.CancelGoesOn | crates/youpipe-crossfire/src/waker_registry.rs:523-590 | it ends only with the queue empty, its own entry gone, or at an entry to be left |
| WakeCalls.EveryCallReturnsWhatItShould | crates/youpipe-crossfire/src/blocking_rx.rs:87-180 | whatever else goes on: a receive that returns has taken exactly one item, or has found the channel empty after the last sender was gone, or has timed out and taken none; an upgrade has added one sender or found none |
| WakeRuns.NoRevival | crates/youpipe-crossfire/src/shared.rs:158-205 | the sender count never rises from zero, and then nothing is sent |
| WakeRuns.DisconnectedIsFinal | crates/youpipe-crossfire/src/blocking_rx.rs:157-180 | Disconnected only with no sender and an empty channel, both for ever, whatever other channels do to the node |

## Left out

- Weak memory orderings, fences, cache padding and the model-checker shims: actions are sequentially consistent.
- Full wrap-around of an index or stamp word between a load and the compare-exchange that uses it, and of the 56-bit stamp counter.
- Values: items of the wake protocol are counted, items of the work-stealing queues are identities; what they contain plays no part there.
- The teardown of a queue when it is dropped, and the destructors of items.
- The per-item fallback of push_n for items wider than 256 bytes: it is push in a loop.
- StealInv.InvStep: the iterator of an extend may push to the queue being extended; its other uses of the handle (pop, drain, steal, a nested extend) are not steps of the machine. A count function may make any call.
- Worker handles moving between threads: the owner of a work-stealing queue is fixed for a run.
- The boolean result of done_many and of the inline wait group; the select and multiplex wakers and their flag bit; RegistrySingle; the async futures, which go through the same registry steps.
- The blocking send side, which mirrors the receiving side; the channel's inner ring, taken to be an atomic bounded counter of items.
- Waker nodes of threads that have ended, in the interleaved protocol (the sequential registry has dead nodes).
- single.rs, lifo.rs, back-off, builders, weak senders beyond the count, the engines above the channels, and all instrumentation: thin wrappers or no protocol of their own.
