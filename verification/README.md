# Verification of the zchan channels

Three channel flavours, the waker queue of blocked operations, the queue of
waiting tasks and the two-sided reference counter of zchan, modelled in Dafny and
proved correct for any number of threads and every interleaving.

`dafny verify dfyconfig.toml` checks the whole project. To see warnings as the
project is meant to pass them, add `--resource-limit 2000000
--verification-time-limit 0 --warn-contradictory-assumptions`.

## How it is built

Each core file is modelled twice.

* **As a state machine.** The shared memory, and for each thread a program counter
  with its saved locals; one step per atomic load, store, compare-exchange or
  fetch, a failing `compare_exchange_weak` included. Steps are sequentially
  consistent. `MemStep` moves the real memory and the thread. `Annotate` updates
  specification state beside it (who claimed what, the log of accepted messages),
  which no step ever reads. A use of a freed block, a second free, a read of an
  uninitialized message, an index outside a buffer, a failing `unwrap` set a fault
  flag. A *run* is any schedule of any number of threads from a new channel.
  `Always` says that the invariant, and no fault, holds in every state of every run.
* **As a class**, its methods in the shape of the original, loops and all. Between
  any two accesses the other threads may run any number of steps
  (`Environment`). Each access is recorded as the protocol step that it is, so a
  channel object carries its run with it as ghost state, and what is proved about
  runs holds of it. A method's contract says what its thread has shown of the
  reference object since the call began (`shown`), and what it returned. A loop
  that may spin is given a number of retries. A call that uses them up says where it
  stands and in which states what it spins on was not there (`GaveUp`); and a call
  that nobody disturbs (from its first step on no other thread moves, and no
  `compare_exchange_weak` fails spuriously) is not allowed to give up: it has the
  effect, and the answer, that the reference object called for when it began
  (`ListCalm`, `ArrayCalm`, `ZeroCalm`).

What a channel means is said by a reference object that has no threads in it:
`Fifo` (a queue with a closed flag, and a capacity for the bounded flavour) and
`Meeting` (the rendezvous). Every run of a channel is proved to be a run of its
reference object, each call taking effect at one instant.

| files | what they hold |
|---|---|
| `Common`, `Fifo`, `Meeting`, `Select` | messages; the two reference objects and what follows from them alone; selections and their words |
| `ListProtocol`, `ListInvariant`, `ListFrame`, `ListSendSteps`, `ListRecvSteps`, `ListReadSteps` | the unbounded channel: steps, invariant, and its preservation by each kind of step |
| `ListTheorems`, `ListDelivery`, `ListCoherence`, `ListReclaim`, `ListLen`, `ListDrop`, `ListSolo`, `ListCalm`, `ListWitness` | its results: linearizability, delivery, coherence of index and block, reclamation, `len`, `drop`, progress of a thread that runs alone, undisturbed calls within a run, and a run in which `len` underflows |
| `ListHistory`, `ListChannel` | its class |
| `ArrayWords` | packed words: lap, mark bit, index |
| `ArrayProtocol`, `ArrayInvariant`, `ArraySteps`, `ArrayTheorems`, `ArrayDelivery`, `ArrayQueries`, `ArraySolo`, `ArrayCalm` | the bounded channel and its results, progress of a thread that runs alone and undisturbed calls among them |
| `ArrayWrap` | the same on machine words that wrap around |
| `ArrayHistory`, `ArrayChannel` | its class, over an array of slots |
| `ZeroProtocol`, `ZeroInvariant`, `ZeroSteps`, `ZeroTheorems`, `ZeroDelivery`, `ZeroSolo`, `ZeroCalm` | the rendezvous channel and its results, progress of a thread that runs alone and undisturbed calls among them |
| `ZeroHistory`, `ZeroChannel` | its class |
| `Waker` | the waker queue and the context cell by themselves |
| `Counter`, `CounterOverflow`, `CounterObject` | the reference counter; what follows when a count wraps around; its class |
| `SerialWaker`, `SerialCalls` | the task queue under interleaving: steps and invariant, what a whole call does, its class run one call at a time, and the order in which tasks are notified |

The operations of the waker queue appear twice because they are two things. In
`ZeroProtocol` and `ZeroChannel` queues and contexts are values, an operation is
as many steps as it has accesses, and other threads come in between; a context is
known by its thread. In `Waker` they are the objects of the original: a context is
one word and a packet pointer, shared by reference, and may be aliased by any
number of entries. The encoding of selections in that word is common to both
(`Select`).

A reader new to the project may start with `ListProtocol` (what a step is),
`ListInvariant` (why it works) and `ListTheorems` (what follows).

## What does not hold

* `len` of the unbounded channel subtracts below zero when both indices rest on the
  same block end, which happens while a block is installed and left at once
  (`ListLen.LenIsExact`, both directions, and `LenIsExactOutsideSections`; a run that
  gets there with a call of `len` under way: `ListWitness.LenUnderflowReached`).
* `is_empty` of the bounded channel masks the tail with the mark bit instead of its
  complement, so it answers "open and nothing ever received". In terms of what has
  happened it is wrong exactly as `ArrayQueries.IsEmptyWrong` says, and both ways of
  being wrong are reached for every capacity (`ArraySolo.IsEmptyFails`).
* A reference count is compared with its largest value only after the addition has
  wrapped it around; until the abort another handle can free the channel. For every
  largest count a step is safe in all continuations if and only if it is not a clone
  at that count (`CounterOverflow.SafeExactly`), and a run gets to such a clone
  (`CounterOverflow.OverflowReached`).
* The task queue rotates: it is not first-in first-out. Tasks are notified in the
  order of registration throughout if and only if every registration met a banked
  wake or found only tasks equal to its own in the queue, so for distinct tasks an
  empty queue (`SerialObject.OrderKeptExactly`; two tasks that come out in the wrong
  order: `SerialObject.SecondComesFirst`).

## Model

| member | source | states |
|---|---|---|
| `Fifo.FifoOrder` | src/list.rs:178-343 | in any run of the reference queue, the messages taken out are the messages put in, in that order, less those still inside |
| `Fifo.NeverOverfull` | src/array.rs:183-203 | a reference queue with a capacity never holds more messages than that |
| `Fifo.OneShutdown` | src/list.rs:476-485 | in a run exactly one shutdown answers true if the queue ends closed, none otherwise |
| `Fifo.NothingAfterClose` | src/list.rs:185-188 | once closed, a queue accepts nothing more and stays closed |
| `Fifo.ClosedMeansDrained` | src/list.rs:291-295 | "disconnected" is told only after a shutdown, with every message ever accepted already taken, and for good |
| `ListTheorems.StepKeeps` | src/list.rs:178-390 | every atomic step of every call, by any of any number of threads, keeps the whole invariant (words, chain of blocks, slots, claims, sections, destruction token) |
| `ListTheorems.Always` | src/list.rs:156-390 | in every run no freed block is touched or freed again, no message is read before it is written or twice, and `next_block.unwrap()` never fails |
| `ListTheorems.StepRefines` | src/list.rs:178-343 | each step is one step of the unbounded FIFO queue: the tail CAS enqueues, the head CAS dequeues the front, the verdicts are true when the tail is loaded |
| `ListTheorems.ListIsFifo` | src/list.rs:178-343 | linearizability: every run is a run of the FIFO queue, so delivery is in order of acceptance and one shutdown answers true |
| `ListDelivery.ReturnsWhatItTook` | src/list.rs:368-390 | what the receives of a thread return is exactly what that thread dequeued, each message once, in order, up to a receive still under way |
| `ListCoherence.TailCasIsCoherent` | src/list.rs:224-240 | whenever the tail CAS succeeds, the separately loaded block is the live block of that index's lap, the slot is blank, and for the last slot a live next block is in hand |
| `ListCoherence.HeadCasIsCoherent` | src/list.rs:317-336 | whenever the head CAS succeeds, the separately loaded block is the live block of that index's lap; a sender has claimed the slot, no receiver holds it and its message has not been taken |
| `ListCoherence.OneAtATime` | src/list.rs:231-236 | at most one thread is in the section that installs a block, and at most one in the section that leaves one |
| `ListCoherence.BlockEndMeansSection` | src/list.rs:194-198 | an index rests on a block end exactly while a thread is in the section that moves it on, so waiting there is waiting for a thread |
| `ListCoherence.FirstBlockOnce` | src/list.rs:208-219 | the race for the first block installs one block, and `head.block` is set by its winner alone |
| `ListCoherence.HeadBlockStoredOnce` | src/list.rs:208-212 | in any run the first block is put into `head.block` at most once |
| `ListCoherence.HintIsSound` | src/list.rs:302-305 | MARK_BIT in the head means that the tail is in a strictly later block, and the head never passes the tail |
| `ListCoherence.HintedTakeFindsMessage` | src/list.rs:284-306 | a receiver that skips the emptiness check because of the hint still claims a message that was sent |
| `ListReclaim.FreedOnlyWhenRead` | src/list.rs:81-98 | a block of the chain is freed only after all 31 of its messages have been moved out, each the one accepted |
| `ListReclaim.FreedOnce` | src/list.rs:97-97 | in any run at most one step frees a block |
| `ListReclaim.NoAccessAfterFree` | src/list.rs:81-98 | a thread that will still access a block finds it allocated, in every state of every call |
| `ListReclaim.TokenMeaning` | src/list.rs:84-97 | the right to destroy a block is in one place: not born, with the thread that destroys it, parked on a slot with DESTROY set and READ clear whose reader will see it, or spent |
| `ListReclaim.OneDestroyer` | src/list.rs:358-362 | two threads never destroy the same block |
| `ListReclaim.ChannelAtRest` | src/list.rs:498-530 | with no call under way: a block is freed exactly when the head has left its lap or it was never used, each block points to the next, and a slot holds its message exactly when its index lies between head and tail |
| `ListSolo.RunsToEnd` | src/list.rs:178-390 | obstruction freedom: from any reachable state, a thread that runs alone ends its call within 77 of its own steps, whatever it has loaded before |
| `ListSolo.SoloSend` | src/list.rs:178-267 | from rest a send made alone ends with the message at the end of the queue, or refused if the queue was closed |
| `ListSolo.SoloRecv` | src/list.rs:270-390 | from rest a receive made alone ends with the first message gone, or with nothing changed if there was none |
| `ListCalm.Ends` | src/list.rs:178-458 | within any run: a call begun from rest is over 77 steps after its first, if from there no other thread moves and no CAS fails spuriously |
| `ListCalm.RecvShows` | src/list.rs:270-390 | within any run: up to every step of an undisturbed receive nothing has happened to the queue, or the receive has been told its front, or the true verdict |
| `ListCalm.SendShows` | src/list.rs:178-267 | the same for a send: it has been accepted if the queue was open, else refused |
| `ListLen.LenIsExact` | src/list.rs:430-455 | `len` computes the number of messages between two indices, for all laps and marks, exactly when the two do not rest on the same block end; there the subtraction goes below zero |
| `ListWitness.LenUnderflowReached` | src/list.rs:446-449 | a run of any number of threads from 3 on reaches the failing case: 31 messages accepted, exactly the first 30 received, both indices on the first block end, and a `len` under way that has loaded both and is about to answer |
| `ListLen.LenIsExactOutsideSections` | src/list.rs:424-458 | while no thread is inside the section that installs a block, or none inside the one that leaves one, `len` of the words is the number of messages |
| `ListLen.UnderflowNeedsBoth` | src/list.rs:446-449 | the subtraction goes below zero only while one thread is installing a block and another is leaving one |
| `ListLen.LenAtAnInstant` | src/list.rs:424-458 | in any run, if the tail is unchanged between its two loads, `len` is the number of messages at the head load (or the failing case) |
| `ListDrop.Start` | src/list.rs:498-510 | what a channel at rest leaves to `drop`: the unread messages in their slots, and the blocks from the head's on |
| `ListDrop.MsgTurn` | src/list.rs:511-515 | each turn below a block end finds the next unread message in a live block and leaves the rest as it was |
| `ListDrop.BlockTurn` | src/list.rs:516-521 | each turn at a block end frees a live block and goes on to the block of the next lap |
| `ListDrop.LastTurn` | src/list.rs:525-528 | at the tail one live block is left, or none; once it is freed every block is freed and no slot holds a message |
| `ListChannel.Channel.New` | src/list.rs:158-175 | a new channel is in the initial state, its queue empty |
| `ListChannel.Channel.StartSend` | src/list.rs:178-247 | with other threads at work between any two accesses, the one effect of the call is that the message is accepted (slot granted) or refused (disconnected); it gives up only after all its retries, and never if begun from rest with more than 77 of them and not disturbed: then the answer is the one the queue called for |
| `ListChannel.Channel.Write` | src/list.rs:251-267 | the message is stored, then WRITE is set; the thread's claim is discharged and nothing else shows |
| `ListChannel.Channel.Send` | src/list.rs:404-411 | Ok exactly when the queue accepted this message, Disconnected exactly when it refused it; undisturbed from rest, with enough retries, Ok if and only if the queue was open |
| `ListChannel.Channel.StartRecv` | src/list.rs:270-343 | the one effect of the call is one dequeue for this thread, or a true verdict "empty" or "disconnected"; it gives up only after all its retries, in `wait_next` only if the next block was not linked in that many states; undisturbed from rest it does not |
| `ListChannel.Channel.Advance` | src/list.rs:324-332 | the claimer of the last slot moves the head one index on: to the first index of the next lap, in the block of that lap, with the hint only if the tail is in a later lap still |
| `ListChannel.Channel.Destroy` | src/list.rs:81-98 | the call ends with the block freed, or with DESTROY set on a slot not yet read, whose reader takes over; the receive returns the message it owes |
| `ListChannel.Channel.Read` | src/list.rs:368-390 | the message returned is the one this thread dequeued; none is returned only if WRITE was clear in as many states of the call as there were retries |
| `ListChannel.Channel.TryRecv` | src/list.rs:413-421 | a message returned is the front of the queue at an instant of the call; otherwise the verdict was true at an instant of the call; a message taken but not returned was not yet written in as many states as there were retries; begun from rest and not disturbed, with more than 77 retries, the call returns the front of the queue, or the true verdict if there is none |
| `ListChannel.Channel.Len` | src/list.rs:424-458 | the answer is the number of messages in a state the channel was in during the call; undisturbed from rest, with enough retries, there is an answer |
| `ListChannel.Channel.Shutdown` | src/list.rs:476-485 | the answer is whether this call closed the queue |
| `ListChannel.Channel.Drop` | src/list.rs:498-530 | every unread message is dropped once and in order, every remaining block freed once, nothing is left behind; accepted = received + dropped |
| `ArrayWords.WithCapacity` | src/array.rs:116-141 | `mark_bit` is a power of two above the capacity, one lap twice that |
| `ArrayWords.Unpack` | src/array.rs:176-177 | lap, mark and index come out of a packed word as they went in |
| `ArrayWords.StampIs` | src/array.rs:116-141 | the word of position p is (p / cap) * one_lap + p % cap |
| `ArrayWords.StampParts` | src/array.rs:176-192 | for every capacity and position, index, mark and lap never carry into one another, and the next word is the word of the next position |
| `ArrayWords.StampGrows` | src/array.rs:183-192 | words of later positions are larger, across laps |
| `ArrayWords.SameSlot` | src/array.rs:183-209 | positions of one slot are whole laps apart |
| `ArraySteps.FreeSlot` | src/array.rs:183-203 | a slot whose stamp equals the tail is empty, its last reader is done, and there is room |
| `ArraySteps.FullSlot` | src/array.rs:257-274 | a slot whose stamp is the head plus one holds the next message, written and unclaimed |
| `ArraySteps.NotInviting` | src/array.rs:183-203 | from its claim to its stamp store an owned slot never carries a stamp that invites another claim |
| `ArraySteps.StepKeeps` | src/array.rs:165-335 | every atomic step of every call, by any of any number of threads, keeps the slot, word, claim and ownership invariant |
| `ArrayTheorems.Always` | src/array.rs:114-335 | in every run no thread leaves the buffer, overwrites a message or reads an empty slot |
| `ArrayTheorems.TailCasIsCoherent` | src/array.rs:195-203 | if the tail CAS can succeed, the stamp read before it is still current and the slot is empty |
| `ArrayTheorems.HeadCasIsCoherent` | src/array.rs:269-274 | if the head CAS can succeed, the stamp read before it is still current and the slot holds the next message |
| `ArrayTheorems.OneOwner` | src/array.rs:200-237 | between claim and stamp store a thread is alone on its slot |
| `ArrayTheorems.FullVerdict` | src/array.rs:209-215 | "full" means that exactly cap positions are between the two at the head load, whatever happened since the tail was loaded |
| `ArrayTheorems.EmptyVerdict` | src/array.rs:280-295 | "empty" and "disconnected" mean that no position is between the two at the tail load |
| `ArrayTheorems.StepRefines` | src/array.rs:165-316 | each step is one step of the FIFO queue of capacity cap |
| `ArrayTheorems.ArrayIsFifo` | src/array.rs:165-316 | linearizability: every run is a run of the bounded FIFO queue: order, capacity, one shutdown |
| `ArrayTheorems.ArrayCloses` | src/array.rs:169-173 | after a shutdown no position is claimed by a sender; after "disconnected" nothing is sent or received |
| `ArrayDelivery.ReturnsWhatItTook` | src/array.rs:320-335 | what the receives of a thread return is exactly what that thread dequeued, each message once, in order |
| `ArrayQueries.LenIsExact` | src/array.rs:393-404 | `len` is the distance of the two positions for every lap, wrap and mark |
| `ArrayQueries.LenAtAnInstant` | src/array.rs:385-407 | in any run an unchanged tail makes `len` the number of messages at the head load, within 0..cap |
| `ArrayQueries.IsFullAtAnInstant` | src/array.rs:426-435 | `is_full` true: full at the head load; false: some state during the call is not full |
| `ArrayQueries.IsEmptyAnswers` | src/array.rs:414-423 | `is_empty` answers true exactly when the channel is open and no message was ever received |
| `ArrayQueries.IsEmptyWrong` | src/array.rs:414-423 | in every reachable state: wrongly true exactly if open, something sent and nothing received; wrongly false exactly if all that was sent was received, and the channel is closed or something was received |
| `ArraySolo.IsEmptyFails` | src/array.rs:414-423 | for every capacity both are reached, at rest: after one send, and after one send and one receive |
| `ArraySolo.RunsToEnd` | src/array.rs:165-335 | obstruction freedom: from any reachable state, a thread that runs alone ends its call within 8 of its own steps |
| `ArraySolo.SoloSend` | src/array.rs:165-242 | from rest a send made alone ends with the message at the end of the queue, or with nothing changed if it was full or closed |
| `ArraySolo.SoloRecv` | src/array.rs:245-335 | from rest a receive made alone ends with the first message gone, or with nothing changed if there was none |
| `ArrayCalm.RecvShows` | src/array.rs:245-335 | within any run: up to every step of an undisturbed receive nothing has happened to the queue, or the receive has been told its front, or the true verdict |
| `ArrayCalm.SendShows` | src/array.rs:165-242 | the same for a send: accepted, refused, or told that the queue is full, as the queue was |
| `ArrayQueries.QuietSlot` | src/array.rs:455-472 | with no call under way the slot of each unread position holds its message |
| `ArrayQueries.QuietEmptySlot` | src/array.rs:455-472 | with no call under way every other slot is empty |
| `ArrayChannel.Channel.WithCapacity` | src/array.rs:116-162 | the loop stamps slot i with i; a new channel is in the initial state |
| `ArrayChannel.Channel.StartSend` | src/array.rs:165-223 | with other threads at work between any two accesses, a slot is granted exactly when the queue accepted the message; the other answers are what the queue said; it gives up only after all its retries, and never if begun from rest with more than 8 of them and not disturbed: then the answer is the one the queue called for |
| `ArrayChannel.Channel.Write` | src/array.rs:227-242 | the message goes into the claimed slot, then the stamp; the claim is discharged |
| `ArrayChannel.Channel.TrySend` | src/array.rs:338-354 | Ok, Closed and NoCapacity are the queue's answers to this message; undisturbed from rest, with enough retries, exactly as the queue was: open with room, closed, or full |
| `ArrayChannel.Channel.StartRecv` | src/array.rs:245-302 | one dequeue for this thread, or a true verdict; gives up only after all its retries, and never if begun from rest with more than 8 of them and not disturbed |
| `ArrayChannel.Channel.Read` | src/array.rs:320-335 | the message returned is the one this thread dequeued |
| `ArrayChannel.Channel.TryRecv` | src/array.rs:374-382 | a message returned is the front of the queue at an instant of the call; otherwise the verdict was true then; undisturbed from rest, with enough retries, the front of the queue, or the true verdict if there is none |
| `ArrayChannel.Channel.Len` | src/array.rs:385-407 | the answer is the number of messages in a state of the channel during the call; undisturbed from rest, with enough retries, there is an answer |
| `ArrayChannel.Channel.IsFull` | src/array.rs:426-435 | the answer is right about a state of the channel during the call |
| `ArrayChannel.Channel.Shutdown` | src/array.rs:438-448 | the answer is whether this call closed the queue |
| `ArrayChannel.Channel.Drop` | src/array.rs:455-478 | the loop drops every unread message once and in order and leaves the buffer empty; accepted = received + dropped |
| `ArrayWrap.PowersAreModuli` | src/array.rs:120-121 | machine words have room for whole laps |
| `ArrayWrap.WrapParts` | src/array.rs:176-177 | index, mark and stripping commute with wrapping around |
| `ArrayWrap.WrapNextWord` | src/array.rs:184-192 | the next word, with wrapping addition, is the wrapped next word |
| `ArrayWrap.StepWraps` | src/array.rs:165-316 | on wrapping machine words every step gives the wrapped outcome, as long as the tail has not run nearly a full wrap ahead of a saved word |
| `ArrayWrap.WrapSimulates` | src/array.rs:165-316 | whole runs on wrapping words are the wrapped runs of the unbounded model under that hypothesis, and never fault |
| `ArrayWrap.LenWraps` | src/array.rs:385-407 | `len` gives the number of messages on wrapped words |
| `ArrayWrap.FullWraps` | src/array.rs:426-435 | `is_full` gives the same answer on wrapped words |
| `Meeting.OneSideWaits` | src/zero.rs:184-220 | in the reference meeting senders and receivers never wait at the same time, and nobody waits once it is closed |
| `Meeting.NothingAfterClose` | src/zero.rs:316-326 | once closed nobody meets or waits, and no second shutdown is the first |
| `ZeroSteps.StepKeeps` | src/zero.rs:115-290 | every atomic step of every call, by any of any number of threads, keeps the lock, queue, packet, context and pairing invariant |
| `ZeroTheorems.Always` | src/zero.rs:117-290 | in every run no packet is touched off its owner's stack, no `unwrap` fails, `unreachable!` is not reached |
| `ZeroTheorems.OnePartner` | src/zero.rs:163-168 | a packet has at most one partner, never its owner |
| `ZeroTheorems.PacketOutlivesPartner` | src/zero.rs:222-226 | until its partner's last access the packet is on the stack and its owner waits in the same call |
| `ZeroTheorems.PacketStoredInTime` | src/waker.rs:78-84 | `store_packet` hits the context of the operation just selected, never one reset since |
| `ZeroTheorems.NeverOwnEntry` | src/waker.rs:73-75 | a thread never meets its own entry, so comparing thread ids decides nothing |
| `ZeroTheorems.UnregisterFinds` | src/zero.rs:217-219 | `unregister(oper).unwrap()` finds the caller's entry |
| `ZeroTheorems.WaitersOnOneSide` | src/zero.rs:184-220 | the two queues never both hold a waiting entry |
| `ZeroTheorems.NoWaiterOnceClosed` | src/zero.rs:316-326 | after a disconnect, once the lock is free, every queued entry is Disconnected |
| `ZeroTheorems.StepRefines` | src/zero.rs:158-326 | each step is one step of the meeting: a pairing takes the waiter that registered first, verdicts are true under the lock |
| `ZeroTheorems.ZeroIsMeeting` | src/zero.rs:158-326 | linearizability: every run is a run of the meeting |
| `ZeroTheorems.WordsAreSelections` | src/context.rs:90-101 | a context is one word: in no run is the operation written into it taken for another selection |
| `ZeroSolo.RunsToEnd` | src/zero.rs:117-326 | obstruction freedom: from any reachable state, a thread that runs alone and does not have to wait for a partner ends its call within 5 of its own steps |
| `ZeroSolo.SoloTry` | src/zero.rs:158-246 | from rest a `try_` call made alone is told that nobody is there, or Disconnected if it is, with its message back; the channel is as it was |
| `ZeroCalm.LockStaysFree` | src/zero.rs:158-326 | within any run: a call that found the lock free when it began, and is not disturbed, never finds it taken |
| `ZeroCalm.CallIsTold` | src/zero.rs:158-290 | within any run: an undisturbed call has, once it has any effect, the effect that the meeting called for when it began: it meets the one who has waited longest, waits, leaves or is refused |
| `ZeroDelivery.ReturnsWhatWasDealt` | src/zero.rs:117-290 | the calls of a thread return exactly what pairings dealt it: Ok for a send paired with one receive, the message for that receive, each once and in order |
| `ZeroDelivery.GivesBackOriginal` | src/zero.rs:217-221 | a sender cut off while waiting gets back the message it came with |
| `ZeroChannel.Channel.New` | src/zero.rs:95-113 | a new channel is in the initial state |
| `ZeroChannel.Channel.TrySelect` | src/waker.rs:67-96 | with other threads at work: the first entry that is another thread's and still waiting gets the operation and the packet in its context and leaves the queue; if there is none, queues and contexts are as they were |
| `ZeroChannel.Channel.TakeEntryBack` | src/waker.rs:56-63 | the loop finds the caller's own entry, and exactly that entry leaves the queue |
| `ZeroChannel.Channel.MarkAll` | src/waker.rs:114-125 | exactly the contexts of entries still waiting become Disconnected; no entry is removed and no other context touched |
| `ZeroChannel.Channel.Complete` | src/zero.rs:117-145 | `write` or `read` on the partner's packet ends the call with Ok or the message that packet came with, counted once |
| `ZeroChannel.Channel.Block` | src/zero.rs:213-227 | a blocked call ends with Ok, the message, or the original message back; it gives up only if what it spins on (its selection, its packet, the lock) was not there in as many states as there were retries |
| `ZeroChannel.Channel.Perform` | src/zero.rs:184-290 | what a call answers is what the meeting said to it: whoever met somebody gets Ok or the message the meeting named; no answer means that the call spins on the lock with nothing done, or waits, stuck in as many states as there were retries; made while the lock is free and not disturbed, the call has exactly the effect that the meeting called for |
| `ZeroChannel.Channel.TrySend` | src/zero.rs:158-181 | Ok: met a waiting receiver with this message; Closed and NoCapacity give it back and were true under the lock; undisturbed, with the lock free, Closed if the meeting was closed, Ok if a receiver waited, NoCapacity otherwise |
| `ZeroChannel.Channel.Send` | src/zero.rs:184-229 | Ok exactly if one receive was given the message; Disconnected gives back the original; no answer only while it spins; undisturbed, with the lock free, answered at once if closed or met by a receiver, else it waits |
| `ZeroChannel.Channel.TryRecv` | src/zero.rs:232-246 | a message it was dealt, or a verdict true under the lock; undisturbed, with the lock free, the message of the sender that has waited longest, or the true verdict |
| `ZeroChannel.Channel.Recv` | src/zero.rs:248-290 | a message it was dealt, or Disconnected; no answer only while it spins; undisturbed, with the lock free, answered at once if closed or a sender waits, else it waits |
| `ZeroChannel.Channel.ShutDown` | src/zero.rs:316-326 | the answer is whether this call closed the channel; none only if the lock was taken in as many states as there were retries, never if it was free and nobody interfered |
| `ZeroChannel.Channel.ReturnedIsDealt` | src/zero.rs:184-290 | between its calls a thread has returned all it was dealt |
| `Select.SelectedRoundTrip` | src/select.rs:32-54 | the words of the four selections are distinct, exactly because operations are above 2 |
| `Waker.Context.TrySelect` | src/context.rs:90-101 | one-shot: only the first selection after a reset succeeds, the others are told which |
| `Waker.Waker.Unregister` | src/waker.rs:56-63 | the first entry of the operation is removed and returned; those before it stay, those behind it move up by one; None exactly if there is none |
| `Waker.Waker.TrySelect` | src/waker.rs:67-96 | the first entry of another thread still waiting is selected and removed, the others keep their places in line, all other contexts unchanged; None exactly if there is none |
| `Waker.Waker.Disconnect` | src/waker.rs:114-125 | exactly the waiting entries become Disconnected; none is removed |
| `Counter.StepKeeps` | src/counter.rs:52-78 | every step keeps the invariant of the counts, of the last handles and of `destroy`, unless a clone wraps a count around |
| `Counter.Always` | src/counter.rs:52-78 | in every run without overflow nothing touches the channel once it is freed |
| `Counter.CountsAreHandles` | src/counter.rs:52-66 | each count is the number of live handles of its side |
| `Counter.FreedAtTheEnd` | src/counter.rs:71-78 | when the channel has been freed no handle is live or inside `disconnect`, both last handles have called shutdown, and it was freed once |
| `Counter.FreedInTheEnd` | src/counter.rs:71-78 | when every handle has been dropped the channel has been freed, exactly once |
| `CounterOverflow.OverflowIsFatal` | src/counter.rs:52-66 | for every largest count from 2 on and every run without overflow before: after a clone at the largest count there is a continuation in which the channel is freed while handles of that side are live, and the next use touches freed memory |
| `CounterOverflow.SafeExactly` | src/counter.rs:52-78 | after a step of a handle every continuation is safe if and only if that step is not a clone at the largest count |
| `CounterOverflow.OverflowReached` | src/counter.rs:52-66 | for every largest count a run reaches such a clone |
| `CounterObject.Shared.Acquire` | src/counter.rs:52-66 | a new live handle of the same side on a channel that is still there, the count within bounds; or the process aborts, only if the count of that side is at its largest value |
| `CounterObject.Shared.Release` | src/counter.rs:71-78 | the handle is done; the call frees the channel exactly if the channel ends freed, and then every handle there ever was is done |
| `SerialWaker.Always` | src/atomic_serial_waker.rs:47-94 | under every interleaving no task is lost or made up: a registered task is queued, in one thread's hands or notified; the queue holds at most 4; banked and made-up wakes account for the misses |
| `SerialWaker.QuietTasks` | src/atomic_serial_waker.rs:47-94 | with no call under way no task is lost and `from_me` counts the notifications |
| `SerialWaker.PositiveUpdate` | src/atomic_serial_waker.rs:9-18 | over a whole call, others interleaved: success is one step that takes one from a positive value, failure means that a step of the call found 0, and no other step of the call changes memory |
| `SerialCalls.CallDoes` | src/atomic_serial_waker.rs:47-94 | in any run a whole call, others interleaved, does this and nothing else: `wake` takes one task off the front and notifies it, or finds the queue empty and banks one wake; `wake_all` takes and notifies task after task until it finds the queue empty; `register` notifies its task if the queue is full, else queues it and runs `wk`, which notifies the first task against a banked wake, or puts it at the end |
| `SerialCalls.SoloCall` | src/atomic_serial_waker.rs:47-94 | a call made alone ends, with queue, banked wakes and notified tasks as the same call on the line run one call at a time leaves them |
| `SerialObject.Tasks.PositiveUpdate` | src/atomic_serial_waker.rs:9-18 | the loop, run alone with spurious failures, decrements if positive |
| `SerialObject.Tasks.Register` | src/atomic_serial_waker.rs:47-57 | a task is notified against a banked wake or when the queue is full, else queued behind the first; the whole line of tasks is that of the reference line |
| `SerialObject.Tasks.Wake` | src/atomic_serial_waker.rs:78-86 | the first task is notified or the wake is banked; wakes = notified by wake + notified against banked wakes + banked |
| `SerialObject.Tasks.WakeAll` | src/atomic_serial_waker.rs:89-94 | every queued task is notified, in order |
| `SerialObject.RotationKeeps` | src/atomic_serial_waker.rs:60-74 | putting the first task behind the one just queued keeps the order exactly if all queued tasks equal the new one, so for a new task exactly if the queue was empty |
| `SerialObject.OrderKeptExactly` | src/atomic_serial_waker.rs:47-94 | for every sequence of calls: tasks are notified and queued in the order of registration after each call if and only if each registration met a banked wake or only tasks equal to its own |
| `SerialObject.OrderComesBack` | src/atomic_serial_waker.rs:47-94 | looking at the end of the sequence only is not enough: the order can be lost and found again |

## Left out

- Weak memory: steps are sequentially consistent; `load_consume`, `Relaxed`, `Acquire`, `Release` and fences are not distinguished.
- Waiting forever: the spin loops (`wait_next`, `wait_write`, `wait_ready`, the spinlock, retry loops) are proved safe; that they end is proved for a thread that runs alone (`ListSolo`, `ArraySolo`, `ZeroSolo`), not under a fair scheduler. `drop`, `try_select`, `unregister`, `disconnect` and `wake_all` are proved to end.
- ListChannel.Channel.StartSend: gives up after a given number of retries with the thread still inside its loop, having shown nothing; if other threads do move, how many retries suffice is not said.
- ListChannel.Channel.StartRecv: the same, except that the message may already be dequeued for the thread when it gives up waiting for the next block (which then was not linked in that many states).
- ArrayChannel.Channel.StartSend: gives up after a given number of retries, having shown nothing; if other threads do move, how many suffice is not said.
- ArrayChannel.Channel.StartRecv: the same.
- ZeroChannel.Channel.Perform: gives up after a given number of retries in any of its spin loops, saying where it spins and that what it spins on was not there in so many states; when it would go on is not said.
- ListLen.LenIsExact: indices of the unbounded channel do not wrap around; `usize` overflow of its index is not modelled.
- Address reuse: an allocation never returns an address that was freed before, so an ABA on block pointers is not modelled; packets and operations are numbered for good.
- `is_empty` of the unbounded channel and `is_shutdown` of all: one or two loads with no more to say than the index and mark lemmas.
- Blocking `send` of the bounded channel with a deadline, `recv` with timeouts, `Instant`, `park` and `unpark`, `Context::wait_until`: retry `try_send` against a clock.
- The calls of `wake`, `wake_all` and `register` made by the channels: they touch only the task queue, which `SerialWaker` models by itself.
- `Stream`, `Sink` and task plumbing (`poll_read` reads as `read` does; `current`, `notify`): they need an executor; a notified task is one appended to a log.
- Heap packets of the rendezvous channel (`empty_on_heap`, never called), `Context::wait_packet`, `Waker::can_select`, the thread-local cache in `Context::with`: each thread has one context, reset for each blocking call.
- SerialWaker.Always: no claim that a wake is never lost while `wk` holds a task; under interleaving only conservation and what each call does (`SerialCalls.CallDoes`), the stronger accounting when calls run one at a time.
- CounterObject.Shared.Acquire: the class says nothing after the overflow, where the process aborts (`CounterOverflow` does); `Environment` makes no such clone either.
- The freeing of the buffer of the bounded channel and the `CachePadded` layout: one allocation, freed once by `drop`.
- `ArrayQueue` of the task queue: pushes and pops are taken as atomic; its own algorithm is not part of this model.
- Error types, formatting, benches, channel type aliases, `select.rs` beyond the four selections, `utils.rs` beyond an atomic lock.
