# Nea, verified

A Dafny model of the core of Nea, an async web-server runtime with a fixed set of request
*buckets*: the concurrent bucket queue, the readiness reactor, the life of a bucket, the bump
allocator, the index arithmetic that ties them together, and the fixed-point decimal `RocDec` of
the Roc bindings. `dafny verify dfyconfig.toml` checks everything.

## How the system is modelled

Concurrent parts are transition systems: a state, an `Action` per atomic operation (or per
operation done under one lock), `Enabled`, `Do`, and runs as sequences of actions. Any number of
workers, enqueue calls, allocating threads, sources and buckets take part, in any interleaving.
Theorems speak of every run and every state it passes through. Code that works on one object in
place is a class (`QueueSlot`, `Bucket`, `Inner`, `SourceCell`) or a method with loops (`Parse`,
`Edit`, `Print`); what other threads do between two of its atomic operations is a parameter, and
its contract ties it to the functions the transition systems use.

`Runtime` puts the queue and the life of a bucket together: a worker leaves a bucket forever exactly
when the last reference goes, and a task is enqueued only by the accept loop after its future is set,
at the end of its handshake, or by a waker made for one of its polls. `Server` adds the reactor: a
task does I/O while a worker polls it, with a waker that carries its queue index in a word, and the
event loop wakes it by enqueueing that index. `Memory` puts the life of a bucket and the allocator
together: application code allocates step by step inside a poll, and the lifecycle clears the area.

| file | what it holds |
|---|---|
| `Options.dfy`, `Words.dfy`, `Counting.dfy`, `Decimals.dfy` | optional values, bit operations on words, weighted counts, decimal digit strings |
| `BucketQueue.dfy` | `queue.rs` and the worker loop of `executor.rs` as a transition system |
| `QueueSlots.dfy` | the queue slot at bit level, refined to two flags and a set of offsets |
| `QueueInvariants.dfy`, `QueueCoverage.dfy` | what every step keeps |
| `QueueTheorems.dfy`, `QueueProgress.dfy`, `QueueWindDown.dfy` | theorems over whole runs |
| `Index.dfy`, `Dispatch.dfy` | index conversions; from a wake to the polled task |
| `Reactor.dfy`, `ReactorTheorems.dfy`, `ReactorProgress.dfy`, `ReactorTasks.dfy`, `ReactorSource.dfy` | the readiness protocol |
| `Lifecycle.dfy`, `Executor.dfy` | claim, set, handshake, completion, cleanup, reuse; the flat tables |
| `Runtime.dfy`, `RuntimeWakes.dfy`, `RuntimeLoss.dfy`, `RuntimeProgress.dfy` | the queue and the lifecycle in one transition system: safety, from wake to poll, lost workers, progress |
| `RuntimeWitnesses.dfy` | concrete runs of it that go wrong |
| `Server.dfy`, `ServerProgress.dfy`, `ServerRuns.dfy` | the reactor, the queue and the lifecycle in one transition system |
| `Allocator.dfy`, `Memory.dfy` | the compare-exchange bump allocator; with the lifecycle in one transition system |
| `RocDec.dfy` | parsing and printing |

Assumptions, all explicit in the model: atomics are sequentially consistent; there is at least one
worker; a bucket has at least one TCP stream and at most 64 tasks, and there are at most 1000
buckets; slots, calls and workers together number less than 2^32; a source has one task per
direction; a stream is not dropped while it is being polled and at most one stream exists per queue
index; `Layout` alignments are powers of two; the kernel queues one event per not-ready-to-ready
edge of a registered descriptor and one at registration, and an operation would block only on a
descriptor that is not ready; a bucket's tasks are polled by one worker at a time (which
`OwnersAreExclusive` proves of the queue, and `Runtime` builds in); the await of hyper's handshake
may suspend; application code inside a poll returns (needed by the results about progress only, and
explicit in `RuntimeProgress` as a rank that each of its steps lowers); memory is allocated in a
bucket only while one of its live tasks is being polled; the lock on a main future is never found
taken by `set` or by a poll (both insist on it, outside of any handler, so that the accept loop
filling a bucket at the very moment a late main wake of it is polled would panic one of them); words
are little-endian, as on the only supported platform.

An enqueue call is an activity of its own in the model, also when a worker makes it from inside a
poll; the worker need not wait for it. This allows more interleavings than the code has.

## What turned out false, and exactly when

* A worker that leaves a bucket through `Forever` does not look at the mask again, so wakes of
  connections can be stranded (`ForeverCanStrand`), and then further wakes of the same connection
  are swallowed (`StrandedUntilOtherWake`). A run loses no job if and only if each such exit finds
  the mask empty, ENQUEUED set, or an enqueue call about to set it (`NoJobLostIffCleanExits`). The
  main task is never affected, and in race-free runs no live task is (`LiveWakeIsCovered`): what is
  stranded are late wakes of connections that are finished (`StrandedWakesAreLate`).
* A late wake that is dequeued while its connection is reserved anew is a panic that nobody catches:
  the worker thread is lost, and whatever waits in its bucket waits forever (`WorkerCanBeLost`,
  `LostForGood`). In race-free runs a wake of a live task is seen to if and only if no such wake was
  dequeued in its bucket (`NoLiveWakeLost`), and none is as long as no connection is reserved while
  a wake of its offset waits and none is posted while it is reserved (`NoWorkerLost`).
* A wake of the main task that outlives its future is dequeued without one, and the cleanup that
  follows can reset the reference count of a bucket the accept loop has just claimed
  (`RaceBreaksAccounting`). The counts are right throughout a run if and only if every cleanup resets
  a bucket that is neither claimed nor refilled (`AccountedIffBenign`), which holds whenever offset 0
  is dequeued only with a future present.
* A request that completes while one of its handshakes is still under way leaves a reserved
  connection behind (`HandshakeCanBeAbandoned`). Over a race-free run that happens if and only if
  some main task finishes while one of its connections is reserved (`AbandonedIffFinishedEarly`),
  and the bucket then stays taken if and only if none of its other tasks fails
  (`AbandonedBucketStaysTaken`).
* Allocated addresses honour every supported alignment if and only if the area starts on a multiple
  of 4096 (`AddressesAligned`); with more than one bucket that means the bucket size must be a
  multiple of 4096 (`BucketStartsAligned`).
* `RocDec::from_str` drops a fraction longer than 18 bytes (`LongFractionIgnored`) and accepts a
  sign after the point (`SignedFractionAccepted`). A text it accepts is a numeral with the value
  returned if and only if it has no point, or its fraction has 1 to 18 bytes and does not begin
  with a sign (`NumeralIffPlain`); `ParserTotal` says which texts it accepts and with what value.

## Model

| member | source | states |
|---|---|---|
| `QueueTheorems.RunsKeepInvariant` | nea/src/queue.rs:201-333 | every reachable state has exclusive owners, a conserved counter, no worker asleep while available buckets outnumber searching workers and notifications to come, and no stranded main wake |
| `QueueTheorems.OwnersAreExclusive` | nea/src/queue.rs:33-43 | IN_PROGRESS is set exactly when some worker owns the slot, and no two workers own the same one |
| `QueueTheorems.CounterIsAWord` | nea/src/queue.rs:92-104 | counting goes through below 4294967295 and fails there |
| `QueueTheorems.NothingPanics` | nea/src/queue.rs:92-124 | no checked add or subtract on the counter fails, the assertion in `done_with_bucket` holds, its two rounds suffice, and the counter is bounded by slots plus threads |
| `QueueTheorems.NoSleepingDeadlock` | nea/src/queue.rs:315-333 | while a bucket is ENQUEUED and not IN_PROGRESS, some worker is awake or some `wake_one` is still to come |
| `QueueTheorems.NoJobLostIffCleanExits` | nea/src/executor.rs:480-498 | every non-empty mask in every state of a run has ENQUEUED set, a pending enqueuer or a draining owner, if and only if every exit through `Forever` was clean |
| `QueueTheorems.NoJobLostWithoutForever` | nea/src/executor.rs:314-317 | no job at any offset is lost when workers leave only after seeing an empty mask |
| `QueueTheorems.AtRestNothingWaits` | nea/src/queue.rs:126-139 | when all workers sleep and no enqueue call is under way, no slot is flagged and no main task waits, and after clean exits no task at all |
| `QueueTheorems.NeverStuckOnMainWake` | nea/src/queue.rs:315-333 | while a main task's wake is in a mask and polls return, some thread can take a step of its own in the queue |
| `QueueTheorems.ClearRemovesOneWake` | nea/src/queue.rs:54-69 | the offset loaded by the owner is still set at its `fetch_and`, which removes that offset and nothing else anywhere |
| `QueueTheorems.WakesArePolled` | nea/src/queue.rs:201-212 | a wake, coalesced or not, leaves the mask only by a removal after the wake whose taker goes on to poll that offset |
| `QueueTheorems.StrandedUntilOtherWake` | nea/src/queue.rs:208-212 | a stranded bucket stays exactly as it is through every run that wakes only offsets already in its mask |
| `QueueInvariants.OwnershipStep` | nea/src/queue.rs:246-276 | every step keeps ownership exclusive, the loaded offset set, and ENQUEUED set at the start of the second release round |
| `QueueInvariants.ConservedStep` | nea/src/queue.rs:217-242 | every step keeps the counter equal to available slots plus enqueuers that incremented and have not settled plus workers that took a slot and have not decremented |
| `QueueInvariants.StaffedStep` | nea/src/queue.rs:107-139 | every step keeps available buckets matched by searching workers and pending notifications while anyone sleeps |
| `QueueCoverage.MainCoveredStep` | nea/src/queue.rs:54-69 | every step keeps each set bit 0 covered by ENQUEUED, by the call that newly set it, or by an owner certain to see it |
| `QueueCoverage.CoveredStep` | nea/src/executor.rs:427-433 | a step keeps every job covered if and only if it is not an unclean exit through `Forever` |
| `QueueProgress.WorkIsFinite` | nea/src/executor.rs:473-501 | without new wakes, the productive steps of a run from any reachable state are bounded by the work left in that state |
| `QueueWindDown.CanWindDown` | nea/src/executor.rs:473-501 | the queue alone, with polls that return: from every reachable state, and however polls end, its own steps can bring all workers to sleep |
| `QueueWindDown.MainWakeCanBeServed` | nea/src/queue.rs:180-199 | the queue alone, with polls that return: every run with a main wake can be continued by its own steps, however polls end, to one where that task is polled after the wake |
| `Runtime.LiveWakeIsCovered` | nea/src/executor.rs:412-438 | in race-free runs of queue and lifecycle together, every wake of a live task, main or connection, has ENQUEUED set, a pending enqueuer or a draining owner |
| `Runtime.StrandedWakesAreLate` | nea/src/executor.rs:427-433 | every offset of a stranded bucket is a connection offset whose connection is empty |
| `Runtime.AtRestNoLiveTaskWaits` | nea/src/executor.rs:473-501 | when all workers sleep and no enqueue call is under way, no live task has a wake waiting |
| `Runtime.RunsHoldTasks` | nea/src/executor.rs:150-160 | whatever may be enqueued, waits in a mask or is in a worker's hands names a main task or a connection, in every reachable state |
| `Runtime.DispatchAgrees` | nea/src/executor.rs:319-327 | dispatch on what a worker polls selects the main task or the connection of its own bucket, and whichever lifecycle step begins the poll is about that very task |
| `Runtime.PostsNameTasks` | nea/src/executor.rs:44-54 | every enqueue of a combined run carries a task's index, so what is proved of dispatch holds of it |
| `Runtime.RunsMatch` | nea/src/executor.rs:319-408 | a poll under way in a bucket is that of the task whose offset the bucket's one owner dequeued |
| `Runtime.QueueRunsAlone` | nea/src/executor.rs:313-317 | the queue's part of a combined run is a run of the queue, so its theorems carry over |
| `Runtime.LifeRunsAlone` | nea/src/executor.rs:385-438 | the lifecycle's part of a combined run is a run of the lifecycle |
| `RuntimeWakes.LiveTaskIsPolled` | nea/src/executor.rs:543-557 | a worker with the offset of an occupied connection, or of a main task with its future, in hand can go on only by polling that very task |
| `RuntimeWakes.OwedUntilAttended` | nea/src/executor.rs:313-329 | over every run, a wake that waits or is in a worker's hands stays so until a worker attends to the very task it names |
| `RuntimeLoss.NoLiveWakeLost` | nea/src/executor.rs:412-438 | in race-free runs a wake of a live task is covered by somebody who is not lost, if and only if no wake was dequeued for a reserved connection of its bucket |
| `RuntimeLoss.OwnerLostIffReservedPolled` | nea/src/executor.rs:543-549 | in race-free runs a bucket's owner is lost if and only if a wake was dequeued for a reserved connection of it |
| `RuntimeLoss.LostForGood` | nea/src/executor.rs:381-388 | a lost worker never moves again, and nothing that waits in its bucket leaves the mask |
| `RuntimeLoss.NoWorkerLost` | nea/src/executor.rs:204-222 | no worker is lost as long as no connection is reserved while a wake of its offset waits, and none is posted while it is reserved |
| `RuntimeProgress.NeverStuckOnLiveWake` | nea/src/queue.rs:315-333 | while a live task's wake is in a mask, some worker or enqueue call can take a step, in race-free runs without a lost worker |
| `RuntimeProgress.CanSettle` | nea/src/executor.rs:473-501 | for every application whose polls return, the runtime's own steps can end every call and bring every worker to sleep or to stand before one of the two panics |
| `RuntimeProgress.WakeCanBeServed` | nea/src/queue.rs:180-199 | after every race-free run without a lost worker and for every such application, the runtime's own steps lead from every wake that is owed to the poll of its task, unless its connection ends first, its bucket's worker comes to stand before a panic, or all do |
| `RuntimeProgress.BlockedWorkersPanic` | nea/src/executor.rs:509-510 | a worker that stands before a panic can take no step but that panic |
| `RuntimeWitnesses.ForeverCanStrand` | nea/src/executor.rs:427-433 | a concrete race-free run, every wake with its cause, in which the exit of the last task strands a late wake of a finished connection |
| `RuntimeWitnesses.WorkerCanBeLost` | nea/src/executor.rs:543-549 | a concrete race-free run that loses its worker with the main task's wake in the mask, which no continuation attends to |
| `RuntimeWitnesses.HandshakeCanBeAbandoned` | nea/src/executor.rs:243-250 | a concrete race-free run after which nobody owns the bucket, its main future is gone and its connection is still reserved |
| `RuntimeWitnesses.HandshakeCanFail` | nea/src/executor.rs:224-226 | a concrete race-free run in which a second handshake finds no free connection and the bucket is cleaned up, its live connection included |
| `RuntimeWitnesses.RaceBreaksAccounting` | nea/src/executor.rs:504-512 | a concrete run in which the main task's own late wake, dequeued without a future, ends in a failed `set` |
| `Server.ReadySleeperIsSeenTo` | nea/src/reactor.rs:197-236 | in race-free runs whoever sleeps on a ready descriptor has its waker collected or an event on its way; or it was woken and since then, in this very sleep, its task was attended to, or is owed a poll: in a worker's hands, or in its bucket's mask, seen to if it lives |
| `Server.WakersCanBeInvoked` | nea/src/queue.rs:185-199 | a collected waker always carries the index of a task, so that invoking it runs into neither the bound on buckets nor a missing one |
| `Server.ServedWasAttended` | nea/src/executor.rs:313-329 | a woken sleeper counts as served only if a worker attended to its very task after the wake, during this very sleep |
| `ServerProgress.SleeperCanBeServed` | nea/src/reactor.rs:180-239 | after every race-free run without a lost worker, whoever sleeps on a ready descriptor can be woken and its task attended to by the server's own steps, for every honest kernel and every application whose polls return; unless its connection has ended, its bucket's worker comes to stand before a panic, or all do |
| `ServerRuns.LiftReactor` | nea/src/reactor.rs:249-277 | whatever the reactor can do for a task that is being polled, up to invoking wakers, the server can do |
| `ServerRuns.PolledTaskCanSleep` | nea/src/reactor.rs:75-148 | a task that is being polled can register a stream on any free index and go to sleep on it with the waker of its own poll, and the descriptor can become ready |
| `ServerRuns.StartUpIsInitial` | nea/src/executor.rs:84-126 | a server with any supported number of buckets, connections, calls, workers and sources is a state the runs start from |
| `Memory.MemoryInUseIsSafe` | shared/src/allocator.rs:87-120 | in race-free runs a block keeps its place as long as its bucket has a task, and overlaps with nothing handed out meanwhile, there or in any other bucket |
| `Memory.CleanSlate` | nea/src/executor.rs:587-605 | in race-free runs an area is cleared only without a task and without an allocation under way, and whoever claims a bucket finds nothing handed out |
| `Memory.PolledTaskCanAllocate` | shared/src/allocator.rs:87-120 | a task that is being polled gets its block, if it fits, in three undisturbed steps, and the lifecycle takes off exactly what the area gives |
| `Memory.GrantIsAllowed` | shared/src/allocator.rs:105-114 | an exchange that goes through always belongs to a poll of its bucket and takes no more than the lifecycle has left |
| `QueueSlots.OrAddsJob` | nea/src/queue.rs:202-208 | `fetch_or` of a one-bit mask adds that offset, and the masked old value tells whether it was new |
| `QueueSlots.AndRemovesJob` | nea/src/queue.rs:63-64 | `fetch_and` with the complemented mask removes that offset and no other |
| `QueueSlots.LowestJob` | nea/src/queue.rs:55-61 | a mask is zero exactly when no offset waits, and `trailing_zeros` is the lowest waiting offset |
| `QueueSlots.QueueSlot.TryProcess` | nea/src/queue.rs:33-43 | succeeds exactly on ENQUEUED alone and turns it into IN_PROGRESS; otherwise nothing changes |
| `QueueSlots.QueueSlot.MarkEnqueued` | nea/src/queue.rs:45-52 | sets ENQUEUED and reports both old flags |
| `QueueSlots.QueueSlot.PostJob` | nea/src/queue.rs:201-208 | adds the offset to the waiting set and reports whether it was new |
| `QueueSlots.QueueSlot.Dequeue` | nea/src/queue.rs:54-69 | takes the lowest offset, keeping everything other threads post in between |
| `QueueSlots.QueueSlot.DoneWithBucket` | nea/src/queue.rs:246-276 | under any marks by other threads two rounds suffice, the slot is freed exactly when nobody marked it before the second exchange, and the assertion fails exactly on a slot not in progress |
| `Dispatch.EveryPostWakesATask` | nea/src/executor.rs:26-54 | by induction over the run: wakers, made from the offsets workers dequeue and passed through a machine word, only ever enqueue tasks |
| `Dispatch.MasksHoldTasks` | nea/src/index.rs:197-213 | every job bit in every mask of every reachable state is offset 0 or in the connections' range |
| `Dispatch.PolledTaskWasWoken` | nea/src/executor.rs:319-327 | whenever a worker polls, dispatch succeeds and yields a main task or connection that was enqueued or woken earlier in the run |
| `Dispatch.WakeIsInvertible` | nea/src/queue.rs:185-199 | the bucket and offset posted for a task determine it: dispatch on them gives the task back |
| `Index.BucketRoundTrip` | nea/src/index.rs:84-121 | a bucket's queue index is in range, has offset 0 and leads back to the bucket and its main task |
| `Index.ConnectionRoundTrip` | nea/src/index.rs:123-138 | a connection's queue index is in range and leads back to the connection and to the bucket that owns it |
| `Index.QueueRoundTrip` | nea/src/index.rs:94-103 | a queue index at a connection offset is recovered from its connection index |
| `Index.DispatchDefined` | nea/src/index.rs:197-213 | dispatch answers exactly for offset 0 and connection offsets |
| `Index.ConnectionsPartition` | nea/src/index.rs:15-19 | a connection is in a bucket's range exactly when its queue index maps back to that bucket |
| `Index.BucketsThatAnswer` | nea/src/index.rs:84-92 | exactly the queue indices of the first 1000 buckets have a bucket |
| `Index.WordLayout` | nea/src/index.rs:158-165 | a packed word has the index in its low and the identifier in its high half |
| `Index.TokenRoundTrip` | nea/src/index.rs:158-180 | packing into a word and unpacking are inverse both ways |
| `ReactorTheorems.NoEdgeLost` | nea/src/reactor.rs:197-277 | a parked, unwoken task on a ready descriptor has its waker collected, or stored with an event on its way that will take it |
| `ReactorTheorems.SourceIsPresent` | nea/src/reactor.rs:258-264 | a poll never finds its source missing |
| `ReactorTheorems.StepKeeps` | nea/src/reactor.rs:117-152 | every step keeps the lock discipline, an event for every unseen edge, and a stored or collected waker for every sleeper |
| `ReactorProgress.SleeperCanBeWoken` | nea/src/reactor.rs:180-239 | whoever sleeps on a ready descriptor, in any reachable state, can be woken by steps of the runtime alone, whatever operations on descriptors answer |
| `ReactorProgress.CanFallQuiet` | nea/src/reactor.rs:164-178 | from every reachable state, and whatever operations answer, the event loop can work off all events and wakers, past any lock held by a task, without disturbing sleepers |
| `ReactorSource.SourceCell.PollReady` | nea/src/reactor.rs:117-148 | is the task's looking, storing and looking again in the protocol: it ends at its operation if triggered, else parked with its waker stored |
| `ReactorSource.SourceCell.ClearTrigger` | nea/src/reactor.rs:150-152 | is the clearing step of the protocol on its source, of which `BlockedOperationParks` says what it is for |
| `ReactorSource.BlockedOperationParks` | nea/src/reactor.rs:249-277 | an operation that would block is followed by sleep in the next turn, waker stored and trigger clear, unless an event for its direction comes in between |
| `ReactorSource.RetriesAreCaused` | nea/src/reactor.rs:249-277 | a poll that is still retrying had an event for its direction in every turn but the first: it never spins on its own |
| `ReactorTasks.TaskCanPark` | nea/src/reactor.rs:117-152 | in every reachable state, a task inside `poll_io` on a descriptor that stays unready goes to sleep by its own steps, waker stored, trigger clear, lock given back |
| `ReactorTasks.FirstPollParks` | nea/src/reactor.rs:75-115 | a newly registered source is not triggered: its first poll, before any event, goes to sleep |
| `ReactorTasks.SourceCanWake` | nea/src/reactor.rs:75-236 | on any index of the table a source can be registered, polled to sleep, become ready and have its sleeper woken |
| `ReactorTasks.RestsThenTries` | nea/src/reactor.rs:249-277 | a task that rests on a triggered source, woken or not, can poll again and gets to its operation, whose answer decides what follows |
| `ReactorTasks.IndexCanBeReused` | nea/src/reactor.rs:361-375 | dropping a stream frees its index for another one and changes nothing else |
| `ReactorSource.SourceCell.HandleEvent` | nea/src/reactor.rs:207-231 | equals the four handling stages of the protocol: takes the wakers and sets the triggers of the directions concerned, and only those |
| `ReactorSource.SourceCell.PollIo` | nea/src/reactor.rs:249-277 | through any number of turns and events in between, the source goes exactly through the task's steps of the protocol; Pending leaves the waker stored and the trigger clear |
| `Lifecycle.AccountedIffBenign` | nea/src/executor.rs:444-471 | reference counts equal live tasks throughout a run if and only if every cleanup resets a bucket that is neither claimed nor refilled |
| `Lifecycle.RefcountsAreExact` | nea/src/executor.rs:412-438 | in race-free runs counts are exact, decrements never underflow, handshakes find a positive count, `set` never fails, and counts fit in a byte |
| `Lifecycle.MemoryReuseIsSafe` | nea/src/executor.rs:587-605 | in race-free runs memory is reset only without live tasks, and every claim finds the whole bucket free |
| `Lifecycle.AbandonedIffFinishedEarly` | nea/src/executor.rs:243-250 | over a race-free run no connection is abandoned if and only if no main task finishes while one of its connections is reserved |
| `Lifecycle.AbandonedBucketStaysTaken` | nea/src/executor.rs:204-222 | such a bucket keeps its reservation and a positive count through a race-free run if and only if none of its tasks fails |
| `Lifecycle.WorkerLostIffReservedPolled` | nea/src/executor.rs:543-549 | over a race-free run a bucket's worker is lost if and only if a wake is dequeued for a reserved connection of it; counts never underflow |
| `Lifecycle.OnlyClaimRevives` | nea/src/executor.rs:190-203 | a count of zero is raised by a claim and by nothing else, a late handshake included |
| `Lifecycle.FailuresEndClean` | nea/src/executor.rs:340-372 | over race-free runs, a bucket that comes to rest after a failed poll has no connection, no future, all of its memory and a count of zero |
| `Lifecycle.FailureIsCleanedUp` | nea/src/executor.rs:444-471 | whatever the bucket held, the four cleanup steps after a failure, the missing future included, leave nothing of it |
| `Lifecycle.HandshakeFindsConnection` | nea/src/executor.rs:204-226 | a handshake reserves an empty connection or fails, and fails only when there is none |
| `Lifecycle.BucketStep` | nea/src/executor.rs:190-222 | every step of a bucket's owner, handshake steps included, keeps the books |
| `Executor.Inner.TryClaim` | nea/src/executor.rs:587-605 | claims the first free bucket whose lock is not busy, if there is one, and touches no other |
| `Executor.Inner.SetFuture` | nea/src/executor.rs:574-585 | is the accept loop's step of the lifecycle on the whole table; wherever the lifecycle's invariant holds it succeeds and keeps it |
| `Executor.Inner.CompleteTask` | nea/src/executor.rs:412-438 | is the completion step of the lifecycle on its bucket, an underflow included, and leaves every other bucket alone |
| `Executor.Inner.FindFree` | nea/src/executor.rs:204-222 | finds the first empty connection whose lock is not busy, if there is one |
| `Executor.Inner.ReserveConnection` | nea/src/executor.rs:204-222 | is the reservation step of the lifecycle on its bucket, and leaves every other bucket alone |
| `Executor.Inner.CleanupBucket` | nea/src/executor.rs:444-471 | is the four cleanup steps of the lifecycle in a row: empties every connection of the bucket, its future, memory and count, and leaves every other bucket unchanged |
| `Allocator.LiveBlocksDisjoint` | shared/src/allocator.rs:87-120 | under any interleaving, blocks handed out since the last clear lie in their area at a multiple of their alignment and never overlap, within and across areas |
| `Allocator.NoEarlyRefusal` | shared/src/allocator.rs:105-114 | a request that fits beside the worst-case cost of what was granted since the last clear is not refused |
| `Allocator.RequestsAreAnswered` | shared/src/allocator.rs:105-119 | in every run a request is answered by a block of its own layout in its own area, or refused because it is larger than what the thread has just found free; one that fits beside the worst-case cost is granted or still retried |
| `Allocator.UndisturbedRequest` | shared/src/allocator.rs:87-120 | a thread that nobody interferes with has its block after one load and one exchange |
| `Allocator.BumpShape` | shared/src/allocator.rs:93-114 | refusal exactly when the request does not fit; otherwise the block is aligned and the counter drops by between size and size + align - 1 |
| `Allocator.CapacityGuarantee` | shared/src/allocator.rs:55-60 | a bucket serves every request sequence whose worst-case total fits in what remains |
| `Allocator.RetriesArePaidFor` | shared/src/allocator.rs:105-114 | under any interleaving, exchanges are lost to other threads at most once per thread for each block handed out and each clear |
| `Allocator.AddressesAligned` | shared/src/allocator.rs:116-119 | addresses of non-empty blocks honour every supported alignment if and only if the area starts on a multiple of 4096 |
| `Allocator.BucketStartsAligned` | shared/src/allocator.rs:62-84 | all buckets start aligned if and only if the bucket size is a multiple of 4096 or there is at most one |
| `Allocator.BucketsApart` | shared/src/allocator.rs:69-77 | buckets carved from one mapping do not overlap and are a state the runs above start from |
| `Allocator.Bucket.TryAlloc` | shared/src/allocator.rs:87-120 | whatever interferes, a grant or refusal is exactly one bump of the counter as last observed; while it retries it changes nothing, and each failed exchange was spurious or found another counter |
| `Allocator.Bucket.Attempt` | shared/src/allocator.rs:105-114 | the closure computes the bump, never above the counter it read |
| `Words.MaskRoundsDown` | shared/src/allocator.rs:96-111 | masking with the complement of align - 1 rounds down by modulus |
| `RocDec.RoundTrip` | benchmarks/roc-nea/roc_std/src/lib.rs:302-443 | parsing the printed text gives back every 128-bit value |
| `RocDec.ParserExact` | benchmarks/roc-nea/roc_std/src/lib.rs:324-378 | a numeral is accepted exactly when its true value fits in 128 bits, and that value is returned |
| `Decimals.DigitsInOrder` | benchmarks/roc-nea/roc_std/src/lib.rs:354-366 | the ten digit characters stand for zero to nine in their order, and no other character is one |
| `RocDec.TenDigitsAreRead` | benchmarks/roc-nea/roc_std/src/lib.rs:302-379 | `1234567890` is read as that number |
| `RocDec.UnderscoresMeanNothing` | benchmarks/roc-nea/roc_std/src/lib.rs:354-358 | a body of digits and underscores is worth what its digits alone are worth |
| `RocDec.LengthInBytes` | benchmarks/roc-nea/roc_std/src/lib.rs:313-316 | the length that decides over a fraction is that of its encoding: one to four bytes a character |
| `RocDec.WordRange` | benchmarks/roc-nea/roc_std/src/lib.rs:354-378 | values are exactly those of a signed 128-bit word |
| `RocDec.ReadingExact` | benchmarks/roc-nea/roc_std/src/lib.rs:302-379 | on every text of the accepted language, in or out of the grammar of numerals, the answer is its meaning in unbounded arithmetic, if integer part and value fit |
| `RocDec.ParserTotal` | benchmarks/roc-nea/roc_std/src/lib.rs:302-379 | for every text: v is answered if and only if the text is in that language, means v, and fits |
| `RocDec.NumeralIffPlain` | benchmarks/roc-nea/roc_std/src/lib.rs:313-352 | an accepted text is a numeral that means the answer if and only if it has no point, or a fraction of 1 to 18 bytes that does not begin with a sign |
| `RocDec.LongFractionIgnored` | benchmarks/roc-nea/roc_std/src/lib.rs:313-316 | a fraction of more than 18 bytes changes nothing |
| `RocDec.SignedFractionAccepted` | benchmarks/roc-nea/roc_std/src/lib.rs:326-337 | `1.-5` parses as 0.95 |
| `RocDec.CanonicalShape` | benchmarks/roc-nea/roc_std/src/lib.rs:286-289 | the printed text fits in 41 bytes and a fraction never ends in a zero |
| `RocDec.CanonicalMeaning` | benchmarks/roc-nea/roc_std/src/lib.rs:399-443 | the printed numeral is well-formed and means the value |
| `RocDec.Parse` | benchmarks/roc-nea/roc_std/src/lib.rs:302-379 | computes the parser function of which the exactness and round-trip lemmas speak |
| `RocDec.AccumulateDigits` | benchmarks/roc-nea/roc_std/src/lib.rs:354-373 | the checked accumulating loop computes the accumulation function that `ParserExact` and `ParserTotal` evaluate |
| `RocDec.Edit` | benchmarks/roc-nea/roc_std/src/lib.rs:414-442 | cutting zeros and shifting in the 41-byte buffer yields the text with its point in place |
| `RocDec.Print` | benchmarks/roc-nea/roc_std/src/lib.rs:399-443 | prints the canonical numeral of every 128-bit value |

## Left out

- Weak memory orderings: atomics take effect one at a time, in one order.
- `setjmp`/`longjmp`, panics and unwinding as control flow: out of memory and panics are outcomes of a poll that lead to cleanup; a panic while polling a connection, which ends the worker thread, is modelled only for a reserved slot.
- Fairness: progress is stated as bounded work and as the existence of a serving continuation, for the queue and for the reactor, not under a fair scheduler.
- `Memory` and `Server` share the lifecycle but are not one system: what a poll allocates does not influence the queue or the reactor.
- In `Server` the steps of an operation after its start are not tied to the worker that polls the task, and a channel's stream is any source of the table: this allows more interleavings than the code has.
- Sockets, file descriptors, mio, hyper, the error response, logging, configuration and the arena dispatch of the global allocator.
- `try_allocate_in_initial_bucket`: the initial arena is one more area of the allocator model.
- The order in which `try_dequeue` and `try_claim` scan under interference promises nothing about fairness between buckets.
- `RocList`, `RocStr`, `RocBox`, `RocDict`, `RocSet`, `RocResult` and the other conversions of `RocDec`: raw memory layout, or easy members.
