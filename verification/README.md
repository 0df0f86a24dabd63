# libdispatch, modelled and proved in Dafny

This project models the parts of libdispatch whose correctness no single function establishes, and
proves what they are for: the lock-free queue protocols, the small blocking protocols, the byte ropes
of dispatch data with their reference counts, the stream operations of dispatch I/O, timer scheduling
and tick counting, and the Base64 and UTF-16 transforms. `dafny verify dfyconfig.toml` checks it.

**Protocols.** `SerialQueue`, `RootQueue`, `ConcurrentQueue`, `Once`, `Futex` and `GroupNotify` are state
machines. A state holds the shared words and one program counter per thread; a step is one atomic access
(or one plain shared read) of one thread, sequentially consistent. A thread identifier stands for one
activation of a library call. `Reached(threads, schedule)` is the state after any schedule of steps of
any finite set of threads, so every theorem about it is a statement about all runs. Each module gives an
inductive invariant (`Inv`), proves that every step keeps it (`StepKeeps`, `RunKeeps`), and derives the
theorems from it. List nodes are named by the order of their tail exchange, which turns "first in, first
out, exactly once" into a statement about a history sequence. What calls achieve is read off the schedule
itself: between the step that begins a call and the step that returns from it, how many items it pushed or
executed, how many units it took or added, and what it had seen when it gave up. `SerialExecution` and
`ConcurrentExecution` do this for the two queues: executions, suspension, order, and falling asleep.

**Ropes.** `Rope.Store` is the heap of data objects. Its validity says that every object is empty, a leaf
or a list of non-empty slices of live leaves (`Flat`), that every stored count is the number of handles
plus the number of records naming the object (`Balanced`), and that buffers are destroyed exactly when
their leaf is freed (`DestroyedOk`). Every operation keeps it, equals its meaning on flat byte sequences,
and leaves all objects that were there before untouched.

**Stream I/O.** `StreamIO.Operation` carries a ghost history of the bytes the system calls moved. Validity
says where each of these bytes is: handed to the handler, gathered, or in the buffer. `Run` takes any
sequence of handler runs, timer ticks and clean-ups, with arbitrary partial transfers, EAGAINs, ends of
file and errors.

**Timers.** `Timers.Manager` keeps the three lists in place; `Book` is the history of one timer since it
was set. `TicksAccounted` covers every alternation of fires and latches on a clock that never runs back.

**Transforms.** `Base64` and `Utf16` compare the loops of the source with definitions taken from section 4
of RFC 4648, section 3 of RFC 3629 and section 2.1 of RFC 2781.

Twelve properties one would expect turned out to be false of the code; each has a concrete witness and the
exact condition under which the code is right:

- a synchronous call on a serial queue can execute before an item that its own thread pushed earlier, if the
  queue is suspended in between (`SerialExecution.Overtakes`, `SerialExecution.SyncOrderExactly`);
- a concurrent queue can be left with work on its list and nobody to wake it, if readers are submitted
  asynchronously and the width is at least 3 (`ConcurrentExecution.FallsAsleep`,
  `ConcurrentExecution.SleepsExactly`);
- a notify block can be registered and submitted while its group is not empty, if a wake is under way that saw
  the group empty before (`GroupNotify.EarlyBlock`, `GroupNotify.HeldExactly`);
- a handler call ahead of the last one can carry an error: a forced one, between an error and the end of the
  operation (`StreamIO.EarlyError`, `StreamIO.HandedTells`, `StreamIO.Operation.Run`);
- a slow barrier-synchronous call on a concurrent queue does not keep out readers that tested for
  suspension before it was handed over (`ConcurrentQueue.Overlap`); these are the only ones, and one
  can slip in exactly if there is a synchronous one, or any and the width is at least 4
  (`ConcurrentQueue.OnlyLateReadersSlipIn`, `ConcurrentQueue.HandOverExactly`);
- a subrange whose offset and length add up past the largest size is wrong (`Rope.WrappedRange`,
  `Rope.ChoiceExact`);
- the size of a concatenation wraps when the sizes add up past the largest size (`Rope.Doubled`,
  `Rope.ConcatSizeExactly`);
- the region object shown to an applier stands for more than the bytes shown when a record covers only
  part of its leaf (`Rope.PartialRegion`, `Rope.RegionOwnerExact`);
- unforced deliveries of a write can come after fewer new bytes than the low-water mark, for every number
  of bytes left in a half-used buffer but zero (`StreamIO.CarriedShort`, `StreamIO.Operation.Run`);
- tick data wrap around after a handler that runs more than INT_MAX intervals late
  (`Timers.LateLatchWraps`, `Timers.TicksAccounted`);
- the length of decoded Base64 wraps around when there is more padding than bytes written
  (`Base64.PaddingOnly`, `Base64.LengthExactly`);
- UTF-16 of an odd number of bytes is accepted, on the strength of a byte outside the data, exactly if it
  ends in a high surrogate and that byte completes a low one (`Utf16.OddReadsBeyond`, `Utf16.OddDecided`).

Two smaller findings: the surrogate test of the conversion to UTF-16 lets U+DFFF through
(`Utf16.SurrogatesRejected`), and the branch that shrinks a read buffer after a failed allocation is never
taken (`StreamIO.NeverShrinks`).

## Model

| member | source | states |
|---|---|---|
| `SerialQueue.MutualExclusion` | src/queue.c:1459-1645 | in every run at most one work item executes at a time over inline drains, fast and slow synchronous calls and lock transfers, and `dq_running` is not zero meanwhile |
| `SerialQueue.FirstInFirstOut` | src/queue_internal.h:159-194 | what has been started is exactly a prefix of the tail-exchange order, with any number of pushers stalled before their link and with drains that put an item back |
| `SerialQueue.NoStrandedWork` | src/queue.c:1893-1964 | whenever work is listed and the queue is neither running nor suspended, some thread is committed to a later wakeup |
| `SerialQueue.NothingLost` | src/queue.c:2107-2220 | when no thread can move, everything pushed has been started, both list ends are NULL, both words are zero and no caller is left waiting |
| `SerialQueue.SpinsEnd` | src/queue.c:2159-2216 | an owner that spins for a link waits for one other thread whose next step releases it, whatever that thread does |
| `SerialQueue.LinksOnlyLiveNodes` | src/queue_internal.h:159-173 | a late link is stored only into a node that has not been started |
| `SerialQueue.WordsAreExact` | src/object.c:234-279 | the running and suspend words hold the value each subtraction expects, so neither underflows, and a client suspension is always visible in the suspend word |
| `SerialQueue.StepKeeps` | src/queue.c:2303-2325 | every step of every thread, the single-item drain of lock transfer included, keeps the invariant that ties words, list, owners and waiters together |
| `SerialQueue.RunKeeps` | src/queue.c:1515-1569 | the invariant holds after every schedule |
| `SerialExecution.ExecutionOrder` | src/queue.c:2144-2220 | what has been executed of the list, by a drain or by the caller that pushed it, is in every run a prefix of the tail-exchange order without repetition, and at most the last item started is still to come |
| `SerialExecution.AllExecuted` | src/queue.c:2107-2220 | when nothing can move, every item pushed has been executed, once and in order |
| `SerialExecution.NoDeadlock` | src/queue.c:1459-1645 | when no thread inside a call can change anything by its next step, and the queue is neither on its target nor suspended, all calls have returned and everything pushed has been executed |
| `SerialExecution.SyncRunsOnce` | src/queue.c:1515-1645 | between its beginning and its return a synchronous call executes exactly one item, through the fast or the slow path |
| `SerialExecution.AsyncPushesOne` | src/queue_internal.h:159-194 | an asynchronous call pushes exactly one item |
| `SerialExecution.TransfersLock` | src/queue.c:1545-1591 | a synchronous call that has executed hands the list over to a synchronous call waiting first in it, unless it finds that there is none or that a client has suspended the queue |
| `SerialExecution.SuspendStops` | src/object.c:234-279 | while suspensions are outstanding, counted over the clients' calls, no more items are executed than threads were past their suspension test when that began |
| `SerialExecution.SyncWaitsForEarlier` | src/queue.c:1628-1645 | in runs without suspension a synchronous call executes after everything that was pushed before it began |
| `SerialExecution.Overtakes` | src/queue.c:2196-2216 | a run in which a suspended drain puts an item back and a later synchronous call of the same thread executes first |
| `SerialExecution.SyncOrderExactly` | src/queue.c:1628-1645 | synchronous calls come after earlier items in every run if and only if nobody suspends the queue |
| `RootQueue.OneOwner` | src/queue.c:2332-2392 | at most one worker holds an item taken from the head, even when a worker that saw NULL removes its mediator late |
| `RootQueue.EachItemOnceInOrder` | src/queue.c:2332-2392 | every item is returned to exactly one worker, in tail-exchange order |
| `RootQueue.NothingLost` | src/queue.c:2370-2391 | when all calls are over, the list is exactly the items not returned, linked from head to tail |
| `RootQueue.NoStrandedWork` | src/queue.c:2066-2090 | whenever items are listed, a worker thread has been asked for, or some thread is bound to take one or to ask |
| `RootQueue.WorkersAskedFor` | src/queue.c:2066-2084 | the pending word is the number of worker threads asked for less those that came |
| `RootQueue.ExecutedOnce` | src/queue.c:2422-2424 | items are executed by the worker that took them, none twice, and what is taken and not executed is in that worker's hands |
| `RootQueue.AllExecuted` | src/queue.c:2332-2424 | when no thread is under way and none is asked for, the list is empty and every item pushed has been executed exactly once |
| `RootQueue.PushAddsOne` | src/queue_internal.h:159-173 | a push adds exactly one item |
| `RootQueue.WorkEnds` | src/queue.c:2338-2368 | a worker leaves only if it got NULL from the head, or got the mediator and then saw it in all its looks |
| `RootQueue.LinksOnlyLiveNodes` | src/queue_internal.h:159-173 | a late link is never stored into an item that has been returned |
| `RootQueue.SpinsEnd` | src/queue.c:2382-2385 | a worker that waits for a link waits for one other thread that is one store away |
| `RootQueue.StepKeeps` | src/queue.c:2332-2392 | every step keeps the invariant about the head, the mediator and the chain of links |
| `ConcurrentQueue.BarriersExclude` | src/queue.c:1515-1645 | two barriers, inline, fast or handed over, never overlap in any run and at any width |
| `ConcurrentQueue.LowBitExcludesReaders` | src/queue.c:2182-2192 | while a barrier runs with the low bit held, no reader executes, holds a share that lets it in, or is under way as a redirected item |
| `ConcurrentQueue.SlowBarrierStopsNewReaders` | src/queue.c:1278-1304 | while a handed-over barrier runs, a reader that makes its suspension test now is sent to the list |
| `ConcurrentQueue.OnlyLateReadersSlipIn` | src/queue.c:1278-1304 | beside a handed-over barrier there are never more readers than were past their suspension test when the queue was suspended for it, every synchronous one was among these, and if there were none nobody is let in |
| `ConcurrentQueue.HandOverExactly` | src/queue.c:1459-1487 | at the step that suspends the queue for a barrier, some continuation of this hand-over has a reader, synchronous or asynchronous, executing beside it if and only if a synchronous one is past its suspension test, or one of either kind is and the width is at least 4 |
| `ConcurrentQueue.StepNarrow` | src/queue.c:1278-1304 | every step keeps asynchronous readers out beside a hand-over on a queue of width below 4 |
| `ConcurrentQueue.StepSlip` | src/queue.c:1685-1758 | every step keeps the readers beside a hand-over within those recorded when it began |
| `ConcurrentQueue.Overlap` | src/queue.c:1744-1758 | a concrete run in which a reader executes during a handed-over barrier |
| `ConcurrentQueue.ReaderExclusionExactly` | src/queue.c:1203-1226 | readers are kept out of a kind of barrier in every run if and only if the kind is not the slow synchronous one |
| `ConcurrentQueue.StepInv` | src/queue.c:1685-1758 | every step keeps the count of shares in the running word exact, back-offs and redirects included |
| `ConcurrentQueue.StepLock` | src/queue.c:2107-2141 | every step keeps the accounting of the suspend word: lock bit, suspensions and hand-overs, also when the hand-over of a single item gives up on a head that is not linked yet |
| `ConcurrentQueue.RunKeeps` | src/queue.c:1105-1119 | the invariants about shares, the suspend word and hand-overs hold after every schedule |
| `ConcurrentExecution.NothingLostInOrder` | src/queue.c:2144-2220 | in every run, what was pushed is, in this order, what was run inline, signalled or redirected, the one item the owner may hold, and what is listed |
| `ConcurrentExecution.CallDoesOne` | src/queue.c:1685-1758 | between beginning and return a synchronous reader or barrier executes exactly one item, and an asynchronous one pushes or redirects exactly one |
| `ConcurrentExecution.TransfersLock` | src/queue.c:1545-1591 | a synchronous barrier that has executed hands the list over to a synchronous barrier waiting first in it, unless it finds that there is none or none linked yet, that a client has suspended the queue, or, if it was handed the list itself, readers beside it |
| `ConcurrentExecution.ReadersRunOnce` | src/queue.c:1203-1226 | readers handed to the target queue are executed as often as they were handed over, less those waiting there or under execution |
| `ConcurrentExecution.SuspendStops` | src/object.c:234-279 | while suspensions are outstanding, no more items are executed than there were threads past their test and readers on the target queue when that began |
| `ConcurrentExecution.WidthLimits` | src/queue.c:1283-1292 | never more asynchronous readers are under way than half the width rounded up, drained and direct ones together |
| `ConcurrentExecution.OvertakesAtMostOne` | src/queue.c:1744-1758 | a call that passes its tail test overtakes at most the one item that the owner of the list has in its hands |
| `ConcurrentExecution.StaysAwake` | src/queue.c:1935-1964 | unless a reader that backs off from a barrier gives back the last share, an idle queue with work has a thread bound for the wakeup, and every waiting caller has its item listed or in the owner's hands |
| `ConcurrentExecution.NothingLeft` | src/queue.c:2107-2220 | in such runs, when no thread can move, everything pushed has been given out and no caller is left waiting |
| `ConcurrentExecution.FallsAsleep` | src/queue.c:1288-1301 | for every width from 3 a run that ends with two items listed, all threads idle and the queue not on its target |
| `ConcurrentExecution.SleepsExactly` | src/queue.c:1278-1304 | an idle queue with work keeps a thread bound for the wakeup in every run if and only if no readers are submitted asynchronously or the width is below 3 |
| `Once.CalledOnce` | src/once.c:54-56 | the calls of the function, counted along the schedule, are at most one, and none before the word is claimed |
| `Once.NoEarlyReturn` | src/once.c:46-135 | a step that leaves a thread outside the call is taken only when the function has been called once |
| `Once.SignalledOnce` | src/once.c:110-119 | the waiters signalled are the last pushed ones in reverse order, and no waiter is pushed or signalled twice |
| `Once.ReadsOnlyLiveNodes` | src/once.c:112-118 | the node the owner reads belongs to a caller that has not been signalled and is still inside its call |
| `Once.NobodyLeftWaiting` | src/once.c:110-134 | when no thread inside a call can change anything by its next step, every waiter pushed has been signalled and every call has returned |
| `Once.SpinsEnd` | src/once.c:113-115 | the owner spins only for a waiter that is one store away |
| `Once.StepKeeps` | src/once.c:46-135 | every step keeps the invariant about the predicate word and the stack of waiter nodes |
| `Futex.NoLostWakeup` | src/semaphore.c:747-823 | while a thread sleeps, every unit of the value is matched by a wake on its way or by a released thread that has not looked again, with barging, timeouts and interrupts |
| `Futex.NobodySleepsOnAUnit` | src/semaphore.c:747-823 | when all threads are idle or asleep, a positive value means nobody sleeps |
| `Futex.HalvesStayApart` | src/semaphore.c:747-790 | the low half is the signals less the waits and stays below its maximum, the high half is the number of waiters, and neither carries into the other |
| `Futex.RunKeeps` | src/semaphore.c:790-823 | the invariant of the packed word holds after every schedule |
| `Futex.WaitEnds` | src/semaphore.c:766-823 | a wait returns with exactly one unit taken, or with none after it was interrupted; only a timed one also when its time was up or its last try found nothing |
| `Futex.SignalEnds` | src/semaphore.c:747-764 | a signal that returns has added exactly one unit |
| `GroupNotify.SubmittedOnce` | src/semaphore.c:362-423 | no registered block is submitted twice and nothing else is submitted, under concurrent wakes |
| `GroupNotify.AllSubmitted` | src/semaphore.c:567-593 | when all calls are over and the group is empty, both list ends are NULL and every registered block has been submitted |
| `GroupNotify.HeldBack` | src/semaphore.c:583-591 | as long as the group is not empty and no earlier wake is under way, no block is submitted |
| `GroupNotify.HeldExactly` | src/semaphore.c:362-408 | in a non-empty group, some continuation that stays non-empty submits a block if and only if a wake is under way that saw the group empty and has a block to submit or leaves another thread to register one |
| `GroupNotify.EarlyBlock` | src/semaphore.c:367-370 | a run in which a block is registered and submitted while the group is not empty |
| `GroupNotify.NotifyRegistersOne` | src/semaphore.c:567-593 | a notify call registers exactly one block |
| `GroupNotify.WaitReturns` | src/semaphore.c:427-565 | a group wait ends at its first look that finds the group empty, or when its time is up |
| `GroupNotify.ValueIsExact` | src/semaphore.c:353-423 | the value tells the enters less the leaves, counted over the clients' calls |
| `GroupNotify.TakenIsSubmitted` | src/semaphore.c:367-407 | what a wake took by its two exchanges is submitted or still lies in the range it walks |
| `GroupNotify.LinksOnlyLiveNodes` | src/semaphore.c:567-593 | a late link is stored only into a node that no wake has passed |
| `GroupNotify.SpinsEnd` | src/semaphore.c:398-403 | a wake that spins for a link waits for one registration that is one store away |
| `GroupNotify.StepKeeps` | src/semaphore.c:353-423 | every step keeps the invariant about the list, the ranges under way and the value |
| `Rope.Store.constructor` | src/data.c:59-76 | the store starts with the global empty object only |
| `Rope.Store.Create` | src/data.c:99-145 | a new leaf for the bytes, the empty object for an empty buffer (destroying it at once unless a copy was asked for), or nothing changed when memory runs out; exactly one handle is gained |
| `Rope.Store.Retain` | src/object.c:72-84 | one more handle for the object, none for the global one |
| `Rope.Store.Release` | src/object.c:86-101 | one handle less; whatever is still held or named stays, what is not is freed, and no composite but this one is |
| `Rope.Store.Dispose` | src/data.c:147-166 | the last release destroys a leaf's buffer once, or drops each leaf a composite names, freeing those that nothing else needs |
| `Rope.Store.ReleaseLeaf` | src/data.c:151-155 | dropping one record's reference keeps the accounts exact and destroys the leaf's buffer exactly when that was the last reference |
| `Rope.Store.Compose` | src/data.c:207-227 | a new composite retains the leaf of each of its records and stands for their concatenation |
| `Rope.Store.Concat` | src/data.c:197-228 | the result stands for the bytes of the one followed by the bytes of the other; nothing else changes but one handle |
| `Rope.ConcatSizeExactly` | src/data.c:207-209 | the size recorded for a concatenation is its length if and only if the two sizes add up within a word |
| `Rope.Doubled` | src/data.c:207-209 | a buffer of 2^40 bytes that is not copied, concatenated with itself 23 times over, is a valid object of 2^23 records whose next doubling would be recorded with size zero |
| `Rope.Store.Subrange` | src/data.c:230-281 | the result stands for the part of the range inside the object, nothing that was there is freed, and only one handle is gained although intermediate objects come and go |
| `Rope.Store.Gather` | src/data.c:252-281 | the walk over the records collects exactly the wanted bytes and never runs past the last record, so the out-of-bounds crash is unreachable |
| `Rope.Store.Extend` | src/data.c:260-271 | one round of subrange, concat and two releases adds one slice and gives back both intermediate references |
| `Rope.Store.Seek` | src/data.c:255-258 | the record found is the one that holds the wanted first byte |
| `Rope.ChoiceExact` | src/data.c:235-242 | the case distinction at the head of subrange picks the documented bytes if and only if offset plus length does not wrap or the range is plainly empty |
| `Rope.WrappedRange` | src/data.c:235-242 | everything from the second byte on, asked for with the largest length, is not what is picked |
| `Rope.Store.Map` | src/data.c:287-342 | a contiguous object and buffer with the same bytes; it fails exactly when a scattered object cannot be copied, changing nothing |
| `Rope.Store.Copy` | src/data.c:317-330 | copying the regions to their offsets fills the buffer with exactly the object's bytes |
| `Rope.Store.Apply` | src/data.c:344-387 | the applier is shown a prefix of the regions, all of them unless it declines the last one shown |
| `Rope.RegionsCover` | src/data.c:345-387 | the regions of an object joined together are its bytes |
| `Rope.RegionPlace` | src/data.c:379-386 | each region is a non-empty part of the bytes at its offset, which is where the region before ends |
| `Rope.RegionOwnerExact` | src/data.c:369-385 | the object shown with a region stands for exactly the bytes shown if and only if the whole is contiguous or the record covers its leaf |
| `Rope.PartialRegion` | src/data.c:374-377 | a store built by create, subrange and concat in which the first region is shown with an object that has one byte more |
| `Rope.Store.CopyRegion` | src/data.c:426-476 | the search ends with an object for the region that holds the location and with that region's offset, or with the empty object beyond the end |
| `Rope.BalancedRelease` | src/data.c:147-166 | a leaf's count drops to nothing exactly when no handle, no record and no pending record names it |
| `Rope.BaseKept` | src/data.c:267-270 | releasing an intermediate object frees nothing that was there before, as long as the old handles are still held |
| `Rope.BytesKept` | src/data.c:147-166 | an object stands for the same bytes as long as it lives |
| `Rope.NothingLeaks` | src/data.c:99-166 | once nobody holds a handle, every object is freed and every leaf's buffer has been destroyed, once |
| `StreamIO.Channel.constructor` | src/io.c:188-198 | the initial marks satisfy low <= high and high >= 1 |
| `StreamIO.Channel.SetHighWater` | src/io.c:546-558 | the marks stay consistent, and low drops to the new mark only when it must |
| `StreamIO.Channel.SetLowWater` | src/io.c:560-572 | the marks stay consistent, and high rises to the new mark only when it must |
| `StreamIO.Operation.constructor` | src/io.c:927-984 | a new operation is valid, with nothing moved or delivered |
| `StreamIO.Operation.DeliverData` | src/io.c:2111-2217 | handler calls are submitted exactly when flags or water marks ask for them, with the gathered piece and with the error of the operation if the delivery is forced, cancellation noticed then included; every byte stays accounted for, the buffer is left with room, and a read keeps less than the low-water mark |
| `StreamIO.HandedTells` | src/io.c:2197-2216 | the calls of a delivery pass on the error of the operation, except those of an unforced one and the data ahead of the end of a failed read; the last call of a read has data exactly without an error, that of a write exactly with one |
| `StreamIO.EarlyError` | src/io.c:2131-2137 | a run in which a call that is not the last carries an error, after a strict timer tick |
| `StreamIO.Operation.Finish` | src/io.c:1779-1812 | each result ends the operation or not as it should, cancellation is noticed at the end, and at the end of the file the data held is handed over ahead of the last call |
| `StreamIO.Operation.TakeWrite` | src/io.c:2154-2176 | what is handed back is exactly the unwritten rest, and a used-up buffer is cut off the head of the data |
| `StreamIO.HandedRead` | src/io.c:2197-2216 | the handler calls of one delivery of a read hand over exactly the gathered piece, at most high bytes, at least low ones when not forced |
| `StreamIO.Operation.DeliverWrite` | src/io.c:2111-2216 | a delivery of a write is made exactly when asked for, hands back the unwritten rest, notes the bytes since the last one and those carried over, and keeps every byte accounted for |
| `StreamIO.Operation.Prepare` | src/io.c:1978-2036 | the buffer made is not empty, fits under the high-water mark with what is held, stays within the request, and for a write holds the head of the data |
| `StreamIO.WriteSize` | src/io.c:2009-2030 | the size of a write is as many whole first regions as fit a chunk and the high-water mark, at least the first one cut at that mark |
| `StreamIO.ReadSize` | src/io.c:1980-1999 | the size of a read is positive, keeps to the high-water mark and does not pass the end of the request |
| `StreamIO.NeverShrinks` | src/io.c:2000-2007 | with pages of at least four bytes the size never reaches the point where it would be cut after a failed allocation |
| `StreamIO.Operation.Perform` | src/io.c:1971-2083 | a system call is never issued with length zero, so a transfer of nothing means end of file; what is offered up to that length is transferred, every byte stays accounted for, and delivery is reported only while bytes are outstanding |
| `StreamIO.Operation.Receive` | src/io.c:2048-2075 | bytes read extend the buffer and the history, in order |
| `StreamIO.Operation.Send` | src/io.c:2054-2075 | bytes written are the next ones of the source |
| `StreamIO.Operation.HandleError` | src/io.c:2085-2109 | an error keeps the operation valid and touches no byte: only the error itself is recorded, and EAGAIN not even that |
| `StreamIO.Operation.Handle` | src/io.c:1748-1819 | one run of the stream handler moves bytes exactly if some are on offer, in order, ends the operation exactly on a fatal error, the end of the file, the full length or a dry convenience read, and leaves it with the right error |
| `StreamIO.Operation.Run` | src/io.c:1748-1819 | over every sequence of events: the operation is over exactly after an event that finishes it, the last call carries the error of the last event that brought one, or ECANCELED if it was found stopped, and every call tells what it should; read deliveries are a prefix of the bytes read and all of them once done, within the water marks, and short of low bytes otherwise; for writes, bytes written and data handed back make up the source at every delivery, and an unforced one comes after at least low new bytes if none were carried over, and never after fewer than low less those carried over |
| `StreamIO.Operation.React` | src/io.c:1748-1819 | one event does to progress, end and error what its kind says, and a strict tick calls the handler once with what is held; for a write, a timer tick and a transfer of part of the buffer end in a delivery exactly when the flag or the low-water mark asks for one, and the bytes since the last delivery and those carried over are counted on |
| `StreamIO.CarriedShort` | src/io.c:2118-2185 | for every low-water mark, every chunk size and every positive number of bytes carried over there is a run of events, from a new operation, with an unforced delivery of a write after fewer than low new bytes |
| `Timers.Manager.Update` | src/source.c:989-1033 | the timer is put where its settings say, other timers keep their places and order, and both armed lists are sorted by non-zero target |
| `Timers.Manager.Seek` | src/source.c:1021-1026 | the place found is after all timers with the same or an earlier target and before all later ones |
| `Timers.RegisterKeeps` | src/source.c:769-813 | registration appends the timer to the wall-clock list and disturbs no other timer, so the update that follows restores the order |
| `Timers.Manager.Unregister` | src/source.c:879-908 | the timer is on no list any more and no other timer moves |
| `Timers.Manager.SetTimer` | src/source.c:1157-1172 | new settings and nothing pending; accounts start afresh and the lists stay in order |
| `Timers.Manager.Rearm` | src/source.c:554-560 | a timer whose handler has run or that was resumed goes back to its list in order |
| `Timers.Manager.FireOne` | src/source.c:1065-1074 | a fire counts the passed intervals, moves the timer to its next target in order and keeps all accounts |
| `Timers.Manager.RunTimers` | src/source.c:1035-1076 | the loop ends, every due timer has fired once with the intervals passed, none due is left on the list, only timers that cannot fire are disarmed, and suspended or pending ones are left alone |
| `Timers.Manager.LatchAndCall` | src/source.c:445-465 | the handler gets the pending data with the intervals since, and all accounts and lists are kept |
| `Timers.Manager.NextFire` | src/source.c:1109-1149 | looking at the heads gives the least wait over all armed timers, and none is reported only if all waits exceed a year |
| `Timers.HeadIsLeast` | src/source.c:1119-1122 | the head of an armed list has the least target |
| `Timers.FireReaches` | src/source.c:1065-1070 | a fire moves the target at most one interval past now, and past now if and only if the count was not cut at INT_MAX |
| `Timers.FireCovers` | src/source.c:1065-1073 | the intervals a fire counts are at least those an earlier latch took in advance, unless cut at INT_MAX |
| `Timers.FireKeeps` | src/source.c:1065-1073 | a fire keeps the accounts of a timer |
| `Timers.LatchKeeps` | src/source.c:1092-1104 | a latch keeps the accounts of a timer |
| `Timers.TicksAccounted` | src/source.c:1065-1104 | over every alternation of fires and latches, no subtraction underflows if and only if latches are prompt, and then delivered plus pending equals fired plus advance |
| `Timers.NothingMissed` | src/source.c:1092-1104 | after a latch, the data handed out are all boundaries passed since the first target, less those the last fire dropped and perhaps one more; nothing is dropped exactly when that fire was not cut at INT_MAX |
| `Timers.LateLatchWraps` | src/source.c:1066-1068 | a concrete run in which a late latch makes the next one hand out a wrapped-around number |
| `Base64.ToBase64` | src/transform.c:834-921 | for every cut of the data into regions the buffer is filled exactly, with the encoding of section 4 of RFC 4648 |
| `Base64.EncodesAlphabet` | src/transform.c:77-78 | the encoding table is the alphabet of section 4 of RFC 4648 |
| `Base64.DecodesAlphabet` | src/transform.c:80-90 | the decoding table gives each character of that alphabet its place, padding -2 and every other byte -1 |
| `Base64.EncodeRegion` | src/transform.c:861-911 | one region extends the output by what its bytes add, looking back into the region before, and the last one adds the padding |
| `Base64.StreamIsEncoding` | src/transform.c:856-911 | characters emitted one byte at a time with one byte of look-back, and the padding, are the group-wise encoding |
| `Base64.SizeExact` | src/transform.c:842-843 | the computed buffer size is four characters per started group |
| `Base64.FromBase64` | src/transform.c:759-832 | decoding fails exactly on a character that is neither blank nor in the table, writes stay within the buffer, and the length reported is that of the bytes without padding if and only if there is no more padding than bytes |
| `Base64.DecodesText` | src/transform.c:779-806 | any accepted text is decoded four values to three bytes, with blanks anywhere in between and whatever the padding |
| `Base64.LengthExactly` | src/transform.c:809-815 | three bytes are written per four characters counted, and the length reported is right, and within what was written, if and only if the padding does not exceed that |
| `Base64.PaddingOnly` | src/transform.c:809-815 | four padding characters are accepted and reported as the largest size |
| `Base64.FeedCounts` | src/transform.c:779-796 | input is accepted if and only if every character is blank, padding or in the alphabet; characters and padding are counted as such |
| `Base64.Shift` | src/transform.c:799-800 | the low bits of the 64-bit accumulator are right whatever has been shifted off its top |
| `Base64.FeedQuad` | src/transform.c:792-806 | the characters of three bytes are decoded to these bytes |
| `Base64.RoundTrip` | src/transform.c:759-832 | decoding the encoding of any bytes and taking off the padding returns these bytes |
| `Base64.EncodeDecode` | src/transform.c:759-921 | the two loops run one after the other give back the data, whatever its regions, with the length reported exact |
| `Utf16.Buffer.New` | src/transform.c:120-154 | making room never loses what was written, changes nothing when there is room, otherwise flushes one region, and succeeds exactly within the cap and when memory lasts |
| `Utf16.ReadSequence` | src/transform.c:233-273 | the loop gathers the payload bits of a sequence |
| `Utf16.ReadsBack` | src/transform.c:218-273 | a UTF-8 sequence is read as its code point, whatever follows |
| `Utf16.ReadsAll` | src/transform.c:314-344 | well-formed UTF-8 is accepted and read as its code points |
| `Utf16.SurrogatesRejected` | src/transform.c:342-344 | of the encoded surrogates all but U+DFFF are rejected |
| `Utf16.Buffer.PutUtf16` | src/transform.c:341-363 | a code point adds its UTF-16 units in the byte order asked for, in a new buffer if need be |
| `Utf16.Buffer.PutUtf8` | src/transform.c:476-503 | a code point adds its UTF-8 sequence, in a new buffer if need be |
| `Utf16.ToUtf16` | src/transform.c:278-378 | the output is one region: a byte order mark and the units of the code points read; within the cap it fails exactly on input that cannot be read |
| `Utf16.Convert16` | src/transform.c:314-366 | the first buffer is large enough for the whole region and is never replaced |
| `Utf16.FromUtf16` | src/transform.c:380-518 | the output, over all flushed regions, is the UTF-8 of the text without one leading byte order mark; within the cap it fails exactly on a reversed mark, a lone surrogate or an odd last byte that does not follow a high surrogate |
| `Utf16.OddDecided` | src/transform.c:415-464 | an odd number of bytes is accepted if and only if the text before ends in a high surrogate and the last byte and the one beyond the region make a low one |
| `Utf16.OddReadsBeyond` | src/transform.c:450-464 | three bytes that are accepted or refused depending on the byte after them |
| `Utf16.ParsesAll` | src/transform.c:447-474 | the units of well-formed text are parsed as its code points |
| `Utf16.TextBack` | src/transform.c:439-445 | what was converted is the same text again, a leading U+FEFF included |
| `Utf16.RoundTrip` | src/transform.c:278-518 | converting well-formed UTF-8 to UTF-16, which gives one region, and back, in either byte order, returns the same bytes whenever the first conversion is within the cap |

## Left out

- kqueue, eventfd, signals, Mach ports, the creation of worker threads and the pthread pool of root queues: system calls without checkable logic. `RootQueue` models the workqueue variant, where one thread at a time is asked for.
- Main-queue and manager-queue drains, changes of target or width at run time, and the reference counts of queues.
- Recursion of a work item into its target queue: executing is one state; what an item calls is a further activation.
- Weak memory ordering: all accesses are sequentially consistent.
- ConcurrentQueue: its list is an atomic sequence, which `SerialQueue` justifies.
- ConcurrentExecution.NothingLeft: is stated for runs in which no reader that backs off gives back the last share; `ConcurrentExecution.SleepsExactly` says when others exist.
- SerialExecution.SyncWaitsForEarlier: is stated for runs without suspension; `SerialExecution.SyncOrderExactly` shows this to be the exact condition.
- GroupNotify: the semaphore that releases group waiters is not modelled: a blocked wait looks again or times out.
- Futex.NoLostWakeup: is stated for fewer than 2^32 threads, the range of the waiter half; the same holds for `Futex.NobodySleepsOnAUnit` and `Futex.HalvesStayApart`.
- The other semaphore implementations (Mach and POSIX), and group waits beyond the steps that can wake the notify list.
- Rope.Store.Concat: requires that the two sizes add up to at most SIZE_MAX; `Rope.ConcatSizeExactly` shows this to be the exact condition.
- Rope.Store.Subrange: requires that offset plus length does not wrap; `Rope.ChoiceExact` shows this to be the exact condition.
- Rope.Store.Create: a copied and an adopted buffer are both byte sequences, so sharing of memory with the caller and the choice of destructor are not captured.
- Data objects are modelled without the movable-buffer option, and their counters change without interleaving.
- StreamIO: one operation on one stream; disk I/O, I/O barriers, the choice between operations, the deferred-delivery flag that only disk operations set, and descriptor and channel lifetimes are not modelled. EINTR retries and failed allocations are repeated until they end.
- StreamIO.Operation.Run: the total is unbounded; the source's wraps only for a request without a length after 2^64 bytes.
- Timers: times are unbounded integers up to the signed range on input, Mach time units equal nanoseconds, leeway is ignored, and a run on the manager queue and a latch are each one step.
- Base64: the tables are given as ranges, and the decoder is modelled for data of one region.
- Utf16.FromUtf16: is modelled for data of one region; the byte beyond a region of odd size is a parameter.
- Utf16.ToUtf16: is modelled for data of one region, so sequences that span regions are not covered.
- Base32, format detection, `dispatch_apply`, time conversion, the continuation cache and queue-specific data: easier than what is here.
