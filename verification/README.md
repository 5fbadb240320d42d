# Step machines for the concurrent algorithms

The repository is a collection of small concurrent algorithms.  This project models the hard ones, each as a step
machine with any number of threads and an arbitrary scheduler, and proves what every run keeps.

Every machine has the same form.

- A `State` value holds the shared variables and, for each thread, its place in the program (`pc`) with its local
  variables.  Histories that only the theorems need (what was enqueued, what was returned) are kept beside them.
- `Next(s, choice)` is one atomic step: a semaphore wait, a lock, a load, a store, a compare-and-exchange, one side of
  a condition wait.  It is total; a choice that is not enabled, such as a wait on a closed semaphore, leaves the state
  as it is.  So every sequence of choices is a schedule, and all statements about runs are statements about all
  sequences.
- A `class` holds the same variables as fields and changes them in place, one statement at a time.  Each of its methods
  is proved to change the fields exactly as `Next` changes the state, and its `Run` method to end in the state of the
  machine's run, for any schedule.  The theorems are then about `Next`.

Calls are followed from end to end.  For each thread, the calls it begins, the effects of its steps on the shared
object and the replies it gets are three sequences, and over every run the second is the first less the call under way,
and the third is the second less the reply under way (`CallsAreServed`, `JobsAreSettled`, `AcquiresAreServed`).

`Runs.dfy` has what is common to all machines: runs, reachability, events counted over a run, and the rules for
bounding them.  `Sums.dfy` counts threads by region of the program.  `Division.dfy` and `Bits.dfy` are the arithmetic of
slots and masks, `CircularBuffer.dfy` the buffer of the two producer/consumer modules.

| module | program |
|---|---|
| `NoStarveMutex` | the two-turnstile mutex |
| `RingBuffer` | the bounded ring of numbered slots, many producers and consumers |
| `TwoLockQueue` | the linked queue with two locks, a dummy node and `free` |
| `BoundedBufferCV` | producer and consumers with two condition variables, and with one |
| `BoundedBufferSem` | producer and consumers with three semaphores |
| `WriterPriority` | the reader/writer lock of two light switches |
| `TurnstileLock` | the reader/writer locks of one light switch, with and without a turnstile |
| `CasStack` | the stack on one compare-and-exchange, whose `pop` deletes its node |
| `Barrier`, `BarrierReuse` | the one-shot barrier; calls of it by threads that are through |
| `Zemaphore` | the semaphore made of a mutex and a condition variable |
| `ThreadPool`, `ThreadPoolCalls` | the worker pool; the order of its calls and what its results say |
| `Philosophers` | the dining philosophers, both orders, any ring |
| `RateLimiter` | the token bucket |

## Assumptions

- Steps interleave sequentially consistently.  The memory orders written in the ring and the stack are not modelled.
- Any waiter may be the one a semaphore post lets through, and any sleeper the one a signal wakes.  Safety theorems
  about condition variables allow spurious wakeups; the termination theorems of `BoundedBufferCV` are about runs
  without them (`Calm`), and say so.
- Where a lock is held, a counter's change and the test of it that follows are one step in `WriterPriority` and
  `TurnstileLock` (`counter++` and `if (counter == 1)`) and for `room1` in `NoStarveMutex`, and so is a load and the
  branch on it in `RingBuffer` and `TwoLockQueue`; a condition variable's unlock and sleep are one step, as they are in
  POSIX.  A change of `room2` in `NoStarveMutex`, which no lock protects, is a load and a store.
- `malloc` and `new` return any non-null address that is not live, freed ones included, with any contents.
- Tickets of the ring are unbounded; payloads of generic type are integers.
- Sizes: the ring needs a power of two of at least 2, the buffers `max >= 1`, the rate limiter an interval above 0 and
  fields within their 32- and 64-bit widths.  The clock reading is an argument.

## What the proofs found

- **The mutex starts wrong.**  Line 30 of `no-starve-mutex.c` opens the second turnstile, where the explanation at
  lines 88-110 needs it closed.  The model takes the initial value as a parameter.  With 0 everything holds.  With
  anything else, from two threads on: two get in together (`ExclusiveIffClosed`, `OpenTurnstileRun`); a lost update of
  `room2` can leave everybody stuck for ever (`NeverStuckIff`, `DeadRun`, `DeadForEver`); and one thread can enter any
  number of times past another that waits (`OvertakingBoundedIff`, `OvertakenForever`).
- **The ring's enqueue never reports a full queue.**  The branches at lines 81-88 of `ring-buffer.cpp` are inside the
  test for `dif == 0`, so a full queue is waited on (`WaitsIffOccupied`), and a producer that loses a race between its
  load of the ticket and its load of the slot loops for ever; which producers do is exact (`CanStillClaimIff`,
  `StaleProducerSpins`, `StaleProducerReachable`).  Safety is not affected.
- **The ring's size check** accepts every even size, not only powers of two (`SizeCheckAcceptsEven`), while the mask is
  right for powers of two only (`MaskIsModIffPow2`).  Exactly the other accepted sizes jam after a few enqueues
  (`JamsIff`); size 6 after two (`SixJams`).
- **The queue's tail pointer may name a freed node** while an enqueuer is between its two writes, and only then; no
  thread follows it (`TailLiveIff`, `DeadTailIsBeingSwung`, `ReachableGood`).
- **One condition variable is one too few** exactly from `2 * max` consumers on (`DeadlockIff`).
- **Without the turnstile a waiting writer starves** exactly as soon as there is another thread, and exactly from three
  threads on without ever having had a chance to move; with it, a writer still before the turnstile can starve
  (`WriterOvertakingIff`, `BlockedOvertakingIff`, `OutsideOvertakingIff`).
- **The stack is safe exactly with a careful allocator** (`SafeIff`): the classic reuse of an address makes head name a
  deleted node.
- **The barrier cannot be used twice** (`SecondUseBlocks`).  A thread that calls again while others are still leaving
  locks them in; exactly from two threads on (`LeftBehindIff`, `CanLeaveIff`).
- **Writers have priority over readers only once the first of them has closed the door**: until then it competes with
  the readers, and among themselves writers are not served in turn (`FirstWriterOvertakingIff`,
  `WritersOvertakingIff`).
- **The pool calls jobs out of order** exactly if there are two workers and there can be a job: jobs are taken in the
  order they were pushed, but two workers may call theirs in either order (`PushOrderIff`, `OvertakenRun`).  A job taken
  before the pool is told to terminate is still called after (`NoLateCallsIff`, `OnlyCarriedJobsAreCalled`).
- **`QueueJob` says true for a job it dropped**: `return -1` in a function returning `bool` is true, and
  `m_block_when_full` is the setting that does not block.  Exactly without it true means queued (`TrueMeansQueuedIff`).
  Queued does not mean called: what is in the queue when the pool stops is dropped (`AcceptedAreCalledIff`,
  `DroppedRun`).
- **The rate limiter's bounds survive its wrap-around** (`GrantsSinceStart`, `GrantsInWindow`), but not its promise: a
  caller is refused exactly when the tokens at hand and those to add come to a multiple of 2 to the 32, so one that
  holds a token can be refused because it waited (`RefusedIff`, `HolderRefused`), and the sum loses tokens at hand
  exactly when it wraps (`RefillLosesIff`).
- **The rate limiter forgets the elapsed part of a period** at each refill.  What that costs is exact
  (`DroppedPartCostsIff`), and so much is granted all the same (`GrantsAtLeast`, `VisitsAtLeast`); a client that asks
  for no more than a period's tokens an interval is never refused (`ModestIsNeverRefused`).

## Model

| member | source | states |
|---|---|---|
| NoStarveMutex.Mutex.constructor | threads-sema/no-starve-mutex.c:27-31 | both rooms empty, mutex and t1 open, t2 as given; the invariant of the protocol holds when t2 starts closed |
| NoStarveMutex.Mutex.AcquireStep | threads-sema/no-starve-mutex.c:38-68 | each statement of acquire changes the fields exactly as the step machine does and keeps the invariant |
| NoStarveMutex.Mutex.ReleaseStep | threads-sema/no-starve-mutex.c:70-75 | each statement of release does the same, opening t1 or t2 according to room2 |
| NoStarveMutex.Mutex.Run | threads-sema/no-starve-mutex.c:38-75 | any schedule of any number of threads, run on the fields, ends in the state of the machine's run |
| NoStarveMutex.ReachableConserved | threads-sema/no-starve-mutex.c:27-75 | in every reachable state and for every initial t2, mutex + threads holding it equals 1, t1 + t2 + threads holding a turn equals 1 + the initial t2, and room1 counts its occupants |
| NoStarveMutex.ReachableInv | threads-sema/no-starve-mutex.c:27-75 | with t2 starting closed, in every reachable state room2 counts its occupants too, a thread that has loaded it still has its value, and the turnstile that is open or about to be opened is the one the counts ask for |
| NoStarveMutex.NextKeepsRoom2 | threads-sema/no-starve-mutex.c:45-75 | with one token in all, or one thread, no increment or decrement of room2 is ever lost, though each is a load and a store |
| NoStarveMutex.ExclusiveIffClosed | threads-sema/no-starve-mutex.c:27-75 | for two or more threads: the critical section and the uses of room1 and room2 exclude each other in every run if and only if t2 starts at 0 |
| NoStarveMutex.OpenTurnstileRun | threads-sema/no-starve-mutex.c:27-31 | with t2 starting above 0, as line 30 has it, two threads are in the critical section together |
| NoStarveMutex.NeverStuckIff | threads-sema/no-starve-mutex.c:27-75 | in every reachable state with a thread inside the protocol some such thread can move, if and only if t2 starts at 0 or there is at most one thread |
| NoStarveMutex.DeadRun | threads-sema/no-starve-mutex.c:38-75 | the run for two or more threads and every initial t2 above 0, as line 30 has it: one store of room2 is lost, and the tokens end up behind the turnstile that nobody can reach |
| NoStarveMutex.DeadForEver | threads-sema/no-starve-mutex.c:38-75 | from there no thread ever gets past the first turnstile, in any run, newcomers included |
| NoStarveMutex.BoundedOvertaking | threads-sema/no-starve-mutex.c:38-75 | with t2 starting closed, from the moment a thread has added itself to room1 until it enters, every other thread enters at most twice, in every run and whatever waiter each post lets through |
| NoStarveMutex.OvertakingBoundedIff | threads-sema/no-starve-mutex.c:27-75 | overtaking is bounded over all runs if and only if t2 starts at 0 or there is at most one thread; so with line 30 as written it is unbounded from two threads on |
| NoStarveMutex.OvertakenForever | threads-sema/no-starve-mutex.c:27-75 | the run, for two or more threads and t2 above 0: for every k, one thread enters exactly k times while another waits in the rooms |
| NoStarveMutex.TwiceAttained | threads-sema/no-starve-mutex.c:38-75 | two is the exact bound: a run in which one thread enters twice while another waits in the rooms |
| NoStarveMutex.AcquiresAreServed | threads-sema/no-starve-mutex.c:38-75 | in every run and for every initial t2 a thread gets in once for each acquire it begins, but for the one it is still at, and leaves once for each time it got in: no acquire gives up |
| NoStarveMutex.QuietIsInitial | threads-sema/no-starve-mutex.c:27-75 | with t2 starting closed, whenever all threads are outside both rooms and all semaphores are as they were at the start |
| Bits.MaskIsModIffPow2 | threads-locks/Locked data structures/ring-buffer.cpp:52-63 | ticket and mask give ticket mod size for all tickets if and only if the size is a power of two |
| Bits.SizeCheckAcceptsEven | threads-locks/Locked data structures/ring-buffer.cpp:34-35 | the assertion under the comment about powers of two holds exactly for the even sizes other than zero |
| Bits.IsPow2Iff | threads-locks/Locked data structures/ring-buffer.cpp:34-35 | the halving test for a power of two, which the statements about sizes use, holds exactly of the powers of two |
| RingBuffer.Ring.constructor | threads-locks/Locked data structures/ring-buffer.cpp:27-43 | every slot starts with its own index as sequence number, both tickets at 0 |
| RingBuffer.Ring.StepEnqueue | threads-locks/Locked data structures/ring-buffer.cpp:50-93 | each shared access of enqueue, with the loop as bracketed, changes slots and tickets as the step machine does and keeps the invariant |
| RingBuffer.Ring.StepDequeue | threads-locks/Locked data structures/ring-buffer.cpp:95-127 | the same for dequeue |
| RingBuffer.Ring.Run | threads-locks/Locked data structures/ring-buffer.cpp:50-127 | any schedule of any number of producers and consumers ends in the state of the machine's run |
| RingBuffer.ReachableGood | threads-locks/Locked data structures/ring-buffer.cpp:27-127 | for every power-of-two size the invariant holds in every reachable state: tickets, slot numbers and data agree, every unfinished ticket has its thread, and taken tickets never come back |
| RingBuffer.NextRefinesFifo | threads-locks/Locked data structures/ring-buffer.cpp:50-127 | the ring refines a FIFO of at most size values: an enqueue takes effect at its successful compare-and-exchange, a dequeue at its own, no other step changes the queue |
| RingBuffer.ReturnsWhatWasEnqueued | threads-locks/Locked data structures/ring-buffer.cpp:104-112 | each ticket is returned at most once, with the value enqueued under it |
| RingBuffer.NoDataConflict | threads-locks/Locked data structures/ring-buffer.cpp:63-110 | no slot's data is written or read by two threads at once |
| RingBuffer.SlotNumberMoves | threads-locks/Locked data structures/ring-buffer.cpp:76-110 | a slot's sequence number only ever moves from t to t + 1, when t is published, and from t + 1 to t + size, when t is released |
| RingBuffer.NextKeepsHeld | threads-locks/Locked data structures/ring-buffer.cpp:73-111 | every step keeps this: a claimed ticket that is not published, or taken and not released, has a thread about to do so |
| RingBuffer.DequeueFailsIffUnpublished | threads-locks/Locked data structures/ring-buffer.cpp:97-118 | of all steps of a dequeue, exactly one kind makes it return false: the load of seq under a ticket that is still the tail and is unpublished, so the queue is empty or its first producer has not finished; a lost compare-and-exchange goes round again |
| RingBuffer.LeavesDequeue | threads-locks/Locked data structures/ring-buffer.cpp:97-127 | a dequeue ends only by returning, for one more ticket, the value enqueued under it, or with the tail's ticket unpublished at that very step |
| RingBuffer.LeavesEnqueue | threads-locks/Locked data structures/ring-buffer.cpp:50-93 | an enqueue ends only with its own value published in the slot of a ticket it has claimed |
| RingBuffer.CallsAreServed | threads-locks/Locked data structures/ring-buffer.cpp:50-127 | in every run the calls of each thread take effect in the order they were made, each once, an enqueue with the value it was called with, and the replies tell those effects in that order; at most one call waits for its effect and at most one effect for its reply |
| RingBuffer.EffectIsFifo | threads-locks/Locked data structures/ring-buffer.cpp:50-127 | those effects, over all threads, are the only changes of the FIFO: an enqueue appends its value, a dequeue takes the first, a failing one changes nothing |
| RingBuffer.WaitsIffOccupied | threads-locks/Locked data structures/ring-buffer.cpp:58-90 | a producer that looks for the current ticket goes round the loop without effect exactly while the ring is full or a consumer has yet to release the slot: a full queue is waited on |
| RingBuffer.FailsThoughPublished | threads-locks/Locked data structures/ring-buffer.cpp:97-118 | a run in which dequeue is about to return false although ticket 1 is published, because ticket 0 is claimed and not yet written |
| RingBuffer.CanStillClaimIff | threads-locks/Locked data structures/ring-buffer.cpp:58-90 | some run takes a producer on to its compare-and-exchange under its ticket if and only if the slot's number is the ticket, or is below it and some other thread is not itself a producer looking for a ticket; otherwise it loops for ever |
| RingBuffer.StaleProducerSpins | threads-locks/Locked data structures/ring-buffer.cpp:58-90 | a producer whose ticket has been published by another can never see dif equal to 0 again, in any run |
| RingBuffer.StaleProducerReachable | threads-locks/Locked data structures/ring-buffer.cpp:56-90 | two threads and a ring with room are enough to leave a producer in that state |
| RingBuffer.JamsIff | threads-locks/Locked data structures/ring-buffer.cpp:34-93 | of the sizes the assertion accepts, exactly those that are no powers of two jam: some number of enqueues below the size is reached by a run and exceeded by none, however many values are dequeued |
| RingBuffer.JamsAfter | threads-locks/Locked data structures/ring-buffer.cpp:52-93 | that number is the first ticket the mask takes to slot 0 |
| RingBuffer.SixJams | threads-locks/Locked data structures/ring-buffer.cpp:34-93 | a ring of size 6 takes two values in its whole life |
| Bits.FirstLostTicket | threads-locks/Locked data structures/ring-buffer.cpp:34-63 | such a ticket exists for every even size that is no power of two, and all tickets before it keep their own slots |
| TwoLockQueue.LinkedQueue.constructor | threads-locks/locked data structures/queue.cpp:26-32 | head and tail name one dummy node without successor |
| TwoLockQueue.LinkedQueue.StepEnqueue | threads-locks/locked data structures/queue.cpp:34-44 | each statement of enqueue follows only live memory and changes the heap and the queue as the step machine does |
| TwoLockQueue.LinkedQueue.StepDequeueRead | threads-locks/locked data structures/queue.cpp:49-56 | the same for dequeue up to its read of the value |
| TwoLockQueue.LinkedQueue.StepDequeueUnlink | threads-locks/locked data structures/queue.cpp:53-60 | the same from there on, with the node it frees live until then |
| TwoLockQueue.LinkedQueue.Run | threads-locks/locked data structures/queue.cpp:34-61 | any schedule and any allocator that returns non-live addresses ends in the state of the machine's run |
| TwoLockQueue.ReachableGood | threads-locks/locked data structures/queue.cpp:26-61 | in every run no thread follows or frees an address that is not live, and every live node is in the list or owned by one thread |
| TwoLockQueue.NextRefinesFifo | threads-locks/locked data structures/queue.cpp:34-61 | the queue refines a FIFO: an enqueue takes effect at its write of next, a dequeue at its read of next, where it reports empty exactly if the FIFO is empty; no other step changes it |
| TwoLockQueue.ReturnsInOrder | threads-locks/locked data structures/queue.cpp:48-60 | the k-th successful dequeue returns the k-th value enqueued |
| TwoLockQueue.CallsAreServed | threads-locks/locked data structures/queue.cpp:34-61 | in every run the calls of each thread take effect in the order they were made, each once, an enqueue with the value it was called with, and the replies tell those effects in that order; at most one call waits for its effect and at most one effect for its reply |
| TwoLockQueue.EffectIsFifo | threads-locks/locked data structures/queue.cpp:34-61 | those effects, over all threads, are the only changes of the FIFO: an enqueue appends its value, a dequeue takes the first or finds the queue empty |
| TwoLockQueue.QuietMemoryIsTheList | threads-locks/locked data structures/queue.cpp:34-61 | when no operation is under way the live nodes are exactly those of the list and both locks are free: no leak |
| TwoLockQueue.NeverStuck | threads-locks/locked data structures/queue.cpp:34-61 | while a thread is inside an operation, some thread inside can move |
| TwoLockQueue.TailMayDangle | threads-locks/locked data structures/queue.cpp:40-59 | a run of two threads in which tail names a freed node, without any fault: the tail may lag behind the head |
| TwoLockQueue.TailLiveIff | threads-locks/locked data structures/queue.cpp:34-61 | tail names live memory in every run if and only if there is at most one thread |
| TwoLockQueue.DeadTailIsBeingSwung | threads-locks/locked data structures/queue.cpp:40-43 | whenever tail names a freed node, the thread that holds the tail lock is between its two writes and is about to move it to a live one |
| CircularBuffer.FillKeepsWindow | threads-cv/pc.c:26-30 | putting the next item into a buffer that is not full extends the window of items put and not yet got |
| CircularBuffer.GetKeepsWindow | threads-cv/pc.c:32-37 | getting returns the first item of the window and shortens it |
| BoundedBufferCV.Program.Fill | threads-cv/pc.c:26-30 | do_fill on the array is the buffer's put, and counts one more |
| BoundedBufferCV.Program.Get | threads-cv/pc.c:32-37 | do_get on the array returns the slot at use_ptr, moves it on, and counts one less |
| BoundedBufferCV.Program.Signal | threads-cv/pc.c:46-46 | a signal removes one sleeper of its wait set, any one, and is lost if there is none |
| BoundedBufferCV.Program.ProducerNext | threads-cv/pc.c:39-62 | each statement of the producer's two loops changes the globals as the step machine does |
| BoundedBufferCV.Program.ConsumerNext | threads-cv/pc.c:64-77 | the same for a consumer |
| BoundedBufferCV.Program.Run | threads-cv/pc.c:39-77 | any schedule, with any spurious wakeups, ends in the state of the machine's run |
| BoundedBufferCV.ReachableGood | threads-cv/pc.c:26-77 | in every reachable state of either program, spurious wakeups included, the buffer is the window, num_full counts it, and sleepers are covered by threads on their way to wake them |
| BoundedBufferCV.DeadlockIff | threads-cv/pc_single_cv.c:38-76 | for every max, loops and consumers, a run can end with every unfinished thread asleep if and only if there is one condition variable and consumers is at least 2 * max; spurious wakeups add no deadlock |
| BoundedBufferCV.DeadlockRun | threads-cv/pc_single_cv.c:38-76 | that run, without spurious wakeups, for every max and loops and every number of consumers from 2 * max on |
| BoundedBufferCV.CoveredNeverDeadlocks | threads-cv/pc.c:39-77 | with two condition variables, or fewer consumers, all threads asleep or finished means all finished |
| BoundedBufferCV.CalmRunsAreBounded | threads-cv/pc.c:39-77 | without spurious wakeups every schedule changes the state at most 16 * (loops + consumers) + 3 * consumers + 3 times |
| BoundedBufferCV.CalmRunsFinish | threads-cv/pc.c:39-77 | such a run that can go no further has every thread finished and every item got |
| BoundedBufferCV.GetsInOrder | threads-cv/pc.c:32-37 | the k-th do_get, over all consumers, returns the k-th item put: 0 to loops - 1 and then the end markers; no other step gets |
| BoundedBufferCV.OneEndEach | threads-cv/pc.c:64-77 | in every run without spurious wakeups that goes as far as it can, each consumer gets exactly one -1 |
| CircularBuffer.NextSlot | threads-sema/producer_consumer_works.c:31-44 | moving an index on with a reset at max is the same as taking it modulo max, and names the slot of the next item |
| BoundedBufferSem.Program.PutItem | threads-sema/producer_consumer_works.c:31-36 | do_fill on the array is the buffer's put |
| BoundedBufferSem.Program.GetItem | threads-sema/producer_consumer_works.c:38-44 | do_get on the array is the buffer's get, and returns the first item |
| BoundedBufferSem.Program.ProducerNext | threads-sema/producer_consumer_works.c:46-66 | each statement of the producer changes the globals as the step machine does |
| BoundedBufferSem.Program.ConsumerNext | threads-sema/producer_consumer_works.c:68-79 | the same for a consumer |
| BoundedBufferSem.Program.Run | threads-sema/producer_consumer_works.c:46-79 | any schedule ends in the state of the machine's run |
| BoundedBufferSem.SlotsAndOrder | threads-sema/producer_consumer_works.c:46-79 | in every reachable state empty + full + the threads between their wait and their post equals max, the buffer is the window, and the values got are 0, 1, 2, ... and then -1, in order |
| BoundedBufferSem.RunsAreBounded | threads-sema/producer_consumer_works.c:46-79 | every schedule changes the state a bounded number of times |
| BoundedBufferSem.RunsFinish | threads-sema/producer_consumer_works.c:46-79 | a run that can go no further has all threads finished; the values got are exactly 0 to loops - 1 and one -1 for each consumer |
| WriterPriority.Lock.StepReader | threads-sema/rwlock-writer-priority.cpp:91-99 | each statement of the reader's side, light switch included, changes the fields as the step machine does |
| WriterPriority.Lock.StepWriter | threads-sema/rwlock-writer-priority.cpp:110-118 | the same for the writer's side |
| WriterPriority.Lock.Run | threads-sema/rwlock-writer-priority.cpp:91-118 | any schedule of any number of threads, each reading or writing any number of times, ends in the state of the machine's run |
| WriterPriority.Exclusion | threads-sema/rwlock-writer-priority.cpp:91-118 | in every reachable state a writer inside excludes every other writer and every reader |
| WriterPriority.WaitInsideSwitchNeverBlocks | threads-sema/rwlock-writer-priority.cpp:53-60 | a reader that waits on noWriters inside the light switch always finds it open |
| WriterPriority.WritersKeepReadersOut | threads-sema/rwlock-writer-priority.cpp:110-118 | from the moment the writer switch has taken noReaders until its counter is 0 again no reader gets the lock, in any run |
| WriterPriority.CallsAreServed | threads-sema/rwlock-writer-priority.cpp:91-118 | in every run each thread gets the lock once for each of its calls, in the order of the calls and in the role it asked for, and releases it once for each time; no call gives up |
| WriterPriority.QuietIsInitial | threads-sema/rwlock-writer-priority.cpp:91-118 | whenever all threads are outside, both semaphores and both switches are as they were at the start |
| WriterPriority.AllReadRun | threads-sema/rwlock-writer-priority.cpp:91-99 | readers share: for every number of threads a run in which all read at once |
| WriterPriority.FirstWriterOvertakingIff | threads-sema/rwlock-writer-priority.cpp:91-118 | how often one thread gets the lock while a writer waits for noReaders is bounded over all runs if and only if there is at most one thread: the first writer competes with the readers |
| WriterPriority.WritersOvertakingIff | threads-sema/rwlock-writer-priority.cpp:110-118 | the same of a writer that waits for noWriters: other writers can go past it without bound |
| WriterPriority.NeverStuck | threads-sema/rwlock-writer-priority.cpp:91-118 | while a thread is inside the protocol, some thread inside can move |
| TurnstileLock.Lock.Advance | threads-sema/rwlock-1writerprogress.cpp:77-105 | each statement of the four functions changes the fields as the step machine does, with or without the turnstile |
| TurnstileLock.Lock.Run | threads-sema/rwlock-1writerprogress.cpp:77-105 | any schedule ends in the state of the machine's run |
| TurnstileLock.Exclusion | threads-sema/rwlock-1writerprogress.cpp:77-105 | readers exclude writers and writers each other, in both locks |
| TurnstileLock.NeverStuck | threads-sema/rwlock-1writerprogress.cpp:77-105 | while a thread is inside the protocol, some thread inside can move, in both locks |
| TurnstileLock.ReadersOvertakeOnce | threads-sema/rwlock-1writerprogress.cpp:97-100 | while a writer past the turnstile waits, every other thread enters at most once, and only as a reader that was past the turnstile before |
| TurnstileLock.NextWriterIn | threads-sema/rwlock-1writerprogress.cpp:97-100 | while a writer past the turnstile waits, no other writer enters |
| TurnstileLock.CallsAreServed | threads-sema/rwlock-1writerprogress.cpp:77-105 | in every run each thread gets the lock once for each of its calls, in the order of the calls and in the role it asked for, and releases it once for each time; no call gives up, in either lock |
| TurnstileLock.QuietIsInitial | threads-sema/rwlock-1writerprogress.cpp:77-105 | whenever all threads are outside, the semaphores and the counter are as they were at the start |
| TurnstileLock.AllReadRun | threads-sema/rwlock-1writerprogress.cpp:77-92 | readers share: for every number of threads a run in which all read at once |
| TurnstileLock.WriterOvertakingIff | threads-sema/rwlock_writer_starvation.cpp:83-97 | how often one thread enters while a writer waits for roomEmpty is bounded in every run if and only if there is a turnstile or at most one thread |
| TurnstileLock.BlockedOvertakingIff | threads-sema/rwlock_writer_starvation.cpp:83-97 | even counting only runs in which roomEmpty is taken all the time, so that the writer could never have moved: bounded if and only if there is a turnstile or at most two threads; otherwise readers take turns for ever |
| TurnstileLock.OutsideOvertakingIff | threads-sema/rwlock-1writerprogress.cpp:77-100 | a writer that has not passed the turnstile is overtaken without bound as soon as there is a second thread |
| CasStack.Stack.StepPush | threads-locks/atomic-tutorial/compare-and-exchange.cpp:29-39 | each shared access of push, with a compare-and-exchange that may fail for no reason, changes heap and head as the step machine does and touches only live memory |
| CasStack.Stack.Load | threads-locks/atomic-tutorial/compare-and-exchange.cpp:45-45 | got is what head holds; a null decides that the pop finds the stack empty |
| CasStack.Stack.StepPop | threads-locks/atomic-tutorial/compare-and-exchange.cpp:41-53 | the same for pop up to its compare-and-exchange |
| CasStack.Stack.StepReturn | threads-locks/atomic-tutorial/compare-and-exchange.cpp:55-57 | the same for the rest of pop; the node it reads the data of and deletes is live |
| CasStack.Stack.Run | threads-locks/atomic-tutorial/compare-and-exchange.cpp:29-58 | any schedule and any allocator that keeps to the discipline ends in the state of the machine's run |
| CasStack.Linearisable | threads-locks/atomic-tutorial/compare-and-exchange.cpp:29-58 | in every run in which new returns no address an unfinished pop holds in got, the operations take effect as on a sequential stack, memory holds exactly that stack, every pop returns what it took, and no deleted data is read and nothing is deleted twice, though got->next may read anything from a deleted node |
| CasStack.TakesEffectOnce | threads-locks/atomic-tutorial/compare-and-exchange.cpp:29-58 | where: a push at its successful exchange, a pop at its own, with the top of the stack, or at the load that finds null, with the stack empty; every other step leaves the history alone |
| CasStack.CallsAreServed | threads-locks/atomic-tutorial/compare-and-exchange.cpp:29-58 | in every such run the calls of each thread enter the history in the order they were made, each once, a push with the value it was called with however often its exchange fails, and the replies tell what the operations did in that order |
| CasStack.StaleExchangeFails | threads-locks/atomic-tutorial/compare-and-exchange.cpp:48-53 | the exchange of a got that has left the stack fails, whatever was read through it |
| CasStack.QuietMemoryIsTheStack | threads-locks/atomic-tutorial/compare-and-exchange.cpp:29-58 | when no operation is under way the live nodes are exactly those of the stack: every node popped has been deleted |
| CasStack.ReachableGood | threads-locks/atomic-tutorial/compare-and-exchange.cpp:29-58 | in every such run no node is lost and the pops in progress are distinct ones that have not returned before |
| CasStack.ReuseDangles | threads-locks/atomic-tutorial/compare-and-exchange.cpp:45-56 | with an allocator that reuses an address at once, a run of two threads after which head names a deleted node |
| CasStack.SafeIff | threads-locks/atomic-tutorial/compare-and-exchange.cpp:29-58 | head names live memory in every run if and only if new avoids the addresses held in got, or there is at most one thread |
| Barrier.BarrierT.constructor | threads-sema/barrier.c:28-35 | count 0, thread_count n, sem1 open, sem2 closed |
| Barrier.BarrierT.Advance | threads-sema/barrier.c:37-61 | each statement of barrier changes the fields as the step machine does |
| Barrier.BarrierT.Run | threads-sema/barrier.c:37-61 | any schedule ends in the state of the machine's run |
| Barrier.NobodyLeavesEarly | threads-sema/barrier.c:37-61 | no thread is past its wait on sem2, let alone out, before all n have incremented count |
| Barrier.SecondTestSucceeds | threads-sema/barrier.c:52-60 | every thread at the second if finds thread_count equal to count, so none leaves with sem1 |
| Barrier.RunsAreBounded | threads-sema/barrier.c:37-61 | every schedule changes the state at most eleven times for each thread |
| Barrier.RunsFinish | threads-sema/barrier.c:37-61 | a run that can go no further has every thread through, count and thread_count 0, sem1 and sem2 1 |
| Barrier.SecondUseBlocks | threads-sema/barrier.c:37-61 | in every run of a second use at most one thread gets past its first wait, and it keeps sem1; when nobody can move one is through and the others wait for ever |
| BarrierReuse.EntersAgainOnce | threads-sema/barrier.c:37-61 | when threads that are through call again while others are not, at most one repeated call gets past its first wait in any run, and from then on sem1 stays closed |
| BarrierReuse.CanLeaveIff | threads-sema/barrier.c:37-61 | a thread in its first call can still get through if and only if no repeated call has got past its first wait, or it has given sem1 back already |
| BarrierReuse.LeftBehindRun | threads-sema/barrier.c:37-61 | for two or more threads, the run: the first thread out calls again and takes sem1 while another is at its wait on sem2 |
| BarrierReuse.LeftBehindIff | threads-sema/barrier.c:37-61 | repeated calls can leave a thread of the first use waiting for ever if and only if there are two threads or more |
| Zemaphore.Zem.constructor | threads-sema/zemaphore.h:10-14 | the value as given, which may be negative, and the lock free |
| Zemaphore.Zem.StepWait | threads-sema/zemaphore.h:16-22 | each statement of Zem_wait changes the fields as the step machine does |
| Zemaphore.Zem.StepPost | threads-sema/zemaphore.h:24-29 | the same for Zem_post, whose signal wakes any one sleeper |
| Zemaphore.Zem.Run | threads-sema/zemaphore.h:16-29 | any schedule, with any spurious wakeups, ends in the state of the machine's run |
| Zemaphore.Counts | threads-sema/zemaphore.h:10-29 | in every reachable state the value is the start plus the posts minus the completed waits, and is not negative if the start was not |
| Zemaphore.NextRefinesSemaphore | threads-sema/zemaphore.h:16-29 | a wait completes by taking one from a positive value, a post adds one, and no other step changes the value |
| Zemaphore.ReturnsAreTakes | threads-sema/zemaphore.h:16-29 | in every run the waits that have returned, and those past their decrement, are the units taken, and the same for posts; so no more waits return than the start and the posts allow |
| Zemaphore.CallsAreServed | threads-sema/zemaphore.h:16-29 | in every run each thread's waits and posts change the value in the order they were called, each once, and return in that order; no call returns without its effect |
| Zemaphore.NoLostWakeup | threads-sema/zemaphore.h:16-29 | while anybody sleeps, the value is at most the waiters that are awake past their first lock plus the posts still to signal |
| Zemaphore.QuietSleepersAreDue | threads-sema/zemaphore.h:16-29 | when nobody is awake inside, a sleeper means that the start and all the posts have been taken |
| Zemaphore.NeverStuck | threads-sema/zemaphore.h:16-29 | while a thread is awake inside, some such thread can move, without a spurious wakeup |
| ThreadPool.Pool.constructor | threads-locks/thread-pool/thread-pool.cpp:10-22 | an empty queue, the workers at the head of their loop, nobody told to terminate |
| ThreadPool.Pool.StepLoopWait | threads-locks/thread-pool/thread-pool.cpp:27-39 | each statement of a worker up to its test of termination changes the fields as the step machine does |
| ThreadPool.Pool.StepLoopTake | threads-locks/thread-pool/thread-pool.cpp:40-42 | the same for taking a job and notifying; the queue it takes from is not empty |
| ThreadPool.Pool.StepLoopRun | threads-locks/thread-pool/thread-pool.cpp:43-48 | the same for unlocking and calling the job |
| ThreadPool.Pool.StepQueueWait | threads-locks/thread-pool/thread-pool.cpp:52-65 | the same for a submitter up to the wait |
| ThreadPool.Pool.StepQueuePush | threads-locks/thread-pool/thread-pool.cpp:59-76 | the same from there on, with each of the three returns |
| ThreadPool.Pool.StepStop | threads-locks/thread-pool/thread-pool.cpp:88-100 | the same for Stop |
| ThreadPool.Pool.NotifyAll | threads-locks/thread-pool/thread-pool.cpp:93-94 | notify_all wakes every sleeper of its condition variable |
| ThreadPool.Pool.Run | threads-locks/thread-pool/thread-pool.cpp:25-100 | any schedule of any workers, submitters and stoppers, with any spurious wakeups, ends in the state of the machine's run |
| ThreadPool.JobsInOrderOnce | threads-locks/thread-pool/thread-pool.cpp:25-77 | in every reachable state the queue is within its bound and holds the jobs pushed and not taken in order; a job about to be called is the k-th pushed for its k, belongs to one worker, and was not called before |
| ThreadPool.TakesOldest | threads-locks/thread-pool/thread-pool.cpp:36-42 | the queue shrinks only by a worker taking its oldest job, before termination |
| ThreadPool.NoJobStranded | threads-locks/thread-pool/thread-pool.cpp:30-77 | before termination, while a worker sleeps, the queue is no longer than the workers on their way to it plus the submitters still to notify |
| ThreadPool.NoSubmitterStranded | threads-locks/thread-pool/thread-pool.cpp:30-77 | while a submitter sleeps, the free places are no more than the submitters on their way to them plus the workers still to notify; with m_block_when_full nobody ever sleeps there |
| ThreadPool.SleepersAreDue | threads-locks/thread-pool/thread-pool.cpp:25-77 | when nothing is under way, a sleeping worker means an empty queue and a sleeping submitter a full one |
| ThreadPool.NothingInRunAfterTerminate | threads-locks/thread-pool/thread-pool.cpp:36-70 | once m_should_terminate is set no job is taken and none is pushed, in any run |
| ThreadPool.NobodySleepsAfterStop | threads-locks/thread-pool/thread-pool.cpp:88-98 | from the moment Stop joins, no worker and no submitter sleeps |
| ThreadPool.WorkersLeaveSoon | threads-locks/thread-pool/thread-pool.cpp:25-49 | once m_should_terminate is set each worker makes at most nine more steps in any run, whatever wakes it and whatever is called |
| ThreadPool.NeverStuck | threads-locks/thread-pool/thread-pool.cpp:25-100 | while a thread is awake inside the pool or joining it, some thread can move, without a spurious wakeup |
| ThreadPoolCalls.PushOrderIff | threads-locks/thread-pool/thread-pool.cpp:36-48 | in every run the i-th job called is the i-th job pushed if and only if there is at most one worker, or no job can ever be queued |
| ThreadPoolCalls.OvertakenRun | threads-locks/thread-pool/thread-pool.cpp:36-48 | the run of two workers that calls job 1 before job 0 |
| ThreadPoolCalls.OnlyCarriedJobsAreCalled | threads-locks/thread-pool/thread-pool.cpp:36-48 | once m_should_terminate is set a worker calls no job but the one it has already taken, and that at most once, in every run |
| ThreadPoolCalls.NoLateCallsIff | threads-locks/thread-pool/thread-pool.cpp:36-48 | no job is called at all after m_should_terminate is set, in every run, if and only if there is no worker or no job can ever be queued |
| ThreadPoolCalls.LateCallRun | threads-locks/thread-pool/thread-pool.cpp:36-48 | the run in which a job taken before is called after |
| ThreadPoolCalls.TrueMeansQueuedIff | threads-locks/thread-pool/thread-pool.cpp:52-77 | in every run, every caller whose calls have returned got true exactly as often as it pushed a job, if and only if m_block_when_full is off or there are no callers |
| ThreadPoolCalls.FullRun | threads-locks/thread-pool/thread-pool.cpp:52-77 | for every bound a full queue is reachable, with a caller outside |
| ThreadPoolCalls.FullQueueSaysTrue | threads-locks/thread-pool/thread-pool.cpp:56-60 | with m_block_when_full a call that finds the queue full returns true and pushes nothing |
| ThreadPoolCalls.JobsAreSettled | threads-locks/thread-pool/thread-pool.cpp:52-77 | in every run each caller's jobs are settled in the order submitted, each once: pushed as submitted, or dropped because the queue is full with m_block_when_full, or because the pool was told to terminate; the results tell that in the same order, true for the first two and false for the third |
| ThreadPoolCalls.NothingAfterStop | threads-locks/thread-pool/thread-pool.cpp:88-100 | once Stop has returned every worker has left, and in no run is a job taken or called any more |
| ThreadPoolCalls.AllCalledIff | threads-locks/thread-pool/thread-pool.cpp:25-100 | whenever the pool is at rest, every job pushed has been called if and only if the queue is empty |
| ThreadPoolCalls.AcceptedAreCalledIff | threads-locks/thread-pool/thread-pool.cpp:25-100 | every job pushed has been called in every state at rest, over all runs, if and only if there is a worker and nobody calls Stop, or no job can ever be queued |
| ThreadPoolCalls.UnservedRun | threads-locks/thread-pool/thread-pool.cpp:52-77 | the run of a pool without workers that rests with a job in the queue |
| ThreadPoolCalls.DroppedRun | threads-locks/thread-pool/thread-pool.cpp:36-100 | the run in which a job is pushed, the pool is stopped and joined, and the job is never called |
| Philosophers.Table.constructor | threads-sema/dining_philosophers_no_deadlock.c:73-75 | every fork on the table, everybody at the head of the loop |
| Philosophers.Table.SemWait | threads-sema/dining_philosophers_no_deadlock.c:31-35 | a semaphore is decremented if positive |
| Philosophers.Table.GetForks | threads-sema/dining_philosophers_no_deadlock.c:29-37 | each wait of get_forks, in either order of the forks, changes the table as the step machine does |
| Philosophers.Table.PutForks | threads-sema/dining_philosophers_no_deadlock.c:39-42 | the same for put_forks, after the meal |
| Philosophers.Table.Run | threads-sema/dining_philosophers_no_deadlock.c:52-64 | any schedule ends in the state of the machine's run |
| Philosophers.NeighboursExclude | threads-sema/dining_philosophers_no_deadlock.c:52-64 | neighbours never eat at the same time, in either order, for every ring of two or more |
| Philosophers.RunsAreBounded | threads-sema/dining_philosophers_no_deadlock.c:52-64 | every schedule changes the state at most 4 * num_loops + 1 times for each philosopher |
| Philosophers.ReversedFinishes | threads-sema/dining_philosophers_no_deadlock.c:29-64 | with the last one reversed a run that can go no further has everybody finished after exactly num_loops meals and all forks on the table |
| Philosophers.DeadlockIsTheCircle | threads-sema/dining_philosophers_deadlock.c:29-59 | a reachable state is stuck before the end if and only if everybody holds the left fork and waits for the right |
| Philosophers.DeadlockIff | threads-sema/dining_philosophers_deadlock.c:29-59 | some run deadlocks if and only if nobody is reversed and num_loops is at least 1, for every ring of two or more |
| Philosophers.FiveAtTable | threads-sema/dining_philosophers_deadlock.c:19-64 | the two programs as written, with five |
| RateLimiter.Limiter.constructor | threads-locks/other-problems/IK- problems/RateLimiter/RateLimiter.hpp:9-18 | a full bucket, updated at the time of construction |
| RateLimiter.Limiter.RefillTokens | threads-locks/other-problems/IK- problems/RateLimiter/RateLimiter.cpp:8-17 | the fields change as the bucket's refill does, in 32- and 64-bit wrap-around arithmetic, and stay within capacity |
| RateLimiter.Limiter.RateLimit | threads-locks/other-problems/IK- problems/RateLimiter/RateLimiter.cpp:19-31 | a call refills, takes a token if there is one, and says so |
| RateLimiter.CountGrants | threads-locks/other-problems/IK- problems/RateLimiter/RateLimiter.cpp:19-31 | a client that counts its grants over any sequence of calls counts exactly the number bounded below |
| RateLimiter.GrantsSinceStart | threads-locks/other-problems/IK- problems/RateLimiter/RateLimiter.cpp:8-31 | for every clock that does not go back, the grants up to t are at most capacity + tokensPerPeriod * floor((t - t0) / interval), wrap-around included |
| RateLimiter.GrantsInWindow | threads-locks/other-problems/IK- problems/RateLimiter/RateLimiter.cpp:8-31 | after a call at s the grants up to t are at most capacity + tokensPerPeriod * (floor((t - s) / interval) + 1), wrap-around included |
| RateLimiter.RefusedIff | threads-locks/other-problems/IK- problems/RateLimiter/RateLimiter.cpp:8-31 | a call is refused if and only if the tokens at hand and the tokens to add come to a multiple of 2 to the 32; for a caller who holds tokens, if and only if they come to exactly 2 to the 32 |
| RateLimiter.EmptyBucketGrants | threads-locks/other-problems/IK- problems/RateLimiter/RateLimiter.cpp:12-29 | an empty bucket grants a call if and only if the periods' tokens are not a multiple of 2 to the 32; otherwise the caller is refused however long it waited |
| RateLimiter.RefillLosesIff | threads-locks/other-problems/IK- problems/RateLimiter/RateLimiter.cpp:15-15 | a refill loses tokens at hand if and only if the sum wraps around |
| RateLimiter.HolderRefused | threads-locks/other-problems/IK- problems/RateLimiter/RateLimiter.cpp:12-29 | the input: capacity 1, interval 1000, 2 to the 32 minus 1 tokens per period; at 1000 the caller has a token and is refused |
| RateLimiter.AllGrantedIff | threads-locks/other-problems/IK- problems/RateLimiter/RateLimiter.cpp:8-31 | every call of a sequence is granted if and only if at none of them the two sums come to a multiple of 2 to the 32 |
| RateLimiter.HeldTokensAreGranted | threads-locks/other-problems/IK- problems/RateLimiter/RateLimiter.cpp:15-31 | while no refill loses tokens, as many calls as there are tokens at hand are all granted |
| RateLimiter.GrantedAfterInterval | threads-locks/other-problems/IK- problems/RateLimiter/RateLimiter.cpp:8-31 | where nothing wraps around, a call is granted if and only if a token is at hand or a whole interval has passed since the last update |
| RateLimiter.GrantsAtLeast | threads-locks/other-problems/IK- problems/RateLimiter/RateLimiter.cpp:8-31 | the guaranteed minimum where nothing wraps around: with calls at most gap apart, the time since the start is at most (grants + 1) * (interval + gap - 1) |
| RateLimiter.BurstGrants | threads-locks/other-problems/IK- problems/RateLimiter/RateLimiter.cpp:8-31 | of k calls at one time exactly min(k, capacity, what was left plus tokensPerPeriod times the whole periods since the last update) are granted, the sum taken modulo 2 to the 32, for every clock |
| RateLimiter.BurstGrantsAll | threads-locks/other-problems/IK- problems/RateLimiter/RateLimiter.cpp:8-31 | where nothing wraps around, that is exactly what was left plus what the whole periods have earned, up to the capacity |
| RateLimiter.VisitsAtLeast | threads-locks/other-problems/IK- problems/RateLimiter/RateLimiter.cpp:8-31 | where nothing wraps around, however many calls each visit makes and however the visits are spaced, the grants are at least the sum over the visits of min(calls, capacity, tokensPerPeriod times the whole periods since the visit before) |
| RateLimiter.ModestIsNeverRefused | threads-locks/other-problems/IK- problems/RateLimiter/RateLimiter.cpp:8-31 | where nothing wraps around, a client that comes no more than once an interval, for no more calls than tokensPerPeriod and the capacity, is never refused |
| RateLimiter.DroppedPartCostsIff | threads-locks/other-problems/IK- problems/RateLimiter/RateLimiter.cpp:8-17 | where nothing wraps around, a refill that drops the elapsed part of a period costs the caller the token of a later call, of those that keeping the part would have granted, if and only if the bucket was left empty, no whole interval has passed since, and one has with the part |

## Left out

- Weak memory orders: the ring's relaxed, acquire and release annotations and the stack's default order are modelled as sequentially consistent steps.
- Liveness under a fair scheduler: the project proves that no state is stuck, bounds on overtaking, and termination measures instead.
- The 64-bit wrap of the ring's tickets, and with it the signed comparison of tickets half a range apart.
- For sizes of the ring that are not powers of two, what becomes of the values enqueued before it jams; size 1 cannot pass the constructor's assertion.
- Failure of `malloc`, of `pthread` calls and of assertions; destructors; `busy` of the pool, which returns whether the queue is empty.
- `RateLimiter` calls are atomic, as they are under the limiter's mutex; a clock that goes back is covered by `RefillTokens` alone, not by the bounds on grants.
- What the philosophers do between `think` and `get_forks`, and jobs that never return: a step of `eat` or of a job always ends.
- In `CasStack` the class covers allocators that keep to the discipline, or a single thread; allocators that do not are in the step machine, where the failing run is.
- Printing, argument parsing, `pthread_create` and `join` in the programs' `main`, and all of `cpu-api`, `dist-intro`, `intro`, `vm-intro` and `threads-api`: input, output and operating-system calls.
- `EventQueue`, `dispatch-que.cpp`, futures, callbacks and singletons: weaker copies of the pool's argument.
- The hash map, linked list, locked counter, `pstack.c` and lottery: one lock or none, easier than the rest.
- Fixed-size demonstrations (`OddEven.cpp`, `ping-pong.cpp`, `rendezvous.c`, `join*.c`, `atomicity*.c`, `deadlock.c`) and the duplicates of the producer/consumer programs under `threads-locks`.
