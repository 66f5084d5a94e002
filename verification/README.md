# A model of the kernel's allocator, scheduler, locks, interrupts and division

This project models the parts of a small bare-metal i386 kernel in which many operations have to
agree with each other, and proves what they promise together:

* the Kingsley power-of-two allocator of `memalloc.c` over the page source `bmk_allocpg` of
  `kernel.c`,
* the cooperative scheduler of `sched.c`,
* the mutexes, reader/writer locks and condition variables of `rumpfiber.c`,
* the hand-off from interrupts to a service thread in `intr.c`, with the interrupt depth of `md.h`,
* the tail queues of `queue.h`, as operations on pointers,
* the 64-bit division runtime in `librt`.

Check it with `dafny verify dfyconfig.toml` (Dafny 4.11).

## How the files fit together

* `Basics.dfy`: optional values, and sequences as lists
* `Bits.dfy`: machine words as natural numbers: shifts, masks, wrap-around, counting zeros
* `Division.dfy`: the shift-subtract divider for every word width, `__udivsi3`, `__udivmoddi4`, the signed wrappers
* `TailQueue.dfy`: cells, elements and heads on the Dafny heap; every macro refines an operation on sequences
* `KingsleyModel.dfy`: allocator and page source as functions on a value of type `Heap`
* `KingsleyInvariant.dfy`: what holds of every reachable heap: the clauses of `Holds`
* `KingsleySteps.dfy`, `KingsleyCore.dfy`: taking a block, freeing one, carving pages: each keeps every clause
* `KingsleyAlloc.dfy`, `KingsleyRealloc.dfy`: `bmk_memalloc` and `bmk_memrealloc` as clients see them
* `KingsleyRuns.dfy`: all runs of all clients
* `KingsleyWitness.dfy`: runs from boot in which a reallocation loses a byte or returns too small a block
* `Kingsley.dfy`: the same allocator with fields updated in place, proved to compute those functions
* `SchedModel.dfy`, `SchedInvariant.dfy`, `SchedSteps.dfy`, `SchedRuns.dfy`: the scheduler as a transition system, its invariant, and runs
* `SchedResults.dfy`: what threads may rely on when they sleep, yield, exit, join or are created
* `Scheduler.dfy`: the scheduler with fields updated in place
* `FiberModel.dfy`, `FiberInvariant.dfy`, `FiberSteps.dfy`, `FiberRuns.dfy`: the locks likewise
* `FiberCounts.dfy`, `FiberQueues.dfy`: outstanding enters counted from the steps of a run, and the wait lists step by step
* `FiberResults.dfy`, `FiberCalls.dfy`: what callers may rely on during a run, and when a blocking call returns
* `Fiber.dfy`: the locks with fields updated in place; what only the proofs need is ghost there
* `InterruptModel.dfy`, `InterruptResults.dfy`: the interrupt hand-off as a transition system; what is served was raised, and is served in time
* `Interrupts.dfy`: its word-level code

Each protocol is a datatype of states, a datatype of steps, a predicate that says when a step can
happen and a function that says what it does.  An invariant is proved for every step and so for
every run.  The classes carry the loops and assignments of the C code; their contracts equate the
new state with the function of the old one, so what is proved of the functions holds of them.

## What callers must do

* Allocator.  Memory starts page aligned above address 0 and ends below 4 GB (`Boot`).  A request
  plus its rounded header does not wrap, and the page counter stays below 2^20, because
  `bmk_allocpg` advances it even when it fails.  Clients free, resize and write only what they hold,
  and do not grow a block with less than a header's size left behind the pointer (`ResizeSafe`).
  `WrapExact` and `InPlaceExact` show that the conditions on sizes are exactly the ones needed.
* Scheduler.  A thread that is woken still exists; only a thread that must be joined is joined, by
  one thread at a time; the clock does not run backwards.  `bmk_sched_create` ignores its flags, so
  threads that must be joined are given in the start state (`SchedRuns.Start`).
* Locks.  Every thread has an lwp of its own; only holders exit a lock or wait with a mutex.

## Where the code and its comments differ

The model follows the code.

* The comment at `memalloc.c:406` says that freeing overwrites the magic number.  With 8 bytes of
  header in front of the pointer it does not (`MagicStays`), so a second free goes ahead, and it
  always leaves a heap without a layout (`DoubleFree`).
* `bmk_memrealloc` subtracts the header twice.  A move is sure to keep the old request exactly when
  it was no larger than what is left (`MoveExact`); a client with 24 bytes that asks for 100 loses a
  byte, on every machine with two pages (`MoveLosesInRun`).  With less than a header left behind the
  pointer the difference wraps and the same pointer is returned for any size (`InPlaceExact`); an
  empty allocation on a 32-byte boundary gets there (`GrowthUnsafeInRun`).
* A request whose size wraps gets a block that is too small: `WrapExact`, `WrapWitness`.
* The comment at `rumpfiber.c:185` says that `enter_nowrap` must succeed.  After a condition variable
  wait it fails exactly when another thread holds the mutex (`ReenterPanics`), and that happens
  (`PanicHappens`).
* A writer enters a reader/writer lock without looking at the readers (`WriterEnters`,
  `ReaderBesideWriter`), so writers are alone throughout a run exactly when each of them entered
  without a reader inside (`WriterAlone`).

## Model

| member | source | states |
|---|---|---|
| `KingsleyRuns.RunSound` | memalloc.c:191-453 | in every legal run from boot the blocks tile exactly the pages that morecore took, do not overlap, have the size and alignment of their bucket, and each is live or on the one free list of its size, which is acyclic and ends in NULL |
| `KingsleyRuns.RunKeeps` | memalloc.c:191-453 | over every legal run the invariant holds, and a pointer that no operation names keeps its place, its header and its bytes |
| `KingsleyRuns.RunSeparates` | memalloc.c:264-285 | in every run two live pointers lie apart, headers included, each placed as its header says |
| `KingsleyRuns.StepKeeps` | memalloc.c:191-453 | every legal operation keeps the invariant and disturbs only the pointer it names |
| `KingsleyRuns.StartSound` | memalloc.c:124-127 | the zero-initialised statics meet the invariant |
| `KingsleyRuns.BlockFate` | memalloc.c:264-285 | a block is free or live, never both, and on one list only |
| `KingsleyRuns.AddressOnce` | memalloc.c:331-363 | no address belongs to two blocks |
| `KingsleyAlloc.AllocKeeps` | memalloc.c:191-301 | an allocation keeps the invariant and all data, a pointer it returns is new, and it returns one if and only if the alignment is 0 or a power of two, a bucket is big enough, and that bucket has a block or pages are left for one |
| `KingsleyAlloc.AllocCounter` | memalloc.c:264-270 | pages are taken only for an empty list, and as many as its bucket needs |
| `KingsleyAlloc.RefusalCounter` | memalloc.c:229-259 | an allocation refused for its alignment or its size takes no pages and changes neither lists nor memory |
| `KingsleyAlloc.AllocPlaces` | memalloc.c:229-301 | a returned pointer is aligned as asked, header and data lie in one block, and its bucket is the least that holds both |
| `KingsleyAlloc.PlacedMultiples` | memalloc.c:275-276 | pointer and block are multiples of their alignments |
| `KingsleyAlloc.LivePlaced` | memalloc.c:275-285 | the header of every live pointer tells the truth about its block |
| `KingsleyAlloc.LiveApart` | memalloc.c:264-285 | the blocks behind two live pointers do not overlap up to the end of the data |
| `KingsleyAlloc.AllocBytes` | memalloc.c:264-285 | the bytes handed out are what memory held there before |
| `KingsleyAlloc.AllocBlind` | memalloc.c:264-285 | which pointer comes back does not depend on the contents of memory |
| `KingsleyAlloc.TakeFree` | memalloc.c:272-407 | allocating and freeing at once restores the list heads and the link in the block |
| `KingsleySteps.BucketLeast` | memalloc.c:242-259 | the bucket chosen is the least that holds the request, index at most 26; none only beyond 2 GB |
| `KingsleySteps.AlignPower` | memalloc.c:229-232 | an accepted alignment is used as a power of two, at least the size of a pointer |
| `KingsleySteps.AlignExact` | memalloc.c:229-230 | an alignment is accepted if and only if it is 0 or a power of two |
| `KingsleySteps.TakeFits` | memalloc.c:234-276 | room computed from the header rounded up suffices for the aligned pointer in any block |
| `KingsleySteps.TakeKeeps` | memalloc.c:272-285 | handing out the first block of a list keeps the invariant and all data |
| `KingsleySteps.FreeRecovers` | memalloc.c:375-407 | the header leads back to exactly the block and bucket it came from |
| `KingsleySteps.FreeKeeps` | memalloc.c:365-413 | freeing a live pointer keeps the invariant and everybody else's data |
| `KingsleyRealloc.FreeGuarded` | memalloc.c:373-407 | a pointer without the magic number is ignored, and one with a bucket beyond the table changes nothing, the kernel having stopped; for any other only the head of its bucket and the link in its block change, and they put the block in front of the old head |
| `KingsleyCore.MoreCoreKeeps` | memalloc.c:331-363 | carving fresh pages for an empty list keeps the invariant and all data |
| `KingsleyCore.CoreFillsPages` | memalloc.c:339-348 | the blocks carved at once fill the pages taken for them exactly |
| `KingsleyCore.ThreadLists` | memalloc.c:356-362 | threading makes a NULL-terminated list of exactly the carved blocks |
| `KingsleyCore.ThreadSame` | memalloc.c:356-362 | threading writes only inside the carved blocks |
| `KingsleyCore.AllocPgExact` | kernel.c:16-28 | below the counter's limit the page source hands out fresh memory or refuses, and counts either way |
| `KingsleyCore.PagesKeep` | kernel.c:16-28 | pages taken by others are apart from all blocks and all other pages |
| `KingsleyRealloc.ReallocKeeps` | memalloc.c:421-453 | reallocating keeps the invariant and everybody else's data |
| `KingsleyRealloc.ReallocNull` | memalloc.c:429-430 | without an old pointer it allocates: a new pointer placed as asked, if and only if there is a block or pages for it |
| `KingsleyRealloc.ReallocZero` | memalloc.c:432-435 | for no bytes it returns NULL and frees: the block is in front of the list of its bucket, the invariant and everybody else's data are kept |
| `KingsleyRealloc.ReallocExact` | memalloc.c:442-448 | any other call returns a pointer if and only if the size is taken to fit or there is a block or pages for it |
| `KingsleyRealloc.MoveCarries` | memalloc.c:445-453 | a moved pointer is new and has the bytes of the old one as far as it was taken to be usable |
| `KingsleyRealloc.RefusalIntact` | memalloc.c:446-448 | a refused reallocation leaves the old pointer and its bytes as they were |
| `KingsleyRealloc.MoveExact` | memalloc.c:442-453 | the whole old request is sure to survive a move if and only if it is no larger than what is taken to be usable |
| `KingsleyRealloc.MoveLoses` | memalloc.c:442-453 | contents of the old block that a move does not carry over, when the request was larger |
| `KingsleyRealloc.InPlaceExact` | memalloc.c:442-443 | staying in place keeps the invariant if and only if a header's size is left behind the pointer or the new size fits anyway |
| `KingsleyRealloc.UsableRoom` | memalloc.c:442-443 | what is taken to be usable falls short of the room by a header, or wraps |
| `KingsleyWitness.MoveLosesInRun` | memalloc.c:442-453 | on every machine with two pages, from boot: allocate 24 bytes, write to them, reallocate to 100; the run is legal, the pointer moves, and the byte at offset 16 is lost |
| `KingsleyWitness.GrowthUnsafeInRun` | memalloc.c:442-443 | on every machine with a page, from boot: allocate 0 bytes on a 32-byte boundary, reallocate to any size up to 2^32 - 8; the same pointer comes back with no room behind it, and the state has no layout |
| `KingsleyRealloc.WrapExact` | memalloc.c:235-259 | the bucket chosen holds request and header if and only if their sum does not wrap |
| `KingsleyRealloc.WrapWitness` | memalloc.c:235-259 | a request that wraps gets the smallest block |
| `KingsleyRealloc.MagicStays` | memalloc.c:405-407 | the magic number survives a free |
| `KingsleyRealloc.DoubleFree` | memalloc.c:375-407 | freeing a live pointer twice leaves a heap without a layout, whatever is taken to be live |
| `Kingsley.Allocator.constructor` | memalloc.c:124-127 | the statics start out zero |
| `Kingsley.Allocator.AllocPg` | kernel.c:16-28 | computes the page source, with its 32-bit sums |
| `Kingsley.Allocator.CoreAlloc` | memalloc.c:314-326 | asks for a power of two of pages |
| `Kingsley.Allocator.ThreadBlocks` | memalloc.c:357-362 | the loop over the blocks computes the threaded memory |
| `Kingsley.Allocator.MoreCore` | memalloc.c:331-363 | computes the refilled heap, sizes by division as in the code |
| `Kingsley.Allocator.InitPages` | memalloc.c:203-227 | the first call finds the page bucket |
| `Kingsley.Allocator.FindBucket` | memalloc.c:242-259 | the doubling loop finds the least bucket, or stops when the size wraps to 0 |
| `Kingsley.Allocator.Take` | memalloc.c:272-285 | unlinks, aligns and writes the header |
| `Kingsley.Allocator.MemAlloc` | memalloc.c:191-301 | computes the allocation |
| `Kingsley.Allocator.MemFree` | memalloc.c:365-413 | computes the free |
| `Kingsley.Allocator.MemCpy` | subr.c:67-80 | copies byte by byte, upwards |
| `Kingsley.Allocator.MemRealloc` | memalloc.c:421-453 | computes the reallocation |
| `SchedRuns.RunKeeps` | sched.c:178-386 | over every run time goes forward, what was freed stays freed, and lists, contexts and the exit/join protocol stay consistent; in particular the running thread is last in the list outside the exit window, and no thread is on two lists |
| `SchedSteps.StepKeeps` | sched.c:178-386 | every step of threads, interrupts and the scheduling loop keeps the invariant |
| `SchedRuns.StartInv` | sched.c:371-386 | the state after bmk_sched_init, with any created threads, meets the invariant |
| `SchedRuns.BoundedWaiting` | sched.c:187-213 | a thread at index k that can run is picked within k + 1 passes plus one for every thread created meanwhile |
| `SchedRuns.WaitMeasure` | sched.c:187-213 | until then its index is exactly k less the passes plus the creations |
| `SchedRuns.NoSwitch` | sched.c:184-217 | a pass keeps the caller running if and only if no other thread on the list can run |
| `SchedRuns.ReaperSafe` | sched.c:215-227 | a pass that returns to a thread frees exactly the zombies, any other pass nothing; the thread that runs is never freed |
| `SchedSteps.ReaperIsCurrent` | sched.c:168-227 | the reaper runs with prev equal to the running thread |
| `SchedSteps.ReapAll` | sched.c:219-227 | run that way, it frees all zombies and nothing else |
| `SchedRuns.GoneForever` | sched.c:298-307 | in no run does an exited thread run again, and nothing is freed twice |
| `SchedRuns.JoinedStays` | sched.c:278-334 | a thread that is being joined has not exited |
| `SchedRuns.JoinerRuns` | sched.c:284-327 | a joiner whose target waits at its exit can run and is picked in time |
| `SchedRuns.ExiterRuns` | sched.c:284-334 | an exiting thread whose joiner has let it go can run and is picked in time |
| `SchedRuns.JoinLeavesNothing` | sched.c:318-334 | when a join ends, no record of the joiner is linked and the target may go |
| `SchedResults.GateExact` | sched.c:284-302 | the exit loop waits, having said so, if and only if the thread must be joined; past it the thread is off the end of the list and first of the zombies |
| `SchedResults.ExitExact` | sched.c:278-302 | the same from the start of bmk_sched_exit |
| `SchedResults.JoinExact` | sched.c:319-333 | a round of the join loop ends the join, clears the flag and wakes the target, if and only if the target waits at its exit; otherwise the joiner waits with its record last in the list |
| `SchedResults.JoinStarts` | sched.c:310-319 | a join ends at once if and only if the target is already at its exit |
| `SchedResults.JoinEnds` | sched.c:284-333 | in every run after the target has reached its exit, a joiner that is back from bmk_sched ends its join |
| `SchedResults.SleepEnds` | sched.c:336-346 | in every run in which nobody wakes it, a sleeper can run if and only if the clock has reached its deadline, and is then picked within the bound because of the timeout |
| `SchedResults.SleepExact` | sched.c:190-196 | until it is woken or picked it keeps its deadline, and can run exactly from then on |
| `SchedResults.TimedoutExact` | sched.c:191-195 | in every run the timeout flag of a thread is set if and only if it was, or the thread has been picked while not runnable |
| `SchedResults.PickReturns` | sched.c:187-217 | the thread picked runs where it was left, at its exit loop, join loop or caller, runnable and without a deadline, its timeout flag set if it was not runnable |
| `SchedResults.IdlePass` | sched.c:187-213 | a pass changes nothing but the clock if and only if nobody can run |
| `SchedResults.WokenRuns` | sched.c:355-361 | a thread that is woken can run, without a deadline, and is picked within the bound |
| `SchedResults.YielderRuns` | sched.c:178-217 | a thread that calls bmk_sched without blocking is picked again within the bound |
| `SchedResults.CreatedRuns` | sched.c:231-268 | a new thread is runnable, in front of the others, with clean flags, and is picked within the bound |
| `SchedResults.StepFrames` | sched.c:178-369 | no step changes anything about a thread it is not about, except that a pass frees it after its exit |
| `SchedResults.ListFrames` | sched.c:231-369 | only creating, exiting and passes change the lists of threads, only passes who runs, only joiners the list of joiners |
| `SchedModel.FirstEligible` | sched.c:190-206 | the thread picked is the first that is runnable or whose deadline has passed |
| `SchedModel.FirstWaiter` | sched.c:288-293 | the record found is the first one for the exiting thread |
| `Scheduler.Scheduler.constructor` | sched.c:373-386 | the initial thread runs and is alone |
| `Scheduler.Scheduler.Create` | sched.c:231-268 | a new runnable thread at the head of the list |
| `Scheduler.Scheduler.Wake` | sched.c:355-361 | clears the deadline and makes runnable |
| `Scheduler.Scheduler.Block` | sched.c:363-369 | clears the deadline and makes not runnable |
| `Scheduler.Scheduler.NanoSleep` | sched.c:336-346 | blocks until the sum of now and the interval, as a signed 64-bit number |
| `Scheduler.Scheduler.Scan` | sched.c:187-208 | the loop over the list picks the first eligible thread and moves it to the end |
| `Scheduler.Scheduler.Reaper` | sched.c:219-227 | the removing loop frees every zombie but prev |
| `Scheduler.Scheduler.Switch` | sched.c:215-227 | from the choice of a thread to the end of bmk_sched in that thread |
| `Scheduler.Scheduler.Pass` | sched.c:187-227 | one pass computes the scheduling step |
| `Scheduler.Scheduler.Gate` | sched.c:284-302 | one round of the exit loop, or the exit |
| `Scheduler.Scheduler.JoinRound` | sched.c:319-333 | one round of the join loop, or its end |
| `FiberRuns.RunKeeps` | rumpfiber.c:73-465 | over every run waiters, owners, hand-offs and counts stay consistent |
| `FiberRuns.StepKeeps` | rumpfiber.c:73-465 | every step keeps the invariant, barging and spurious wake-ups included |
| `FiberRuns.StartInv` | rumpfiber.c:155-164 | freshly initialised locks meet the invariant |
| `FiberResults.MutexExcludes` | rumpfiber.c:192-214 | in every run v is the number of the owner's enters less that of its exits, counted from the steps, everybody else has none outstanding, so there is at most one holder, and v is 0 exactly when there is no owner |
| `FiberCounts.HeldCounted` | rumpfiber.c:192-214 | over every run the outstanding enters of each thread change by its enters, those tried while nobody else has the mutex, less its exits |
| `FiberResults.MutexNotStuck` | rumpfiber.c:167-214 | while a mutex is free and threads wait, one that has left the list can run and is about to try again |
| `FiberResults.RwHandsOff` | rumpfiber.c:251-322 | v plus the writer is the number of holders, each with its enters less its exits counted from the steps; waiting writers imply a writer inside or on its way; waiting readers imply that or a waiting writer |
| `FiberCounts.RwHeldCounted` | rumpfiber.c:276-313 | the same count for every run and thread, an enter being an attempt while no writer is inside and, for a reader, none waits |
| `FiberCalls.MutexEnterReturns` | rumpfiber.c:166-203 | mutex_enter returns, owning the mutex, exactly when it tries while nobody else has it; until then it is in the call |
| `FiberCalls.RwEnterReturns` | rumpfiber.c:251-303 | rw_enter returns, inside the lock, exactly when it tries while no writer is inside and, for a reader, none waits |
| `FiberResults.WriterEnters` | rumpfiber.c:281-289 | a writer gets in whenever no other writer is, and is alone at that moment if and only if no reader is inside |
| `FiberResults.WriterAlone` | rumpfiber.c:251-322 | in every run, a writer inside is the only one inside at every moment if and only if every writer that got in found v = 0 |
| `FiberResults.WriterStays` | rumpfiber.c:305-322 | a writer that is alone stays the owner until it exits |
| `FiberResults.ReaderBesideWriter` | rumpfiber.c:281-297 | a run with a reader and a writer inside at once |
| `FiberResults.WaiterConserved` | rumpfiber.c:73-115 | in every run a waiter is linked exactly while its thread is in wait() with the flag set, once; after wait() it is on no list |
| `FiberResults.WaitReturns` | rumpfiber.c:86-90 | wait() returns 0 if and only if one wake-up took the waiter off its list, ETIMEDOUT if and only if none did |
| `FiberCalls.TimeoutReturns` | rumpfiber.c:78-90 | a wake-up that does not come from the list lets any waiter go on, with ETIMEDOUT if and only if it was still linked, and linked no more |
| `FiberQueues.QueueStep` | rumpfiber.c:73-115 | what each step makes of each wait list: the first waiter goes with a signal, the last exit of a mutex or an exit of a lock, all go with a broadcast or an exit that no writer waits for, a blocked thread comes last, a timeout removes itself |
| `FiberQueues.QueueReaches` | rumpfiber.c:93-103 | the waiter at position k of any list has been woken after k + 1 wake-ups of that list |
| `FiberQueues.QueueMeasure` | rumpfiber.c:93-103 | while it is queued every wake-up of the list brings it one place forward |
| `FiberResults.WaitersCounted` | rumpfiber.c:414-451 | nwaiters is the number of threads between entry and exit of a wait |
| `FiberResults.NoSignalMissed` | rumpfiber.c:391-465 | whoever takes the mutex after another thread has begun to wait with it finds that thread queued or already woken |
| `FiberResults.SignalReaches` | rumpfiber.c:93-103 | the waiter at position k has been woken after k + 1 signals |
| `FiberResults.SignalMeasure` | rumpfiber.c:93-103 | while it is queued every signal brings it one place forward |
| `FiberResults.ReenterPanics` | rumpfiber.c:179-189 | re-entering after a wait panics if and only if another thread holds the mutex |
| `FiberCalls.ReenterTakes` | rumpfiber.c:399-412 | without a panic the thread owns the mutex, entered once more, and keeps the result of wait() |
| `FiberCalls.CvOwns` | rumpfiber.c:391-424 | in every run a thread at either end of a wait owns the mutex it waits with |
| `FiberCalls.CvWaitReturns` | rumpfiber.c:414-424 | in every run a thread returns from a wait with the mutex that it began to wait with |
| `FiberResults.PanicHappens` | rumpfiber.c:399-424 | a run that panics so |
| `Fiber.Fibers.constructor` | rumpfiber.c:155-164 | nothing is locked, nobody waits |
| `Fiber.Fibers.BeginWait` | rumpfiber.c:78-84 | links the waiter at the tail and blocks |
| `Fiber.Fibers.EndWait` | rumpfiber.c:86-90 | unlinks a waiter that is still linked, and says so |
| `Fiber.Fibers.WakeupOne` | rumpfiber.c:93-103 | takes the first waiter off and wakes its thread |
| `Fiber.Fibers.WakeupAll` | rumpfiber.c:105-115 | does so until the list is empty |
| `Fiber.Fibers.MutexTryEnter` | rumpfiber.c:191-203 | fails with EBUSY exactly when another lwp owns it |
| `Fiber.Fibers.MutexExit` | rumpfiber.c:205-214 | the last exit clears the owner and wakes one waiter |
| `Fiber.Fibers.RwTryEnter` | rumpfiber.c:275-303 | fails with EBUSY exactly when a writer is inside or, for a reader, one waits |
| `Fiber.Fibers.RwExit` | rumpfiber.c:305-322 | releases, then wakes one writer or else all readers |
| `Fiber.Fibers.CvLeave` | rumpfiber.c:391-421 | releases the mutex and queues up without letting anybody in between |
| `Fiber.Fibers.CvReenter` | rumpfiber.c:399-412 | takes the mutex back or panics |
| `InterruptModel.NoLostWakeup` | intr.c:38-79 | in every interleaving: parked, the service thread can run if and only if lines are pending; the scheduler is entered only at depth 0; the depth stays 0 or 1 after boot and spl0 never panics |
| `InterruptModel.NoLostInterrupt` | intr.c:38-113 | every line ever raised is in a later snapshot or still pending, and has since been served, is still pending, or has its turn to come |
| `InterruptResults.NoneForNothing` | intr.c:38-60 | in every interleaving a line that is served is in the last snapshot and not served since, and a line of a snapshot was raised since the snapshot before |
| `InterruptResults.ServedInTime` | intr.c:38-79 | a line that is pending or in hand is served within 69 actions of the service thread, which can go on unless a handler waits |
| `InterruptResults.HandlerWaits` | intr.c:54-59 | a handler that waits stops the service thread until a wake-up, and then goes on where it was |
| `InterruptModel.StepKeeps` | intr.c:38-113 | every action of the service loop and every interrupt between two of them keeps the invariant |
| `InterruptModel.StepDepth` | include/arch/i386/md.h:46-62 | depth is 1 exactly between splhigh and spl0, and the interrupt flag agrees |
| `InterruptModel.StepHandoff` | intr.c:39-77 | nothing is lost between looking at isr_todo, clearing it and going to sleep |
| `Interrupts.Controller.SplHigh` | include/arch/i386/md.h:46-52 | masks and counts |
| `Interrupts.Controller.Spl0` | include/arch/i386/md.h:54-62 | counts down, unmasks at 0, panics below |
| `Interrupts.Controller.Isr` | intr.c:106-113 | computes the model's step on the pending word: exactly this line is added and the service thread made runnable |
| `Interrupts.Controller.TakeSnapshot` | intr.c:43-44 | the copy has exactly the pending lines, and none is pending afterwards |
| `Interrupts.OrLine` | intr.c:111 | setting a bit adds one line and forgets none |
| `Interrupts.ServeAll` | intr.c:48-60 | the loop serves exactly the lines of the snapshot, each once, in order |
| `Interrupts.AndPower` | intr.c:51 | the test with a shifted bit picks out one line |
| `TailQueue.Queue.constructor` | include/bmk/queue.h:477-480 | an empty well-formed queue |
| `TailQueue.Queue.InsertHead` | include/bmk/queue.h:482-491 | from any well-formed queue, prepends; all links agree afterwards |
| `TailQueue.Queue.InsertTail` | include/bmk/queue.h:493-499 | appends |
| `TailQueue.Queue.Remove` | include/bmk/queue.h:521-531 | removes exactly this element |
| `TailQueue.Queue.MoveToTail` | sched.c:201-203 | the scheduler's rotation |
| `TailQueue.Queue.ForeachSafe` | include/bmk/queue.h:424-427 | visits every original element once, in order, even when the body removes the current one, and leaves exactly the others |
| `TailQueue.KeptMembers` | include/bmk/queue.h:424-427 | what is left is exactly what the body did not remove |
| `Division.MaskExact` | librt/udivmoddi4.c:225 | for every width the mask is all ones or zero, and decides r >= d if and only if the difference fits a signed word |
| `Division.MaskNeedsNormalisation` | librt/udivsi3.c:60 | without normalised operands the mask is wrong |
| `Division.IterateKeeps` | librt/udivmoddi4.c:211-228 | for every width one iteration keeps r below d and the quotient so far exact |
| `Division.LoopEntry` | librt/udivsi3.c:36-47 | normalisation by leading zeros establishes the loop invariant, top bit of d set or not |
| `Division.LoopExit` | librt/udivmoddi4.c:229-232 | after the last iteration quotient and remainder are exact |
| `Division.ShiftSubtract` | librt/udivsi3.c:47-65 | the loop divides, for every width |
| `Division.UDivSI3` | librt/udivsi3.c:24-66 | 32-bit division is exact; a zero divisor gives 0 |
| `Division.IterateHalves` | librt/udivmoddi4.c:213-227 | one iteration on 32-bit halves keeps the 64-bit invariant |
| `Division.ShiftSubtractHalves` | librt/udivmoddi4.c:210-232 | the loop on halves divides |
| `Division.DivideLow` | librt/udivmoddi4.c:38-57 | a dividend of one half |
| `Division.StartHigh` | librt/udivmoddi4.c:59-120 | a divisor with low half 0: done, or a sound start of the loop |
| `Division.StartLow` | librt/udivmoddi4.c:121-171 | a divisor with high half 0 |
| `Division.StartBoth` | librt/udivmoddi4.c:172-202 | a divisor with both halves set |
| `Division.UDivModDI4` | librt/udivmoddi4.c:25-233 | for every 64-bit a and nonzero b: a = q*b + r with r < b |
| `Division.TruncUnique` | librt/divdi3.c:17-29 | truncating quotient and remainder are the one pair that section 6.5.5 of ISO/IEC 9899:1999 describes |
| `Division.DivDI3` | librt/divdi3.c:19-29 | the quotient truncates toward zero; (INT64_MIN, -1) gives INT64_MIN |
| `Division.ModDI3` | librt/moddi3.c:19-30 | the remainder has the sign of the dividend; (INT64_MIN, -1) gives 0 |

## Left out

- `rumpuser_rw_downgrade` and `rumpuser_rw_tryupgrade`: v = -1 with the owner still set does not fit the counting that exit relies on.
- The rump kernel's own scheduling (`rumpkern_sched`, `rumpkern_unsched`) is not part of this model; other threads may run where it is called, and it leaves lwps and locks alone.
- Time in the locks: a timeout is one of the wake-ups that may come at any time to a thread in wait(), so that only a wait with a timeout can time out is not stated.
- Which thread runs: the locks let any runnable thread take the next step; the order is the subject of the scheduler model.
- The rump rwlock call with an unknown lock type, which returns EINVAL and changes nothing.
- Addresses of threads: threads have names that are used once, so reuse of a freed thread's memory does not confuse two threads in the model.
- Interrupts inside one pass of the scheduling loop count as coming before or after it; what they do is one store to a flag word.
- The interrupt stub and the context switch (`arch/i386/locore32.S`, `arch/i386/machdep.c`) are single steps; descriptor tables and port I/O are not part of this model.
- Interrupt handlers and the stray-interrupt message: a line is served when its turn in the loop comes.
- Corrupted headers: a bucket beyond the table stops the kernel in an assertion, which the model shows as no further change; shifts by more than the word are not given C's undefined meaning.
- `bmk_xmalloc` and the freeing of thread stacks: a panic and two calls of the allocator.
- The debugging builds of the allocator (RCHECK, MSTATS, MEMALLOC_TESTING) and the other families of `queue.h`.
- `subr.c`, the console, boot-time memory parsing, `rumpuser.c`, `rumppci.c` and the libc stubs: easy or machine-specific; pages that `rumpuser.c` and `rumppci.c` take from `bmk_allocpg` are the operation `Pages`.
- Division of a 64-bit number by zero, which is undefined.
