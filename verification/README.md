# miniosv: a Dafny model of its locks, its memory managers and its scheduler

This project models the parts of the miniosv kernel whose correctness rests on
invariants that no single function shows: the blocking-synchronisation
protocols, RCU, the page allocator, the address space, the page tables and the
thread states of the scheduler. `dafny verify dfyconfig.toml` checks all of it.

Protocols between threads are step systems: a `State`, the actions a thread or
a CPU can take (`Enabled`, `Next`), and runs (`IsRun`) that interleave them in
any way, for any number of threads or CPUs. One atomic operation of the kernel
is one step. Their theorems hold in every state of every run. Code that works
on one data structure under a lock is imperative: a class or a method with
loops, proved against functions on values.

- `LfMutex`, `LfMutexProof`, `LfMutexProgress`, `LfMutexCalls`: the lock-free
  recursive mutex with its responsibility hand-off. The open question in
  core/lfmutex.cc:240-243 is answered: the loop of `unlock()` never runs more than
  twice. Every call returns, in whatever order the calls go on, and has then done
  what it promises.
- `QueueMpsc`: the queue of wait records behind that mutex and the
  reader-writer lock; it behaves like a queue with atomic operations.
- `RwLock`, `RwLockProof`, `RwLockProgress`, `RwLockCalls`: the reader-writer
  lock in one 32-bit word, on top of a mutex that is taken as such, and when each
  of its calls gets the lock. `Tally` sums over threads.
- `Rcu`, `RcuProof`, `RcuProgress`, `RcuCalls`: the grace periods of the per-CPU
  quiescent-state threads, which always come to their end, and what becomes of a
  deferred function.
- `Log2`, `Division`, `PageHeap`, `PageRanges`: the page-range allocator.
- `Holes`, `VmaList`, `TornAreas`, `AddrSpace`: the hole search, lists of virtual
  memory areas, ranges that end inside a page, and the operations that change
  the address space.
- `PageTable`, `PageWalk`, `Pte`: page tables as trees, the generic walker, and
  the bits of AArch64 entries.
- `CpuTime`, `Sched`, `SchedProof`, `SchedProgress`, `WakeupIpi`: the CPU-time
  estimator, thread states, the way of a waiting thread back to its CPU and of an
  ending one off it, and the interrupt that makes a CPU look at its wakeups.
- `CondvarQueue`, `Condvar`, `CondvarProof`, `CondvarProgress`: the waiters of a
  condition variable as a linked list, the protocol of waiting and waking, and
  who returns from it.

Where a property does not hold, the model keeps what the code does, shows an
input, and states exactly when the property holds:

- `find_hole()` adds its start and size as 64-bit words. When the sum overflows
  and the start is not inside a range, it returns the start although nothing
  fits (`Holes.FindHole`, `Holes.OverflowingSize`); `mmap()` then inserts an
  area that ends before it starts (`AddrSpace.AddressSpace.MapAnywhere`).
- With a hint above every registered range `find_hole()` reads past the last of
  them (`Holes.FindHole`, `Holes.HintAboveAll`). `munmap()` and `mprotect()`
  read past the last area exactly for an address above the upper limit
  (`AddrSpace.AddressSpace.Munmap`, `AddrSpace.AddressSpace.Mprotect`,
  `AddrSpace.MunmapAbove`, `AddrSpace.MprotectAbove`).
- A mapping without a fixed address whose hint lies in page zero and is itself a
  hole maps nothing and returns the hint, because its area has the start of the
  lower edge marker; any other hint in page zero is placed elsewhere and mapped
  (`AddrSpace.AddressSpace.MapAnywhere`, `AddrSpace.HintInFirstPage`).
- A fixed mapping leaves the list and the set of ranges consistent exactly if it
  lies between the edge markers and keeps away from all linear mappings
  (`AddrSpace.AddressSpace.MapFixed`, `AddrSpace.FixedOverLinear`). One at
  address zero erases the lower edge marker and steps before the list, one up to
  beyond the limit erases the upper edge marker (`AddrSpace.AddressSpace.Evacuate`,
  `AddrSpace.EdgesErasedIff`, `AddrSpace.FixedAtZero`, `AddrSpace.FixedOverLimit`).
- Splitting an area inside a page loses addresses or leaves two areas with the
  same page (`VmaList.SplitExactIff`). `mprotect()` does that: a successful call
  changes exactly its range if and only if the length is whole pages or the last
  byte has the permission already; otherwise the last area keeps its permission
  and loses all pages behind the last one of the range
  (`AddrSpace.AddressSpace.Mprotect`, `TornAreas.ProtectExactIff`). Thread stacks
  pass any guard size (libc/pthread.cc:151, 729-732): a guard of 100 or 5000
  bytes protects nothing and takes the rest of the stack off the list
  (`AddrSpace.StackGuard`, `AddrSpace.SmallGuards`).
- A linear mapping whose virtual and physical start differ modulo 2 MB is wrong
  in every 2 MB page it uses (`PageWalk.LinearExactIff`,
  `PageWalk.LinearMisplaced`).
- `make_pte()` with no permission at all still makes a valid entry, because
  setting the address sets the valid bit again (`Pte.MakePtePermissions`).
- A condition variable forgets its mutex when a wake empties its queue, but not
  when a timeout does (`CondvarProof.MutexForgottenIff`,
  `CondvarProof.StaleMutex`).
- Calls in progress and releases reach every thread that waits for the
  reader-writer lock, and leave the lock free, exactly if no reader is inside
  `wlock()`, no writer inside `rlock()`, and no reader inside `rlock()` again while
  a writer is pending (`RwLockProgress.EveryWaiterIsReachedIff`,
  `RwLockProgress.LockDrainsIff`, and for each waiter alone
  `RwLockProgress.WaiterIsReachedIff`). A run for each of the three:
  `RwLockProgress.ReaderWaitsForItself`, `RwLockProgress.WriterWaitsForItself`,
  `RwLockProgress.ReaderWaitsForWriter`.
- A waiter that was taken off the queue of a condition variable returns exactly
  unless its mutex is held, directly or through others, by a thread that waits
  and is not going to be woken (`CondvarProgress.WaiterReturnsIff`,
  `CondvarProgress.HeldWhileWaiting`).
- The comment at core/sched.cc:205-208 allows half of the time window that the
  code handles; `CpuTime.RecoveredIff` is about the code.

## Model

| member | source | states |
|---|---|---|
| `LfMutexProof.MutualExclusion` | core/lfmutex.cc:24-266 | a thread with an unmatched acquisition is the owner at exactly that depth, and no other thread has one |
| `LfMutexProof.OneToken` | core/lfmutex.cc:24-266 | exactly one right to pass the lock on exists while the count is positive, with one thread or in the hand-off word, and none while it is zero |
| `LfMutexProof.SingleConsumer` | core/lfmutex.cc:57-135 | two threads never pop the wait queue at the same time |
| `LfMutexProof.AssertsHold` | core/lfmutex.cc:59-82 | no assertion fails: a pop after a won hand-off finds a waiter, the winner has not been woken itself, unlock is called by the owner |
| `LfMutexProof.UnlockLoopAtMostTwice` | core/lfmutex.cc:237-265 | the loop of unlock() runs at most twice in any interleaving, and its second pop finds a waiter |
| `LfMutexProgress.NoLostWakeup` | core/lfmutex.cc:54-93 | whenever a thread wants the lock, the calls already in progress alone lead to a state in which somebody holds it |
| `LfMutexProgress.SomebodyAwake` | core/lfmutex.cc:244-265 | no state has the lock free, lockers asleep and nobody about to wake one |
| `LfMutexProgress.EveryLockerIsServed` | core/lfmutex.cc:24-266 | in whatever order the calls in progress and the unlock() calls of holders are taken from any state, their number is bounded, and when none is left every thread that wanted the lock has held it |
| `LfMutexCalls.LockTakes` | core/lfmutex.cc:24-93 | in every run, when lock() returns the caller holds exactly one acquisition more than when it called, and is the owner at that depth |
| `LfMutexCalls.UnlockGivesBack` | core/lfmutex.cc:214-266 | when unlock() returns the caller holds exactly one acquisition less, and is not the owner if that was the last |
| `LfMutexCalls.TryLockAnswers` | core/lfmutex.cc:178-212 | try_lock() ends with one acquisition more or none, and for certain with one more if the mutex was free or the caller's |
| `LfMutexCalls.TryLockAlone` | core/lfmutex.cc:178-212 | with no step of another thread in between, try_lock() takes the mutex exactly if it is free, the caller's or handed off; else the state is as before |
| `LfMutexCalls.SendLockSends` | core/lfmutex.cc:108-136 | send_lock() makes its target a thread that wants the lock, and changes nothing about what its caller holds |
| `LfMutexCalls.ParkedReceives` | core/lfmutex.cc:171-176 | a thread that waits elsewhere comes back with the lock exactly if it was sent the lock meanwhile |
| `LfMutexCalls.EveryCallReturns` | core/lfmutex.cc:24-266 | from every state, in whatever order the calls in progress and the unlock() calls of holders are taken: every call returns, with what it promises, before none of these is left |
| `LfMutexCalls.NobodyOvertakes` | core/lfmutex.cc:48-93 | as long as a waiter stays queued none queued behind it leaves the queue or gets ahead |
| `LfMutexCalls.FreeWhenAllOut` | core/lfmutex.cc:214-266 | when nobody holds the mutex and no call is in progress its count, owner, queue and hand-off are as new |
| `LfMutexCalls.MayCall` | core/lfmutex.cc:24-266 | in every state of every run each thread that is outside may make any call, and unlock() exactly with something to unlock |
| `QueueMpsc.StepIsAtomic` | include/lockfree/queue-mpsc.hh:55-106 | each atomic step of overlapping pushes and one pop adds one item at the end, removes the first item and returns it, finds the queue empty, or changes nothing |
| `QueueMpsc.BehavesLikeQueue` | include/lockfree/queue-mpsc.hh:55-106 | in every run the contents change only by whole pushes and pops: the item whose push takes effect becomes the last one, or the first one leaves |
| `QueueMpsc.EmptyIff` | include/lockfree/queue-mpsc.hh:108-111 | between two pops both list heads are null exactly if the queue is empty |
| `QueueMpsc.EmptyDuringPop` | include/lockfree/queue-mpsc.hh:88-104 | a run in which both heads are null during a pop although an item is queued |
| `QueueMpsc.PushAlone` | include/lockfree/queue-mpsc.hh:55-69 | an undisturbed push adds its item at the end |
| `QueueMpsc.PushGoesOn` | include/lockfree/queue-mpsc.hh:55-69 | a push that was disturbed is through when it is not disturbed again |
| `QueueMpsc.PopReturns` | include/lockfree/queue-mpsc.hh:71-106 | pop() returns nothing exactly if the queue is empty; else the oldest item, which is all that leaves, at once or after as many steps as there are items |
| `RwWord.Fields` | core/rwlock.cc:67-72 | the four fields of the lock word do not overlap and come back from a packed word |
| `RwWord.TooManyReaders` | core/rwlock.cc:107-110 | one reader more than the limit carries into the pending-writer bit |
| `RwLockProof.FieldsAreCounts` | core/rwlock.cc:98-319 | owner count, pending count and both writer bits equal the numbers and states of the threads they stand for, and a writer excludes owners |
| `RwLockProof.WriterExcludes` | core/rwlock.cc:160-250 | while a thread holds the lock for writing nobody holds it for reading and no other thread for writing |
| `RwLockProof.AssertsHold` | core/rwlock.cc:84-309 | no assertion of the lock fails below the reader limit |
| `RwLockProof.NoStrandedReader` | core/rwlock.cc:114-138 | a reader that sleeps or is about to has an owner of the writer mutex that is pending, writes or wakes readers |
| `RwLockProof.NoStrandedWriter` | core/rwlock.cc:140-158 | a sleeping writer waits for an owning reader, or for exactly one last reader on its way to wake it |
| `RwLockProof.SingleConsumer` | core/rwlock.cc:252-277 | two threads never pop the queue of pending readers at the same time |
| `RwLockProof.Quiescent` | core/rwlock.cc:78-82 | when all calls have returned and nothing is held the word is zero and the queue empty |
| `RwLockProgress.EveryWaiterIsReachedIff` | core/rwlock.cc:98-309 | every thread inside rlock() or wlock() can be led to the lock by the calls in progress and releases of holders exactly if the lock is not doomed: no reader inside wlock(), no writer inside rlock(), and no reader inside rlock() again while a writer is pending |
| `RwLockProgress.WaiterIsReachedIff` | core/rwlock.cc:98-309 | one waiter is led to the lock exactly if nobody bars it for good and it does not wait for its own release; a reader may still get in before a doomed writer has announced itself |
| `RwLockProgress.LockDrainsIff` | core/rwlock.cc:140-309 | the same moves can lead to a state in which nothing is held and no call is in progress, exactly under the same condition |
| `RwLockProgress.ReaderWaitsForItself` | core/rwlock.cc:203-250 | a run in which a reader calls wlock(), which never returns |
| `RwLockProgress.ReaderWaitsForWriter` | core/rwlock.cc:98-138 | a run in which a reader calls rlock() again under a pending writer; neither call returns |
| `RwLockProgress.WriterWaitsForItself` | core/rwlock.cc:98-138 | a run in which a writer calls rlock(), which never returns |
| `RwLockCalls.CallReturns` | core/rwlock.cc:84-319 | in every run each of the eight calls, when it returns, has changed the caller's read and write holds as it promises and no more; a downgrade() leaves no write hold and one read hold more |
| `RwLockCalls.TryRlockAlone` | core/rwlock.cc:84-96 | with no step of another thread in between, try_rlock() gets the lock exactly if nobody writes or is pending to; else nothing changes; a spurious failure of its compare-and-swap makes no difference |
| `RwLockCalls.RlockAlone` | core/rwlock.cc:98-112 | rlock() returns at once exactly if nobody writes or is pending to |
| `RwLockCalls.TryWlockAlone` | core/rwlock.cc:181-201 | try_wlock() gets the lock exactly if no other thread has the writer mutex and nobody reads or the caller writes already; else nothing changes |
| `RwLockCalls.TryUpgradeAlone` | core/rwlock.cc:160-179 | try_upgrade() turns the caller's read hold into a write hold exactly if no other thread has the writer mutex and it is the only read hold; else nothing changes |
| `RwLockCalls.WlockAlone` | core/rwlock.cc:203-250 | past the writer mutex wlock() returns at once exactly if nobody reads; else it is pending and sleeps |
| `RwLockCalls.NobodyOvertakes` | core/rwlock.cc:252-277 | as long as a pending reader stays queued none queued behind it is served |
| `RwLockCalls.MayCall` | core/rwlock.cc:84-319 | in every state of every run each thread that is outside may make its calls: try_wlock() always, wlock() exactly when no other thread has the writer mutex, releases exactly with something to release |
| `RcuProof.GracePeriod` | core/rcu.cc:114-174 | every read section that was open on any CPU when a callback was queued has ended when the callback runs |
| `RcuProof.ExactlyOnceInOrder` | core/rcu.cc:121-174 | what was deferred on a CPU is, in order, what has run, is running, and waits in the back and the front buffer |
| `RcuProof.FlipsToEmptyBuffer` | core/rcu.cc:121-126 | the buffer that becomes the front one is empty and no buffer overflows |
| `RcuProof.BehindIsAsked` | core/rcu.cc:74-105 | a CPU behind the generation that some thread waits for has its own wake condition true, and if it sleeps somebody is about to wake it |
| `RcuProof.NeverAllAsleep` | core/rcu.cc:150-186 | while a thread sleeps until a grace period ends, the CPU it found behind is awake, or the thread that is about to wake that CPU |
| `RcuProgress.GracePeriodEnds` | core/rcu.cc:114-188 | from every state in which a quiescent-state thread has begun a grace period, ends of read sections and steps of these threads alone lead to a state in which exactly the callbacks that wait for it have run |
| `RcuCalls.DeferQueues` | core/rcu.cc:194-222 | rcu_defer() adds exactly one callback at the end of the front buffer, with the function and the read sections open on every CPU; nothing else changes on any CPU |
| `RcuCalls.DeferredRuns` | core/rcu.cc:225-236 | from every state: after a function is deferred, a wake of the thread, ends of read sections and steps of the quiescent-state threads lead to a state in which the CPU has run all that was queued there before, in order, and then that function, once |
| `RcuCalls.ReaderIsProtected` | core/rcu.cc:114-174 | as long as a read section that was open on any CPU when a function was deferred stays open, the function does not run |
| `RcuCalls.SectionsOpenAndClose` | include/osv/rcu.hh:171-185 | a read section that begins is open, and no other one is the same; one that ends is not |
| `RcuCalls.RoomComes` | core/rcu.cc:121-136 | from every state a wake of the thread and the same moves lead to an empty front buffer, so that a waiting rcu_defer() finds room |
| `RcuCalls.MayCall` | core/rcu.cc:194-222 | in every state of every run a function can be deferred exactly while the front buffer holds less than 2000 |
| `Log2.Ilog2Bounds` | include/osv/ilog2.hh:58-66 | ilog2 is the logarithm rounded down |
| `Log2.RoundupBounds` | include/osv/ilog2.hh:48-56 | ilog2_roundup is the logarithm rounded up |
| `PageHeap.InsertKeeps` | core/mempool.cc:604-620 | listing an isolated range makes exactly its pages free: it is on the list of its order with edge bits and back-pointer, every other range stays maximal and listed |
| `PageHeap.RemoveKeeps` | core/mempool.cc:621-640 | unlisting a range makes exactly its pages used and keeps all other ranges described |
| `PageHeap.UsedPagesIgnored` | core/mempool.cc:604-657 | headers, back-pointers and bits of pages in use never matter, whatever their owners write there |
| `PageHeap.ListedPagesAreFree` | core/mempool.cc:587-601 | the sizes on all lists add up to the number of free pages |
| `PageHeap.CountFill` | core/mempool.cc:709-810 | handing out n free pages lowers the number of free pages by n, so page totals are conserved |
| `PageRanges.PageRangeAllocator.constructor` | core/mempool.cc:555-560 | an allocator without free pages is consistent |
| `PageRanges.PageRangeAllocator.Insert` | core/mempool.cc:604-620 | as `PageHeap.InsertKeeps`, step by step on the fields |
| `PageRanges.PageRangeAllocator.Remove` | core/mempool.cc:633-640 | as `PageHeap.RemoveKeeps`, step by step on the fields |
| `PageRanges.PageRangeAllocator.SetBits` | core/mempool.cc:647-657 | all bits of the range, or those at its two edges, and no others |
| `PageRanges.PageRangeAllocator.Choose` | core/mempool.cc:710-749 | a range is found exactly if there are enough free pages in a row: the size asked for if contiguous, else that size rounded up to its order; it has the least order that surely suffices, is the largest of the huge ones, and has a lower order only if there is no other |
| `PageRanges.PageRangeAllocator.Alloc` | core/mempool.cc:709-762 | null exactly if no free range is large enough; else the low pages of a maximal free range of the least sufficient order, and exactly those become used; the invariant is kept |
| `PageRanges.PageRangeAllocator.AllocAligned` | core/mempool.cc:764-792 | null exactly if no free pages in a row have the wanted aligned offset; else such pages, and exactly those become used: the highest placement in the range that comes first, of the highest order with a placement, the smallest if huge; with `fill` each of them can be freed alone |
| `PageRanges.PageRangeAllocator.FindAligned` | core/mempool.cc:836-852 | the search from huge ranges down to the least order misses no range with an aligned placement, and finds the first of them in that order |
| `PageRanges.PageRangeAllocator.Free` | core/mempool.cc:794-810 | exactly the freed pages become free, merged with both neighbours by means of the edge bits and the back-pointer only |
| `PageRanges.PageRangeAllocator.ClientWrite` | core/mempool.cc:1094-1115 | the owner of a page may overwrite all of it |
| `PageRanges.HandedIsHeld` | core/mempool.cc:1728-1756 | what was handed out may be freed as a whole, or in any pieces if it was filled |
| `PageRanges.AllocKeepsHeld` | core/mempool.cc:709-792 | an allocation never overlaps what somebody holds and leaves it freeable |
| `PageRanges.FreeKeepsHeld` | core/mempool.cc:794-810 | freeing one range leaves all other holdings freeable |
| `PageRanges.HighestPlacement` | core/mempool.cc:769-772 | the shift computed for a range gives its highest aligned placement |
| `Holes.FindHole` | core/mmu.cc:970-1006 | reads past the set exactly if the hint is above every range; else sound and complete over disjoint ranges exactly unless start plus size overflows outside every range; takes the hint if it fits; else the lowest hole, for a large size the lowest on a huge-page boundary, and without one the start of the last gap that has room |
| `Holes.LookAt` | core/mmu.cc:983-997 | one gap: what is returned or kept as a fallback is a hole, a gap passed over has none, and the huge-page subtraction does not underflow |
| `Holes.OverflowingSize` | core/mmu.cc:984-986 | ranges, a hint and a size for which the search returns the hint although no hole exists |
| `Holes.HintAboveAll` | core/mmu.cc:977-982 | the hint 0x700000000000 above the mapped memory: the search reads past the last range |
| `VmaList.IntersectingExact` | core/mmu.cc:907-930 | the slice holds exactly the areas that meet the range |
| `VmaList.OnTheListIff` | core/mmu.cc:908-914 | the search for areas reads past the list exactly for a range that is not empty and starts above the upper edge marker |
| `VmaList.SplitLookup` | core/mmu.cc:1441-1452 | splitting at a page boundary changes nothing about any address |
| `VmaList.SplitExactIff` | core/mmu.cc:1441-1452 | a split keeps list order and every address exactly if the edge is a page boundary or the area is a single page |
| `VmaList.TurnLookup` | core/mmu.cc:946-960 | one turn of the loops of protect() and evacuate(), splits included, changes exactly the addresses of the range up to the next area |
| `TornAreas.ProtectExactIff` | core/mmu.cc:942-962 | what protect() makes of each address is the change of exactly its range if and only if the range does not end inside a page of an area with another permission |
| `TornAreas.TearFirst` | core/mmu.cc:954-955 | the splits at an end inside a page leave two or three overlapping parts, or one that has lost the rest |
| `TornAreas.TearLast` | core/mmu.cc:954-955 | when the loop comes to the last part, that loses what lies behind the page |
| `TornAreas.LoopEnd` | core/mmu.cc:947-961 | after the loop every address has the attributes that the range and the torn area give it |
| `AddrSpace.AddressSpace.constructor` | core/mmu.cc:96-112 | with the two edge markers nothing is mapped |
| `AddrSpace.AddressSpace.Split` | core/mmu.cc:1441-1452 | the list after a split at any edge; at a page boundary list and set of ranges stay disjoint, ordered and mirrored |
| `AddrSpace.AddressSpace.Evacuate` | core/mmu.cc:1008-1028 | for any range of whole pages: exactly its addresses become unmapped, all others keep permission and flags, although the loop splits and erases under its own iterator; it runs off the list exactly if it starts at zero or above the limit, and list and set stay consistent exactly if it also ends below the limit |
| `AddrSpace.AddressSpace.Protect` | core/mmu.cc:942-962 | for any end: the attributes of every address afterwards; exactly the mapped addresses of the range change their permission unless the last area is torn |
| `AddrSpace.AddressSpace.IsMapped` | core/mmu.cc:1242-1256 | yes exactly if the range is not empty and every address in it is mapped, also when its end overflows; reads past the list exactly if it starts above the limit and its end does not overflow |
| `AddrSpace.AddressSpace.Munmap` | core/mmu.cc:1531-1543 | succeeds exactly if the whole range is mapped, and then unmaps exactly it; reads past the list exactly for an address above the limit and an end that does not overflow; else EINVAL; no change without success |
| `AddrSpace.AddressSpace.Mprotect` | core/mmu.cc:1519-1529 | succeeds exactly if the whole range is mapped; then changes exactly the permission of its range if and only if the length is whole pages or the last byte has the permission already; reads past the list exactly for an address above the limit and an end that does not overflow; else ENOMEM; no change without success |
| `AddrSpace.AddressSpace.MapFixed` | core/mmu.cc:1109-1121 | for any range of whole pages: exactly the range gets the new attributes in place of whatever was mapped there; runs off the list exactly if it starts at zero or above the limit; consistent afterwards exactly if it lies between the markers and no linear mapping is in the way; with an overflow a reversed area |
| `AddrSpace.AddressSpace.MapAnywhere` | core/mmu.cc:1101-1121 | for any hint: reads past the set exactly if all ranges start below it; unless the sum overflows, a hole from the hint on if there is one, the hint itself if it is one and else the lowest (for a large size by huge-page boundaries), mapped page by page without touching any other address; in page zero, and then unmapped, exactly if the hint is there and is a hole; with an overflow the hint and a reversed area |
| `AddrSpace.HintInFirstPage` | core/mmu.cc:1101-1121 | the hint 0x800: it is returned, and nothing is mapped there |
| `AddrSpace.HintInPageZero` | core/mmu.cc:984-990 | a hole that starts in page zero reaches down to the hint, as all ranges end on page boundaries |
| `AddrSpace.InsertConsistent` | core/mmu.cc:1113-1118 | an area inserted where it fits keeps the list and the set consistent exactly if it is away from all linear mappings |
| `AddrSpace.EdgesErasedIff` | core/mmu.cc:1008-1024 | an edge marker is among the areas to evacuate, and erased, exactly if the range starts at zero, or ends beyond the limit |
| `AddrSpace.FixedAtZero` | core/mmu.cc:1014-1018 | a fixed mapping at address zero: the marker goes and the iterator is before the list |
| `AddrSpace.FixedOverLimit` | core/mmu.cc:1109-1118 | a fixed mapping over the limit: the upper marker goes |
| `AddrSpace.FixedOverLinear` | core/mmu.cc:1109-1118 | a fixed mapping over the kernel image is listed on top of it |
| `AddrSpace.MunmapAbove` | core/mmu.cc:1531-1539 | munmap() at 0x500000000000 reads past the list |
| `AddrSpace.MprotectAbove` | core/mmu.cc:1519-1526 | mprotect() at 0x500000000000 reads past the list |
| `AddrSpace.StackGuard` | libc/pthread.cc:150-151 | a guard of a 64 KB stack that is not whole pages: nothing is protected, and the stack behind the last page of the guard is not mapped any more |
| `AddrSpace.SmallGuards` | libc/pthread.cc:150-151 | the same at guards of 100 and 5000 bytes |
| `PageTable.SplitLargeSame` | core/mmu.cc:182-191 | a table of small pages translates every page as the huge page did |
| `PageTable.PtIndexOf` | core/mmu.cc:483-485 | the index bits of an address select the entry whose region holds it |
| `PageWalk.MapRange` | core/mmu.cc:402-414 | after a linear, populating or unpopulating walk each page inside the range translates exactly as the operation says and each page outside as before: a populated page has what its own call got, huge or small; an allocating walk covers the range page by page in order; with enough memory every page of the range is mapped |
| `PageWalk.MapLevel` | core/mmu.cc:460-513 | the same for one level, with a missing table allocated and a large entry split |
| `PageWalk.MapEntry` | core/mmu.cc:488-510 | the same for one entry, with the fallback to small pages when a huge page fails |
| `PageWalk.EachPageOnce` | core/mmu.cc:402-513 | calls that cover a range cover each of its pages once and nothing else, with offsets from the start of the area |
| `PageWalk.PopulatedByItsCall` | core/mmu.cc:559-598 | a page that was not mapped has what the one call that covers it got |
| `PageWalk.AllPopulated` | core/mmu.cc:559-598 | after a populating walk a page is unmapped exactly if it was, its small page could not be allocated and no huge page covers it |
| `PageWalk.LinearExactIff` | core/mmu.cc:516-532 | a linear range is mapped to the right places exactly if virtual and physical start agree modulo a huge page or no huge page fits |
| `PageWalk.LinearMisplaced` | core/mmu.cc:516-532 | a range that starts one page off: its huge page goes to the wrong place |
| `Pte.MakePtePermissions` | arch/aarch64/arch-mmu.hh:146-181 | each permission bit is as asked for; every entry is valid, even without any permission |
| `Pte.MakePteNothingElse` | arch/aarch64/arch-mmu.hh:146-181 | no bit of an entry is set besides its address, type, permissions and attributes |
| `Pte.MakePteAddress` | arch/aarch64/arch-mmu.hh:134-159 | an entry is large as asked for and its address comes back, cut to its alignment |
| `Pte.MadeLargeLeaf` | arch/aarch64/arch-mmu.hh:134-159 | a large leaf has no stray address bits |
| `Pte.SplitKeepsPhys` | core/mmu.cc:253-259 | for every address the lookup gives the same physical address before and after the split |
| `Pte.SplitKeepsAttributes` | core/mmu.cc:182-191 | the split keeps every bit that is not address or type |
| `Pte.SplitLargePage` | core/mmu.cc:169-191 | the new table holds one split entry for each index |
| `CpuTime.RecoveredIff` | core/sched.cc:191-224 | a saved time comes back, cut to 1024 ns, exactly if the reference is less than 2^42 ns past it |
| `CpuTime.Thread.Set` | core/sched.cc:183-190 | the estimator gives each of the two times back, cut to 1024 ns, exactly by means of a reference in its window |
| `CpuTime.Thread.Get` | core/sched.cc:191-224 | each of the two times is recovered exactly if its reference is in its window |
| `CpuTime.Thread.SetThenGet` | core/sched.cc:183-224 | what one CPU saves another reads back while both references are in their windows |
| `CpuTime.Thread.RemoteClock` | core/sched.cc:960-969 | the clock of a thread running elsewhere is off by at most 1023 ns |
| `SchedProof.QueuedIffOnRunQueue` | core/sched.cc:564-580 | a thread is queued exactly if it is on a run queue, and that is the one of its CPU |
| `SchedProof.RunningIsCurrent` | core/sched.cc:277-358 | a running thread is the current one of its CPU; a current thread runs, waits, is woken or ends |
| `SchedProof.WakingIffInOneSpot` | core/sched.cc:1249-1280 | a thread is waking exactly if its waker still has it or it is on an incoming queue, and only one of these |
| `SchedProof.WakeupsAreFlagged` | core/sched.cc:542-573 | no incoming queue holds a thread twice, and one that holds any is flagged, being drained, or about to be flagged |
| `SchedProgress.WakingArrives` | core/sched.cc:542-580 | from every state in which a thread is waking, steps of its waker and of its CPU alone lead to a state in which it is queued or runs |
| `SchedProgress.WakeTakesEffect` | core/sched.cc:1249-1257 | wake() on a thread that waits, at whatever point of its code, makes it waking and gives it to the waker; on any other thread it changes nothing |
| `SchedProgress.WakeArrives` | core/sched.cc:1249-1280 | from every state in which a thread waits, wake() and steps of its waker and CPU lead to its being queued or running |
| `SchedProgress.WokenReturns` | core/sched.cc:1402-1428 | and further to its running on its CPU with its wait over |
| `SchedProgress.WaitMakesWay` | core/sched.cc:1402-1407 | a thread that calls wait() without having been woken makes way for another thread and goes on waiting |
| `SchedProgress.PollTakes` | core/sched.cc:491-519 | an idle CPU that polls takes every thread of a flagged queue onto its run queue, as many turns as the queue is long, without leaving its idle thread |
| `SchedProgress.QueuedRuns` | core/sched.cc:345-358 | from every state in which a thread is queued, steps of its CPU alone can lead to its running there |
| `SchedProgress.StartedRuns` | core/sched.cc:1176-1190 | a thread that is started on a CPU can be led to run there |
| `SchedProgress.EndingIsReaped` | core/sched.cc:1431-1468 | from every state in which a thread is ending, steps of its CPU alone lead to its being terminated |
| `SchedProgress.MayAct` | core/sched.cc:1176-1282 | in every state of every run any CPU may wake any thread, and a running thread may wait or end |
| `WakeupIpi.NeverHaltsOverWakeup` | core/sched.cc:482-517 | when the idle CPU has halted with a thread in an incoming queue, the wakeup interrupt is pending or a waker is on its way to send it |
| `WakeupIpi.HaltedIsWoken` | core/sched.cc:1263-1277 | the wakers' calls in progress and the interrupt alone then lead to a state in which the CPU has taken the thread onto its run queue |
| `WakeupIpi.NoThreadLost` | core/sched.cc:542-580 | the number of threads queued as woken or ready to run grows by one with each wakeup, shrinks by one when a thread blocks or ends, and does not change otherwise |
| `SchedProof.SomebodyToRun` | core/sched.cc:345-358 | a CPU whose current thread cannot go on can switch to its idle thread at least |
| `SchedProof.AssertsHold` | core/sched.cc:277-358 | no assertion of switching, waiting, stopping a wait or ending a thread fails, and no thread is found on the queue of another CPU |
| `SchedProof.OnlyDocumentedChanges` | include/osv/sched.hh:795-822 | every step changes the status of each thread only along the documented transitions |
| `SchedProof.TransitionMatrix` | include/osv/sched.hh:795-822 | in every run the status of a thread changes exactly by the events of the documented matrix: each event makes its change, and there is no other |
| `SchedProof.NeverRunsAgain` | core/sched.cc:1431-1468 | a thread that has begun to end stays ended, and once off its CPU never becomes current again |
| `CondvarQueue.Queue.Append` | core/condvar.cc:25-31 | the record joins at the end |
| `CondvarQueue.Queue.Remove` | core/condvar.cc:52-76 | found exactly if the record is queued, and then only it leaves |
| `CondvarQueue.Queue.TakeOldest` | core/condvar.cc:109-115 | the oldest record leaves |
| `CondvarQueue.Queue.TakeAll` | core/condvar.cc:137-145 | all records leave and stay linked in order |
| `CondvarQueue.SendSameCpu` | core/condvar.cc:153-168 | the inner loop sends the records of one CPU in order and leaves the others linked in order, although the link of a record is anything once it is sent |
| `CondvarQueue.SendAll` | core/condvar.cc:146-170 | the loops of wake_all() send the records grouped by CPU, without looking at a record after it is sent |
| `CondvarQueue.GroupedPermutes` | core/condvar.cc:146-170 | every detached record is sent exactly once |
| `CondvarQueue.GroupedKeepsOrder` | core/condvar.cc:146-170 | on each CPU records are sent in the order in which they were queued |
| `CondvarQueue.GroupedTogether` | core/condvar.cc:150-153 | records of one CPU are sent one right after the other |
| `CondvarProof.ReturnsHoldingMutex` | core/condvar.cc:44-97 | a wait returns holding its mutex, with its record in no list, after being sent once, or never if it timed out |
| `CondvarProof.OnePlaceOnly` | core/condvar.cc:25-126 | a record is in the queue, in one detached list or with one mutex, never in two of them |
| `CondvarProof.MissedTimeoutIsWoken` | core/condvar.cc:72-85 | a waiter whose record was gone when it timed out is going to be woken |
| `CondvarProgress.WaiterReturnsIff` | core/condvar.cc:44-97 | sends in progress, grants and unlocks can lead a thread out of wait() exactly if it is in no set of waiting threads each of which sleeps in the queue or waits for a mutex held in the set |
| `CondvarProgress.TakenOffReturns` | core/condvar.cc:72-97 | as long as nobody waits with another mutex in hand, every waiter that does not sleep in the queue returns |
| `CondvarProgress.HeldWhileWaiting` | core/condvar.cc:88-94 | a run in which a waiter that was taken off the queue never returns, as its mutex is held by a thread that waits |
| `CondvarProgress.WakeAllWakesAll` | core/condvar.cc:129-171 | after wake_all() nobody is queued and every thread inside wait() is leaving it; unless somebody waits with a mutex in hand each of them can return |
| `CondvarProgress.WakeOneWakesOldest` | core/condvar.cc:99-127 | after wake_one() exactly the oldest has left the queue for its mutex, the others are queued in their order; unless somebody waits with a mutex in hand it can return |
| `CondvarProgress.WaitQueuesLast` | core/condvar.cc:19-42 | wait() queues its caller behind all others, asleep, and releases exactly its mutex |
| `CondvarProgress.ExpiredReturns` | core/condvar.cc:44-86 | a waiter whose timer expires does not sleep any more, and can return under the same condition |
| `CondvarProgress.NobodyOvertakes` | core/condvar.cc:25-31 | as long as a waiter stays queued one that came after it is behind it |
| `CondvarProgress.MayCall` | core/condvar.cc:19-42 | in every state of every run a thread outside may wait exactly with a mutex it holds, unless another mutex is in use |
| `CondvarProof.WakersKnowMutex` | core/condvar.cc:109-120 | a waker that finds a waiter finds the mutex it waits with |
| `CondvarProof.WokenHoldsMutex` | core/condvar.cc:88-94 | a woken waiter holds the mutex already |
| `CondvarProof.MutexForgottenIff` | core/condvar.cc:32-35 | with nobody waiting, the next wait may use any mutex exactly unless the step of the run that last emptied the queue was a timeout |
| `CondvarProof.StaleMutex` | core/condvar.cc:49-78 | a run after which the assertion about the mutex fails for a new wait |

## Left out

- Memory-order weakening: every atomic operation is sequentially consistent.
- `mutex::send_lock_unless_already_waiting()` and the wait-queue morphing built on it: its early return leaves the count incremented.
- Wrap-around of the 32-bit hand-off sequence number: numbers are unbounded.
- The reader-writer lock and the condition variable take the mutex as an atomic object; its own protocol is `LfMutexProof`. A writer that waits for `_wmtx` has not begun its call; `RwLockProgress.LockDrainsIff` says when the mutex becomes free. `try_wlock()` and `try_upgrade()` fail at once if another thread has it.
- Hot-plugged CPUs and the pointers of the RCU header. `rcu_defer()` is enabled only while there is room; that room comes is `RcuCalls.RoomComes`, but not who of several waiters gets it.
- `initial_add()` growing the bitmap, and allocation for the bitmap itself: the bitmap covers all pages from the start.
- The reclaimer, shrinkers, size-class pools and per-CPU page caches above the page-range allocator.
- Page numbers and sizes of the allocator are unbounded integers; ranges wider than 32 bits of pages are not told apart.
- Which of several ranges of the same order `alloc()` takes.
- AddrSpace.AddressSpace.Evacuate: where the iterator goes from before the list, once the lower edge marker is erased.
- AddrSpace.AddressSpace.Protect: the set of ranges and the order of the list after an area is torn; only what the list says about each address.
- AddrSpace.AddressSpace.MapAnywhere: not for a size of zero, which `mmap()` refuses, and which a length within a page of 2^64 becomes when it is rounded up.
- `advise()`, `depopulate`, `nohugepage`, `msync`, `mincore` and page faults.
- The bytes that `evacuate()` reports and the page-table work of `evacuate()` and `protect()`: the list and the page tables are separate models.
- PageWalk.MapRange: walks with a slop of one page only, and addresses below the 47-bit limit; tables are values, so sharing and freeing of table pages is not modelled.
- A wakeup of a CPU that is busy with other runnable threads gets no interrupt; it waits for the next time slice, and timers are not modelled.
- Races between walkers, TLB flushes, and the walks that change permissions, look up or clean up.
- x86-64 page-table entries, and the bits that AArch64 does not have.
- Priorities, float run-time accounting and timers: a rescheduling CPU may stay or switch to any other queued thread.
- `thread::pin()`/`unpin()`, `unsafe_stop()`, early threads, `wake_lock()` and join: threads stay on the CPU they were started on.
- The order of threads in a run queue.
- Drivers, firmware tables, interrupt controllers, boot, libc, tracing, semaphores and barriers: not part of this model.
