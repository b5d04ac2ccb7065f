# RT-Thread kernel model

A model of the RT-Thread kernel under a drum machine, in the single-CPU build with 32 priorities,
and proofs about it. The modules follow the source files.

- Heaps. `SmallMem` is the small-memory heap (`mem.c`), `MemHeap` the memheap allocator
  (`memheap.c`), `PageList`, `Zones`, `SlabLayout` and `Slab` the slab heap (`slab.c`). `Tiling`
  is the theory of block layouts the first two share.
- IPC (`ipc.c`). `Mutexes`, `Events`, `Mailbox` and `MessageQueue`, on the wait lists of
  `WaitLists` and the queue histories of `DequeHistory`.
- Scheduling. `Scheduler` (`scheduler.c`, `thread.c`) on the ready bitmap of `ReadyGroup`, and
  `RtList`, the circular list under every kernel queue.
- `WorstCaseStack`, the stack analyser of the build tools (`WCS.py`).
- `PrintNumber` and `MemRoutines` (`kservice.c`), and `DrumPattern`, the way from key samples to
  the pattern and its LEDs (`keyboard.c`, `input.c`, `sequencer.c`).
- `Arithmetic`, `Sequences` and `RtConfig` hold what the others share.

What the source updates in place is a class: its fields are the state, and each method is one
operation, or, where threads interleave, one region the kernel runs with interrupts disabled or
one copy it makes unlocked. For the IPC objects and the scheduler a method is proved to be one
step of a state machine. The lemmas about that machine hold for every schedule, and `Run` executes
any schedule through the methods and ends in the state the lemmas speak of. A thread's timer is a
step that may happen whenever it is armed.

What an operation is for is also stated apart from the functions that say how it goes on. The heaps
are judged by the bytes asked for, the mutex by the answers its callers got, the queues by what was
passed to the calls that are under way, the analyser by the tables it is given, and a priority change
or a suspension by the one thread that moves.

Where the code and its documentation differ the model follows the code:

- slab.c:153 promises alignment of all power-of-two allocations. It holds up to the page size, and
  beyond it exactly at suitable pages (`Zones.SmallPowersAligned`, `Zones.BigPowersAligned`); the
  first zone of a small heap is at another (`Zones.OddPageMisaligned`, `Slab.FirstPowerOfTwo`).
- slab.c:154 promises a result for `malloc(0)`; the code returns null, and so does
  `Slab.Heap.Malloc`.
- Looking up a bucket is not idempotent above 15360 bytes (`Zones.Idempotent`).
- Precision zero drops the digits of every number (`PrintNumber.LengthRule`,
  `PrintNumber.ZeroPrecisionDropsDigits`).
- The priority a mutex owner inherits outlives a waiter that times out
  (`Mutexes.TimeoutExact`, `Mutexes.BoostOutlivesWaiter`, `Mutexes.PriorityLent`).
- Receiving before a send and after it can differ for one waiter (`Events.Commute`,
  `Events.OrderMatters`).
- The first-fit search of the small-memory heap skips a free block that fits to the byte and ends
  at the sentinel, and no other with room (`SmallMem.PassedOver`, `SmallMem.RefusedExactly`,
  `SmallMem.WholeHeapRefused`).
- A held button is reported only when another one of its byte changes (`DrumPattern.HeldBit`).
- `rt_schedule` leaves the yield flag set when no thread is ready.
- The descriptor of a freed large slab block keeps its kind.

## Model

| member | source | states |
|---|---|---|
| SmallMem.SmallHeap.constructor | software/rt-thread/src/mem.c:204-257 | A new heap satisfies the heap invariant with one free block from offset 0 to the sentinel and nothing in use. The invariant: the headers tile the region up to the sentinel, every `prev` inverts `next`, no two neighbouring blocks are free, `lfree` is the lowest free block or the sentinel, and `used_mem` is the sum of the used extents. |
| SmallMem.SmallHeap.PlugHoles | software/rt-thread/src/mem.c:156-194 | If the only neighbouring free blocks are the given one and a neighbour of it, coalescing restores the whole invariant, keeps the set of used blocks and changes no byte of their payloads. |
| SmallMem.SameLiveSameHeap | software/rt-thread/src/mem.c:156-615 | Whatever was requested before, two valid heaps of one size with the same blocks in use have the same layout, lowest free block and byte count: freed space is always put together in the one possible way. |
| Tiling.ExtentsAddUp | software/rt-thread/src/mem.c:272-615 | The extents of used and free blocks of any layout add up to the length of the region. |
| SmallMem.SmallHeap.Malloc | software/rt-thread/src/mem.c:272-410 | The result is null, with nothing changed, exactly for a zero request or when no free block has room for it, but for one that ends at the sentinel and would be filled to the last word. Otherwise it is the aligned payload of a block in use that holds the request and is cut to its size if the rest can be a block; it is the first fit, exactly that block becomes used, the invariant holds, the maximum is updated, and every live payload keeps its bytes. |
| SmallMem.MallocServes | software/rt-thread/src/mem.c:272-410 | The same of the outcome for every layout, in terms of the bytes asked for alone: null exactly if no block would do, and otherwise a block of the right size. |
| SmallMem.ReallocServes | software/rt-thread/src/mem.c:421-516 | A non-null result for a null argument or one inside the heap is a block that holds the bytes asked for and is of the right size; null for a non-zero size only if no free block would do. |
| SmallMem.PassedOver | software/rt-thread/src/mem.c:305-311 | A free block with room is passed over by the search if and only if it fits to the byte and ends at the sentinel. |
| SmallMem.RefusedExactly | software/rt-thread/src/mem.c:305-311 | In every layout no block is found for a size if and only if every free block with room is that one block which fits to the byte and ends at the sentinel. |
| SmallMem.WholeHeapRefused | software/rt-thread/src/mem.c:272-410 | A new heap of any size refuses a request for all the bytes it has, although its one block holds them. |
| SmallMem.SmallHeap.Search | software/rt-thread/src/mem.c:305-313 | Starting from `lfree`, the loop stops at the first block of the whole heap that is free, large enough and below the bound, or past the bound if there is none. |
| SmallMem.SmallHeap.Free | software/rt-thread/src/mem.c:552-615 | Freeing a live block removes exactly that block from the used ones, keeps the invariant and the bytes of all other live payloads; null is ignored. |
| SmallMem.SmallHeap.Realloc | software/rt-thread/src/mem.c:421-516 | Each branch does what its tests say (null, zero size, too large, outside the heap, same size, cut in place, move), the result is null only if no free block would do and otherwise holds the bytes asked for, the invariant holds, blocks live before and after keep their bytes, and a non-null result for a live block carries the common prefix of its bytes. |
| SmallMem.SmallHeap.Shrink | software/rt-thread/src/mem.c:469-505 | Cutting a block in place leaves it used with the new size, returns the rest to the free space coalesced, and keeps every live payload. |
| SmallMem.SmallHeap.Move | software/rt-thread/src/mem.c:507-515 | A move allocates first fit, carries the common prefix over and frees the old block; if there is no room nothing changes at all. |
| SmallMem.Conservation | software/rt-thread/src/mem.c:272-615 | In every valid heap `used_mem` plus the extents of the free blocks is the offset of the sentinel. |
| SmallMem.AllocThenFree | software/rt-thread/src/mem.c:272-615 | A block allocated and then freed leaves no trace: layout, lowest free block and byte count are those from before. |
| SmallMem.MallocFree | software/rt-thread/src/mem.c:272-615 | From any valid heap, `rt_malloc` of any size followed by `rt_free` of its result restores the layout, `lfree` and `used_mem` and keeps all live payloads. |
| SmallMem.FreeAll | software/rt-thread/src/mem.c:552-615 | Freeing all live blocks in any order leads back to the single initial free block, with `lfree` at offset 0 and nothing in use. |
| SmallMem.Run | software/rt-thread/src/mem.c:272-615 | After any sequence of malloc, free and realloc requests from a new heap on, each about a payload that is held, the heap is valid, the payloads in use are exactly those handed out and not given back, and used and free bytes fill the heap. |
| MemHeap.Heap.constructor | software/rt-thread/src/memheap.c:90-165 | A new pool satisfies the invariant with one free item. The invariant: the circular item list tiles the pool up to the tail item, the free list holds exactly the free items, once each, no two neighbouring items are free, and `available_size` is the sum of their payloads. |
| MemHeap.Heap.Alloc | software/rt-thread/src/memheap.c:182-336 | Null exactly if the aligned size is not below `available_size` or no item of the free list has room; otherwise the first item of the free list with room is used, split if the rest can hold an item, with the rest at the front of the free list. The block holds the bytes asked for. The invariant and the maximum are kept. |
| MemHeap.AllocServes | software/rt-thread/src/memheap.c:182-336 | In terms of the bytes asked for alone: the payload handed out holds them and is cut to their size if the rest can be an item; and null means that they, rounded up, are no fewer than `available_size` or that no free item has room. |
| MemHeap.ReallocServes | software/rt-thread/src/memheap.c:339-556 | The same of every result of a reallocation to a non-zero size, grown, cut, moved or left alone. |
| MemHeap.Heap.Search | software/rt-thread/src/memheap.c:213-224 | The loop over the free list ends at the first entry with room, or finds that there is none. |
| MemHeap.Heap.Realloc | software/rt-thread/src/memheap.c:339-556 | Each branch does what its tests say (free, allocate, grow into the free right neighbour, move, leave alone, cut) and leaves the free list in exactly the order the code gives it; the invariant holds, a non-null result holds the bytes asked for and for a live block carries the common prefix of its bytes, and the payloads of all other live blocks are untouched. |
| MemHeap.Heap.Grow | software/rt-thread/src/memheap.c:389-462 | Growing in place takes what is needed from the free right neighbour, puts what is left of it at the front of the free list, and keeps the invariant. |
| MemHeap.Heap.Shrink | software/rt-thread/src/memheap.c:492-555 | Cutting a block gives back the rest, merged with a free right neighbour, which leaves the free list while the rest goes to its front; the invariant is kept. |
| MemHeap.Heap.MergeLeft | software/rt-thread/src/memheap.c:608-625 | If the left neighbour is free it takes the freed item over and nothing is left to insert; otherwise the layout is unchanged and the item is still to be inserted. |
| MemHeap.Heap.MergeRight | software/rt-thread/src/memheap.c:627-646 | A free right neighbour is taken over and leaves the free list, after which no two neighbouring items are free. |
| MemHeap.Heap.Free | software/rt-thread/src/memheap.c:559-667 | Freeing removes exactly that block from the used ones and keeps the invariant; the freed item goes to the front of the free list unless its left neighbour takes it over. |
| MemHeap.Conservation | software/rt-thread/src/memheap.c:182-667 | In every valid heap the used blocks, `available_size` and the headers of the free items fill the pool up to the tail item. |
| MemHeap.AllocFree | software/rt-thread/src/memheap.c:182-667 | An allocation and the matching free restore the block layout, `available_size` and the set of free items. |
| MemHeap.Run | software/rt-thread/src/memheap.c:182-667 | After any sequence of alloc, free and realloc requests from a new pool on, each about a payload that is held, the heap is valid, the payloads in use are exactly those handed out and not given back, and no byte of the pool is lost. |
| PageList.Allocator.constructor | software/rt-thread/src/slab.c:327-334 | A new page list is one run of all pages. |
| PageList.Allocator.Alloc | software/rt-thread/src/slab.c:236-270 | Null exactly for zero pages or if no run is long enough; otherwise the first run long enough gives its first pages, exactly these pages are no longer free, and the list stays sorted, disjoint and without touching runs. |
| PageList.Allocator.Free | software/rt-thread/src/slab.c:272-322 | The freed pages join the free ones and the list is again the canonical list of maximal runs, whether they touch the run before, the run behind, both or neither. |
| PageList.CanonicalIsUnique | software/rt-thread/src/slab.c:272-322 | Two address-sorted lists of maximal runs with the same pages are the same list. |
| PageList.AllocFree | software/rt-thread/src/slab.c:236-322 | Allocating pages and freeing them gives back the list from before. |
| PageList.SameFreeSameList | software/rt-thread/src/slab.c:236-322 | Whatever was allocated and freed, page lists with the same free pages are equal. |
| Zones.BestFit | software/rt-thread/src/slab.c:401-459 | Every request below 16384 goes to the bucket with the smallest chunk size of the documented table that holds it. |
| Zones.SameBucketSameSize | software/rt-thread/src/slab.c:401-459 | All requests of one bucket are given the same chunk size. |
| Zones.Idempotent | software/rt-thread/src/slab.c:401-459 | Looking up the chunk size one was given leads to the same bucket if and only if the request is at most 15360. |
| Zones.Geometry | software/rt-thread/src/slab.c:628-646 | In every zone size and for every chunk size it serves, a zone has room for its header and at least two chunks and none reaches past its end. |
| Zones.ChunksApart | software/rt-thread/src/slab.c:628-648 | Chunks of a zone do not overlap. |
| Zones.ChunkInside | software/rt-thread/src/slab.c:628-648 | Every chunk lies in its zone behind the header. |
| Zones.ChunkAligned | software/rt-thread/src/slab.c:631-646 | Within its zone, a chunk whose size is a power of two is aligned to that size. |
| Zones.AlignedIfZoneIs | software/rt-thread/src/slab.c:152-153 | In the address space, a chunk whose size is a power of two is aligned to it if and only if the start of its zone is. |
| Zones.SmallPowersAligned | software/rt-thread/src/slab.c:152 | Chunks of a power of two up to the page size are aligned to their size wherever the zone lies. |
| Zones.BigPowersAligned | software/rt-thread/src/slab.c:153 | From the page size on, a chunk or large block of a power of two is aligned to its size if and only if its zone or first page is at a multiple of its size in pages. |
| Zones.OddPageMisaligned | software/rt-thread/src/slab.c:153 | The documented alignment fails for chunks: a chunk of 8192 bytes in the zone of 8 pages at page 1, where the first zone of a heap of at most 1024 pages lies, is not aligned to 8192. |
| SlabLayout.EachPageOnce | software/rt-thread/src/slab.c:236-904 | Every page is free or in exactly one region (zone in use, spare zone, large block or descriptor table), never both and never in two. |
| SlabLayout.GrantKeeps | software/rt-thread/src/slab.c:494-504 | Making pages just taken off the free list a region of their own keeps the pages partitioned. |
| SlabLayout.ReturnKeeps | software/rt-thread/src/slab.c:795-820 | Giving a whole region back to the free list keeps the pages partitioned. |
| Slab.FreeCount | software/rt-thread/src/slab.c:542-568 | The free count of a zone and its chunks in use add up to its chunks, so it is the maximum exactly if no chunk is in use. |
| Slab.ZoneSize | software/rt-thread/src/slab.c:374-377 | The loop finds the smallest zone size of 32, 64 and 128 KiB for which doubling would reach a 1024th of the heap, or the largest. |
| Slab.InitialSound | software/rt-thread/src/slab.c:344-395 | With the pages partitioned and the first of them set aside for the descriptors, an empty heap satisfies the invariant: free counts right, a zone in its bucket exactly if it has a free chunk, descriptors leading to the right zone or large block. |
| Slab.Heap.constructor | software/rt-thread/src/slab.c:344-395 | A new heap is valid, has handed out nothing and counts nothing; all its pages but those of the descriptors are one free run, and zones are larger than 32 KiB only if they are smaller than a 1024th of it. |
| Slab.Heap.Malloc | software/rt-thread/src/slab.c:478-667 | Null for a zero request; otherwise a block exactly where the code finds it: the first pages of the first run long enough, the next chunk of the first zone of its bucket (fresh room before chunks given back), or the first chunk of the first spare zone or of a new one; and null if and only if there is none of these. Exactly that block is added, of the whole pages or the chunk size the request is given, and `used_mem` and `max_mem` count it. |
| Slab.GivenIs | software/rt-thread/src/slab.c:398-466 | A request below 16384 bytes and below a quarter of a zone is given the smallest chunk of the table that holds it, any other the fewest whole pages. |
| Slab.RefusedExactly | software/rt-thread/src/slab.c:478-667 | A request is refused if and only if nothing can serve it: for a chunk no zone of its size has a free one, no zone is spare and no run of pages is long enough for a new one; otherwise no run is long enough. |
| Slab.Heap.Free | software/rt-thread/src/slab.c:771-904 | Exactly the block at that address is no longer handed out or counted. The pages of a large block are free; a chunk goes to the front of its zone, which goes back into its bucket if it had no free chunk, and, if it has no chunk in use and is not alone in its bucket, leaves the bucket and is kept spare, or its pages are freed if two zones are spare already. |
| Slab.Heap.Realloc | software/rt-thread/src/slab.c:678-735 | Null allocates and size zero frees. A chunk whose size class does not change is left alone; otherwise the block is replaced by a new one where and of the size the request is served, which carries the common prefix of its bytes, or kept if there is nothing to serve it with; all other blocks and their bytes are as before. |
| Slab.StaysInClass | software/rt-thread/src/slab.c:711-717 | A chunk that is the smallest of the table to hold the new size stays where it is. |
| Slab.BlocksApart | software/rt-thread/src/slab.c:478-904 | Blocks handed out and not given back never overlap. |
| Slab.BlockInHeap | software/rt-thread/src/slab.c:478-667 | Every block handed out lies within the heap. |
| Slab.Run | software/rt-thread/src/slab.c:478-904 | After any sequence of malloc, free and realloc requests from a new heap on, each about a block that is held, the heap is valid, what is held is exactly what was handed out, no two held blocks overlap, and `used_mem` is the sum of their sizes. |
| Slab.FirstPowerOfTwo | software/rt-thread/src/slab.c:152-153 | The documented alignment fails for requests: in a new heap of 3 to 1024 pages the first request for 8192 bytes gets the block at page 1, aligned to 8192 if and only if the heap itself begins at an odd page. |
| RtList.ListMemory.Init | software/rt-thread/include/rtservice.h:47-50 | An initialised node is an empty ring, and no other node is touched. |
| RtList.ListMemory.InsertAfter | software/rt-thread/include/rtservice.h:58-65 | Inserting behind a node of a ring gives the ring with the new node at that place, and touches no node outside it. |
| RtList.ListMemory.InsertBefore | software/rt-thread/include/rtservice.h:73-80 | Inserting in front of a node, or of the head, gives the ring with the new node at that place, and touches no node outside it. |
| RtList.ListMemory.Remove | software/rt-thread/include/rtservice.h:86-92 | Removing a node gives the ring without it and leaves the node an empty ring of its own. |
| RtList.ListMemory.IsEmpty | software/rt-thread/include/rtservice.h:98-101 | The test tells exactly whether the ring holds no node. |
| RtList.ListMemory.Len | software/rt-thread/include/rtservice.h:107-118 | The loop counts the nodes of the ring. |
| RtList.RingNeighbours | software/rt-thread/include/rtservice.h:47-92 | In a ring `next` and `prev` are inverse at every place. |
| WaitLists.Suspend | software/rt-thread/src/ipc.c:109-156 | The loop puts a thread at the end of a FIFO list, and in a priority list before the first thread less urgent than it. |
| WaitLists.EnqueuedSorted | software/rt-thread/src/ipc.c:124-149 | A priority list stays sorted and the newcomer stands behind all of its priority. |
| WaitLists.EnqueuedFacts | software/rt-thread/src/ipc.c:109-156 | The list gains exactly the newcomer, still with every thread once. |
| WaitLists.EnqueuedKeeps | software/rt-thread/src/ipc.c:109-156 | The others keep their order whatever the list, and in a FIFO list the newcomer stands last. |
| WaitLists.RousedIs | software/rt-thread/src/ipc.c:178-192 | Resuming makes the thread in front, and nobody else, ready with its timer stopped and everything else as it was. |
| WaitLists.AllFailedIs | software/rt-thread/src/ipc.c:207-236 | Resuming all makes every thread of the list, and nobody else, fail with the error number -RT_ERROR and its timer stopped. |
| WaitLists.Remaining | software/rt-thread/src/ipc.c:2057-2066 | What is left of a timeout and the time elapsed add up to the timeout; nothing is left exactly if as much has elapsed; and waiting for ever stays for ever. |
| Mutexes.Mutex.Take | software/rt-thread/src/ipc.c:893-1038 | One step of the state machine: a nested take counts up to 255 and then fails; a free mutex is owned with the taker's priority recorded; otherwise the taker fails at once or is queued by priority, its timer armed unless it waits for ever, and the owner inherits its priority if more urgent. The invariant holds after it. |
| Mutexes.Mutex.Release | software/rt-thread/src/ipc.c:1076-1184 | One step: a thread that is not the owner is refused; a nested release leaves owner and waiters as they are; the last one restores the recorded priority and, with waiters, makes the first of them the owner at once and lets it go on. The invariant holds after it. |
| Mutexes.HandOverKeeps | software/rt-thread/src/ipc.c:1118-1155 | Handing the mutex directly to the first waiter keeps the whole invariant; the new owner is another thread, so nobody can barge in. |
| Mutexes.FreeOrHeld | software/rt-thread/src/ipc.c:893-1184 | The mutex is either free (value 1, hold 0, nobody waiting) or held (value 0, hold positive), and nobody but the owner holds any of it. |
| Mutexes.ThreadFacts | software/rt-thread/src/ipc.c:893-1184 | Every thread but the owner runs at its own priority and the owner at least as urgently as its own. |
| Mutexes.OwnerMostUrgent | software/rt-thread/src/ipc.c:978-990 | The owner is never less urgent than any waiter, and waiters stand most urgent first and among equals first come first. |
| Mutexes.AlwaysWhole | software/rt-thread/src/ipc.c:893-1184 | The whole invariant holds in the state every schedule of takes, releases, timeouts and continuations leads to. |
| Mutexes.TakesBalance | software/rt-thread/src/ipc.c:893-1184 | In every run the successful takes of a thread less its successful releases, counted from the answers its calls got and with a take that was granted but has not returned, are the hold count if it is the owner and zero if not; so the owner is the one thread with takes left. |
| Mutexes.OwnerLeaves | software/rt-thread/src/ipc.c:1076-1184 | In every run the owner loses the mutex only by a successful release that brings that balance to zero. |
| Mutexes.StepsExact | software/rt-thread/src/ipc.c:893-1184 | Acquiring, queueing and handing over leave the owner at exactly the more urgent of its own priority and the first waiter's. |
| Mutexes.TimeoutExact | software/rt-thread/src/thread.c:874-903 | A timeout leaves it exact if and only if the leaving thread is not the only one the owner has its priority from. |
| Mutexes.ExactWithoutTimeouts | software/rt-thread/src/ipc.c:893-1184 | In every run without timeouts the owner runs exactly at the more urgent of its own priority and the first waiter's. |
| Mutexes.BoostOutlivesWaiter | software/rt-thread/src/ipc.c:978-1021 | With a timeout it need not: after a schedule of three steps the owner, of priority 5, runs at priority 2 with nobody waiting. |
| Mutexes.PriorityLent | software/rt-thread/src/ipc.c:893-1184 | In every run the owner's priority is the most urgent of its own and of those of all threads that have waited since it acquired the mutex, including those that timed out. |
| Mutexes.Run | software/rt-thread/src/ipc.c:893-1184 | The methods, run one by one over any schedule, give exactly the state the lemmas speak of; by the answers they gave, a thread owns the mutex exactly while its takes outnumber its releases, and by as many as it is held; every thread but the owner runs at its own priority, and the owner no less urgently than itself and every waiter. |
| Events.Event.Send | software/rt-thread/src/ipc.c:1427-1516 | One send sets its bits and sweeps the list once in order: a waiter whose condition holds gets its bits, clears them if it asked to, and leaves. Sending nothing is refused. The invariant holds after it. |
| Events.Event.Recv | software/rt-thread/src/ipc.c:1552-1671 | A receive whose condition holds returns the bits of its mask that are set and clears all of its mask if asked to; otherwise it fails at once or joins the list. The invariant holds after it. |
| Events.HoldsIs | software/rt-thread/src/ipc.c:1592-1606 | Waiting for all bits is satisfied exactly if every one of them is set, waiting for any exactly if one is. |
| Events.SendAdds | software/rt-thread/src/ipc.c:1427-1516 | After a send every bit that was set or sent is set, and no other, but for bits that a thread woken by it received and clears. Sending nothing changes nothing. |
| Events.SweepGives | software/rt-thread/src/ipc.c:1453-1506 | A thread woken by a send has received bits it waits for that were set: all of them if it waits for all, otherwise some, and of those nobody cleared every one. A thread that stays on the list is not touched. |
| Events.SweepOrder | software/rt-thread/src/ipc.c:1453-1506 | The threads that stay on the list keep their order. |
| Events.RecvIs | software/rt-thread/src/ipc.c:1552-1671 | A receiver whose condition holds gets the set bits of its mask, cleared from the set if it asks for that; otherwise it fails at once or is suspended with its mask, its flags and its timer. |
| Events.SweepLeavesNone | software/rt-thread/src/ipc.c:1453-1506 | After the sweep of a send no suspended waiter's condition holds, although bits are cleared midway. |
| Events.SweepFrame | software/rt-thread/src/ipc.c:1453-1506 | The sweep changes only threads on the list, and nobody joins it. |
| Events.SweepBlocked | software/rt-thread/src/ipc.c:1453-1506 | The threads that stay on the list are still blocked and those that left it are not. |
| Events.ClearedOnce | software/rt-thread/src/ipc.c:1453-1506 | Bits received by a waiter that clears them are received by no waiter woken after it by the same send. |
| Events.Commute | software/rt-thread/src/ipc.c:1427-1671 | For one waiter, receiving then sending and sending then receiving give the same received bits and the same final set if and only if the condition does not hold before the send, or the send brings no bit it waits for beyond those set and, if it clears, none it waits for at all. |
| Events.OrderMatters | software/rt-thread/src/ipc.c:1427-1671 | They can differ: with bit 0 set, a thread waiting for any of bits 0 and 1, and bit 1 sent, it gets bit 0 alone or both. |
| Events.SweepOfOne | software/rt-thread/src/ipc.c:1453-1506 | For one waiter whose condition does not hold yet, the sweep of a send leaves the set, the list and the received bits that the receive-then-send order describes. |
| Events.AlwaysSound | software/rt-thread/src/ipc.c:1427-1717 | In the state every schedule of sends, receives, timeouts and resets leads to, the list holds exactly the blocked threads once each and no suspended waiter's condition holds. |
| Events.NobodyOverdue | software/rt-thread/src/ipc.c:1427-1717 | In every reachable state a thread is on the list exactly if it is blocked, and then its AND or OR condition does not hold under the current set. |
| Events.CallsAnswered | software/rt-thread/src/ipc.c:1427-1717 | In every run a suspended receiver waits for exactly what it called with, a woken one has received all the bits of its call or some, as it asked, and one that fails has an error number. |
| Events.Event.Reset | software/rt-thread/src/ipc.c:1689-1717 | A reset clears the set and wakes everybody with an error. |
| Events.Run | software/rt-thread/src/ipc.c:1427-1717 | The methods, run one by one over any schedule, give exactly the state the lemmas speak of, in which no suspended thread's condition holds. |
| DequeHistory.Conserved | software/rt-thread/src/ipc.c:1977-2400 | In every history in which receives take the front, each arrival was received once, thrown away by a reset once, or is still queued. |
| DequeHistory.FifoOrder | software/rt-thread/src/ipc.c:1977-2350 | Without urgent sends and resets, what was received followed by what is queued is what arrived, in order. |
| DequeHistory.UrgentOvertakes | software/rt-thread/src/ipc.c:2148-2200 | However many sends follow an urgent one, it stands in front of everything that was queued before it. |
| Mailbox.Box.SendWait | software/rt-thread/src/ipc.c:1977-2104 | The first pass of a send: with a free place the mail is appended and the first suspended receiver woken; otherwise it fails at once or the sender joins its list. The invariant holds after it. |
| Mailbox.Box.SendRetry | software/rt-thread/src/ipc.c:2049-2104 | A woken sender goes round its loop with what is left of its timeout, and may find the mailbox full again. |
| Mailbox.Box.Urgent | software/rt-thread/src/ipc.c:2148-2200 | An urgent mail goes to the front, with the read offset wrapping below zero, or fails if the mailbox is full. |
| Mailbox.Box.Recv | software/rt-thread/src/ipc.c:2222-2350 | The first pass of a receive: it returns the front mail and wakes the first suspended sender, or fails at once, or joins its list. The invariant holds after it. |
| Mailbox.Box.RecvRetry | software/rt-thread/src/ipc.c:2295-2350 | A woken receiver goes round its loop with what is left of its timeout, and may find the mailbox empty again. |
| Mailbox.Box.Reset | software/rt-thread/src/ipc.c:2368-2400 | A reset empties the ring and wakes every waiter with an error. |
| Mailbox.SendPassIs | software/rt-thread/src/ipc.c:2010-2104 | A pass of the send loop appends the mail and wakes the first receiver, or comes back unchanged with an error, or is suspended with its mail and timer, by its place in the list. |
| Mailbox.UrgentPassIs | software/rt-thread/src/ipc.c:2148-2200 | An urgent send puts the mail in front and wakes the first receiver, or changes nothing if the mailbox is full. |
| Mailbox.RecvPassIs | software/rt-thread/src/ipc.c:2255-2350 | A pass of the receive loop takes the front mail and wakes the first sender, or comes back with an error, or is suspended with its timer. |
| Mailbox.ResetIs | software/rt-thread/src/ipc.c:2368-2400 | A reset leaves nothing queued and nobody waiting; every waiter fails with an error and nobody else is touched. |
| Mailbox.IsDeque | software/rt-thread/src/ipc.c:1977-2350 | The write offset is the read offset plus the count modulo the size, and each queued mail stands at its place behind the read offset. |
| Mailbox.RunIsDeque | software/rt-thread/src/ipc.c:1977-2400 | That relation of the offsets to what is queued holds in the state every schedule leads to, for any size. |
| Mailbox.RunConserves | software/rt-thread/src/ipc.c:1977-2400 | In every run each mail sent is received once, thrown away by a reset, or still queued. |
| Mailbox.CallsCarried | software/rt-thread/src/ipc.c:1977-2400 | In every run a suspended or woken sender still has exactly the mail of the call it made last. |
| Mailbox.StoredWhere | software/rt-thread/src/ipc.c:2068-2200 | In every run a send that finds room puts the mail its caller passed behind all that is queued, or in front of all of it if the call is urgent. |
| Mailbox.ArrivalsAreCalls | software/rt-thread/src/ipc.c:1977-2400 | In every run the mails that came in are, one for one and in order, those passed to the calls that found room. |
| Mailbox.NoLostWakeup | software/rt-thread/src/ipc.c:1977-2350 | In every run, while a receiver is suspended at most as many mails are queued as receivers are woken and not yet run, and while a sender is suspended at most as many places are free as senders are woken and not yet run; so once all woken threads have run, waiting receivers imply an empty mailbox and waiting senders a full one. |
| Mailbox.ReceivedInOrder | software/rt-thread/src/ipc.c:1977-2350 | In every run without urgent sends and resets, mails are received in the order they were stored, whoever sends and receives. |
| Mailbox.WaitersInOrder | software/rt-thread/src/ipc.c:109-156 | In every run of a mailbox ordered by priority both wait lists stay in priority order. |
| Mailbox.HandedIsReceived | software/rt-thread/src/ipc.c:2222-2350 | What each step hands to its receiver is exactly what its history counts as received. |
| Mailbox.Run | software/rt-thread/src/ipc.c:1769-2400 | The methods, run one by one over any schedule, give exactly the state the lemmas speak of, and the mails handed to receivers are, in order, the receipts of its history. |
| MessageQueue.Queue.constructor | software/rt-thread/src/ipc.c:2585-2643 | Creating a queue threads all nodes of the pool on the free list. |
| MessageQueue.Queue.SendWait | software/rt-thread/src/ipc.c:2721-2829 | The first region of a send: a message that is too long is refused; otherwise the sender takes a free node, fails at once, or joins its list. The invariant holds after it. |
| MessageQueue.Queue.Urgent | software/rt-thread/src/ipc.c:2930-2964 | The first region of an urgent send takes a free node, to be linked in front, or fails. |
| MessageQueue.Queue.CopyIn | software/rt-thread/src/ipc.c:2831-2834 | The unlocked copy fills the sender's own node with its bytes and nothing else. |
| MessageQueue.Queue.Link | software/rt-thread/src/ipc.c:2836-2879 | The filled node goes behind the tail, or in front for an urgent send, the count grows and the first suspended receiver is woken. |
| MessageQueue.Queue.Recv | software/rt-thread/src/ipc.c:3031-3146 | The first region of a receive: the front node leaves the list and belongs to the receiver, or it fails at once, or joins its list. The invariant holds after it. |
| MessageQueue.Queue.CopyOut | software/rt-thread/src/ipc.c:3148-3149 | The unlocked copy returns exactly as many bytes as were asked for, or a whole message if more were: those of the message the thread took off the queue, in front of stale ones if it is shorter. |
| MessageQueue.Queue.Free | software/rt-thread/src/ipc.c:3151-3178 | The receiver's node goes back to the free list and the first suspended sender is woken. |
| MessageQueue.Queue.Reset | software/rt-thread/src/ipc.c:3196-3244 | A reset wakes every waiter with an error and moves all queued nodes to the free list; nodes being copied stay with their threads. |
| MessageQueue.SendPassIs | software/rt-thread/src/ipc.c:2745-2829 | A pass of the send loop goes on with the first free node and its bytes, or comes back with an error, or is suspended with its bytes and timer. |
| MessageQueue.SendStartIs | software/rt-thread/src/ipc.c:2721-2765 | A send of a message that is too long, or of one that finds no node and may not wait, changes nothing; any other makes a first pass. |
| MessageQueue.UrgentStartIs | software/rt-thread/src/ipc.c:2930-2964 | An urgent send goes on with the first free node as an urgent one, or changes nothing if its message is too long or no node is free. |
| MessageQueue.RecvPassIs | software/rt-thread/src/ipc.c:3060-3146 | A pass of the receive loop goes on with the first message, or comes back with an error, or is suspended with its size and timer. |
| MessageQueue.ResetIs | software/rt-thread/src/ipc.c:3196-3244 | A reset leaves nothing queued and nobody waiting; the queued nodes are free, every waiter fails with an error and nobody else is touched. |
| MessageQueue.Partition | software/rt-thread/src/ipc.c:2721-3244 | Every node is in exactly one place: on the free list, on the message list, or with the one thread copying into or out of it. |
| MessageQueue.NullTogether | software/rt-thread/src/ipc.c:2721-3244 | The head is null exactly if the tail is, exactly if the count is 0, and the count is the number of queued messages. |
| MessageQueue.CountFits | software/rt-thread/src/ipc.c:2851-2860 | A sender about to link its node finds the 16-bit count below its maximum, so the overflow branch is never taken. |
| MessageQueue.Quiescent | software/rt-thread/src/ipc.c:2721-3178 | Once woken threads have run and copies are finished, waiting receivers imply an empty queue and waiting senders a full one without a free node. |
| MessageQueue.NoLostWakeup | software/rt-thread/src/ipc.c:2721-3178 | In every run, while a receiver is suspended at most as many messages are queued as receivers are woken and not yet run, and while a sender is suspended at most as many nodes are free as senders are woken and not yet run; so once woken threads have run and copies are finished, waiting receivers imply an empty queue and waiting senders a full one. |
| MessageQueue.RunCounts | software/rt-thread/src/ipc.c:2721-3244 | In every run both ends are null together, exactly if the count is 0, and the count is the number of queued messages and fits. |
| MessageQueue.RunConserves | software/rt-thread/src/ipc.c:2721-3244 | In every run each message linked is received once, thrown away by a reset, or still queued. |
| MessageQueue.CallsCarried | software/rt-thread/src/ipc.c:2721-3178 | In every run a thread that has started a call and not linked its message yet holds exactly the bytes of the call it made last, as an urgent sender exactly if that call was urgent; a receiver asks for as many bytes as its call. |
| MessageQueue.LinkedWhere | software/rt-thread/src/ipc.c:2836-2984 | In every run a thread that links its message puts the bytes its caller passed behind all that is queued, or in front of all of it if the call was urgent. |
| MessageQueue.ArrivalsAreCalls | software/rt-thread/src/ipc.c:2721-3244 | In every run the messages that came in are, byte for byte and in order, those passed to the calls that linked them. |
| MessageQueue.ReceivedInOrder | software/rt-thread/src/ipc.c:2721-3178 | In every run without urgent sends and resets, messages are taken in the order they were linked, however their copies overlap. |
| MessageQueue.DeliveredToTaker | software/rt-thread/src/ipc.c:3031-3178 | In every run each thread copies out exactly the messages it took off the list, each as long as it asked for, in that order, with at most the one it is still copying outstanding: nobody overwrites a node in flight. |
| MessageQueue.TakingsAreReceipts | software/rt-thread/src/ipc.c:3031-3178 | What a run takes off the list is, in order, what its history counts as received. |
| MessageQueue.Run | software/rt-thread/src/ipc.c:2585-3244 | The methods, run one by one over any schedule, give exactly the state the lemmas speak of, and the bytes given to each receiver are those of the messages it took, exactly as many as it asked for, or a whole message if it asked for more. |
| ReadyGroup.BitmapIsLowest | software/rt-thread/src/kservice.c:1290-1308 | Every entry of the 256-byte table but the first is the lowest set bit of its index. |
| ReadyGroup.FfsIsMinimum | software/rt-thread/src/kservice.c:1320-1334 | For every non-zero word `__rt_ffs` minus one is its lowest set bit. |
| ReadyGroup.FfsIsMostUrgent | software/rt-thread/src/kservice.c:1320-1334 | So it is the most urgent priority in the ready group. |
| Scheduler.Kernel.Placement | software/rt-thread/src/scheduler.c:412-834 | Bit p of the group is set exactly if queue p is not empty; a thread is in queue p exactly if it is ready with priority p, and then once; the current thread is in no queue; only the current thread runs; and the mask of a started thread is the bit of its priority. |
| Scheduler.Kernel.GetHighest | software/rt-thread/src/scheduler.c:157-179 | The lookup returns the first thread of the most urgent non-empty queue. |
| Scheduler.Kernel.InsertThread | software/rt-thread/src/scheduler.c:707-741 | A thread other than the current one joins the end of the queue of its priority, becomes ready, and its bit is set; the current one is only marked running. |
| Scheduler.Kernel.RemoveThread | software/rt-thread/src/scheduler.c:804-834 | A thread leaves its queue, and the bit is cleared exactly if the queue is then empty. |
| Scheduler.Kernel.Schedule | software/rt-thread/src/scheduler.c:412-535 | It stays if the scheduler is locked, if nothing is ready, or if the running thread is more urgent, or as urgent and did not yield; otherwise the first thread of the top queue runs, and a running thread it takes over from joins the end of its queue. The invariant holds after it. |
| Scheduler.ScheduleMoves | software/rt-thread/src/scheduler.c:412-535 | Nothing changes if the scheduler is locked or nothing is ready. A running thread goes on unless a more urgent one is ready, or one as urgent and it asked to yield; then, or if it cannot run, the first of the most urgent queue takes over and the other, if it could run, goes to the end of its queue, with all other threads as before. |
| Scheduler.BeginMoves | software/rt-thread/src/scheduler.c:238-262 | The first thread of the most urgent queue becomes the current one and runs; nobody else changes. |
| Scheduler.MostUrgentRuns | software/rt-thread/src/scheduler.c:412-535 | After an unlocked schedule with something to run, the current thread is running and no ready thread is more urgent. |
| Scheduler.YieldRotates | software/rt-thread/src/thread.c:511-524 | A yield among threads sharing the top priority rotates their line by one. |
| Scheduler.EachRunsOnce | software/rt-thread/src/thread.c:511-524 | With n threads sharing the top priority, all different, n yields run each exactly once in the order of their queue and restore the queue. |
| Scheduler.YieldAlone | software/rt-thread/src/thread.c:511-524 | A yield with only less urgent threads ready changes neither the running thread nor the queues. |
| Scheduler.Kernel.Suspend | software/rt-thread/src/thread.c:782-821 | Only a ready or running thread can be suspended; it leaves its queue and is suspended, nobody else changes state or place, and the invariant holds. |
| Scheduler.Kernel.Resume | software/rt-thread/src/thread.c:831-865 | Only a suspended thread can be resumed; it is ready at the end of its queue, or runs if it is the current one, and nobody else changes state or place. |
| Scheduler.Kernel.Timeout | software/rt-thread/src/thread.c:874-903 | A sleeper whose timer fires is made ready, or runs if it is the current thread, and the scheduler is called. |
| Scheduler.Kernel.ChangePriority | software/rt-thread/src/thread.c:675-712 | The thread has the new priority and its mask; a ready thread stands at the end of the queue of that priority and in no other, nobody else changes state or place, and the current thread and the lock level are as before. |
| Scheduler.ChangeMoves | software/rt-thread/src/thread.c:675-712 | From every placed state a change of priority changes one thread only, its priority and its place: last in the queue of the new priority if it is ready. |
| Scheduler.StopMoves | software/rt-thread/src/thread.c:782-821 | A suspension changes one thread only: its state, and it leaves its queue. |
| Scheduler.ResumeMoves | software/rt-thread/src/thread.c:831-865 | A resumption changes one thread only: its state, and it joins the end of the queue of its priority. |
| Scheduler.ReadiedMoves | software/rt-thread/src/thread.c:318-350 | A start changes one thread only: it has its initial priority and is ready at the end of that queue. |
| Scheduler.Kernel.Startup | software/rt-thread/src/thread.c:318-350 | A new thread gets its initial priority and becomes ready, and the scheduler is called if it was started; it is ready or running afterwards. |
| Scheduler.Kernel.Start | software/rt-thread/src/scheduler.c:238-262 | The scheduler starts with the most urgent ready thread running. |
| Scheduler.Kernel.EnterCritical | software/rt-thread/src/scheduler.c:880-895 | Entering a critical section counts one level and changes nothing else. |
| Scheduler.Kernel.ExitCritical | software/rt-thread/src/scheduler.c:944-969 | The level goes down by one, but not below zero; leaving an inner level changes nothing else, and leaving the last one schedules. |
| Scheduler.SwitchMasks | software/rt-thread/src/scheduler.c:412-535 | Switching threads keeps every started thread's mask the bit of its priority. |
| Scheduler.AlwaysPlaced | software/rt-thread/src/scheduler.c:412-834 | The placement invariant holds in every state any sequence of startup, start, suspend, resume, timeout, priority change, yield, critical sections and schedule leads to. |
| Scheduler.AlwaysUrgent | software/rt-thread/src/scheduler.c:412-535 | In every such state, an unlocked schedule with something to run leaves the current thread running with no ready thread more urgent. |
| Scheduler.Run | software/rt-thread/src/scheduler.c:412-834 | The methods, run one by one over any sequence of operations, only reach states the two lemmas speak of. |
| WorstCaseStack.Analyser.ResolveCalls | software/rt-thread/tools/WCS.py:224-233 | The loop collects exactly the functions that the called names stand for by the tables, a global before a local of the unit, and exactly the names that stand for none. |
| WorstCaseStack.LookupIsRight | software/rt-thread/tools/WCS.py:82-99 | The lookup finds for each name the global of that name, or if there is none the local one of the calling unit, and nothing only if there is neither. |
| WorstCaseStack.ResolvedIsGraph | software/rt-thread/tools/WCS.py:223-242 | So the graph searched is the call graph of the declared functions: their own stack and pointer calls, the functions their names stand for by the tables, and the names that stand for none. |
| WorstCaseStack.Analyser.ResolveAllCalls | software/rt-thread/tools/WCS.py:223-242 | Afterwards every function is linked to exactly its callees and has exactly its own missing names. |
| WorstCaseStack.PointerCallUnbounded | software/rt-thread/tools/WCS.py:259-262 | A function that calls through a pointer is unbounded in the sense of call chains. |
| WorstCaseStack.CycleUnbounded | software/rt-thread/tools/WCS.py:264-267 | A function met again below itself is unbounded. |
| WorstCaseStack.UnboundedCallee | software/rt-thread/tools/WCS.py:269-290 | Conversely, an unbounded function that calls through no pointer has an unbounded callee, so a function all of whose callees are bounded is bounded. |
| WorstCaseStack.WorstOfCallees | software/rt-thread/tools/WCS.py:269-290 | The largest need of any chain from a function is its own stack plus the largest of its callees' worst cases. |
| WorstCaseStack.Analyser.CalcWcs | software/rt-thread/tools/WCS.py:246-290 | From any state of the shared tables with only right entries, the search terminates, records the function, keeps every entry right and changes no entry that was final, and leaves the path as it found it. |
| WorstCaseStack.Analyse | software/rt-thread/tools/WCS.py:223-299 | Whatever order functions are visited in, on the call graph the tables give, each is reported unbounded exactly if a chain of calls reaches a call through a pointer or closes a cycle, otherwise with the largest stack sum over all its chains; and a bounded one gets exactly the unresolved names reachable from it. |
| PrintNumber.DigitsDecode | software/rt-thread/src/kservice.c:576-593 | The digits of every number in base 10 or 16 are not empty and stand for the number. |
| PrintNumber.NoLeadingZero | software/rt-thread/src/kservice.c:576-593 | No positive number is printed with a leading zero. |
| PrintNumber.FitsBuffer | software/rt-thread/src/kservice.c:684-691 | A 32-bit number has at most ten digits, so the 16 places of the buffer are enough. |
| PrintNumber.PrintField | software/rt-thread/src/kservice.c:626-783 | The loops store exactly the field, at its place and nothing at or past `end`, and return the position behind the whole field whatever `end` is. |
| PrintNumber.LengthRule | software/rt-thread/src/kservice.c:626-783 | The field has the length of section 7.21.6.1 of C11, max(width, max(digits, precision) + sign) with no digits for zero at precision zero, if and only if the precision is not zero, or the number is zero and the width at most the sign. |
| PrintNumber.ZeroPrecisionLength | software/rt-thread/src/kservice.c:766-773 | At precision zero the digits are dropped and still counted against the width. |
| PrintNumber.ZeroPrecisionDropsDigits | software/rt-thread/src/kservice.c:766-773 | Seven printed with precision zero comes out as nothing, where C11 asks for one digit. |
| PrintNumber.FieldDecodes | software/rt-thread/src/kservice.c:626-783 | With non-zero precision the field is blanks, sign, digits and blanks, blanks only on the side the alignment asks for. The digits are digits of the base, as many as the number has or the precision asks for, or with zero padding as fill the width. Signed, the sign is a minus exactly if the number is negative and the digits stand for its absolute value; unsigned, they stand for its 32-bit word. This holds for every width, precision and alignment. |
| PrintNumber.TruncatedIsPrefix | software/rt-thread/src/kservice.c:626-783 | Of two calls that print one number into equal buffers with different `end`, the one with less room stores the beginning of what the other stores, leaves everything from its `end` on as it was, and returns the same position. |
| PrintNumber.SkipAtoi | software/rt-thread/src/kservice.c:596-603 | It stops behind the leading digits and returns their value if an int can hold it. |
| PrintNumber.PrintThenRead | software/rt-thread/src/kservice.c:596-783 | Reading back what was printed unsigned in decimal gives the number, for every number an int can hold, whatever non-digit follows. |
| MemRoutines.MemSet | software/rt-thread/src/kservice.c:127-198 | For every alignment and length the word-wise loops write exactly what the byte loop writes. |
| MemRoutines.MemCpy | software/rt-thread/src/kservice.c:211-281 | On regions that do not overlap the word-wise loops copy exactly what the byte loop copies, for every alignment and length. |
| MemRoutines.MemMove | software/rt-thread/src/kservice.c:296-315 | For every overlap the destination holds the old bytes of the source and nothing else changes. |
| MemRoutines.FilledAt | software/rt-thread/src/kservice.c:187-190 | The byte loop of a fill: the byte in the region, the old memory outside. |
| MemRoutines.CopiedAt | software/rt-thread/src/kservice.c:272-273 | The byte loop of a copy: the old source bytes in the region, the old memory outside. |
| DrumPattern.Drum.ParseButtons | software/applications/input/keyboard.c:48-97 | A change of the sample is reported exactly if there is one, with the buttons held in changed bytes, those that went down and those that came up in one 16-bit row each, and no function keys. |
| DrumPattern.HeldBit | software/applications/input/keyboard.c:59-89 | A held button is reported as held if and only if some button of its byte has changed. |
| DrumPattern.Drum.ScanKeys | software/applications/input/input.c:27-50 | One pass of the input task queues exactly the row of a change, or loses it if the queue is full; every press stays accounted for by its step, a waiting event or a lost one. |
| DrumPattern.Drum.StepToggle | software/applications/logic/sequencer.c:65-72 | Exactly the steps whose button went down are flipped. |
| DrumPattern.Drum.LedDataSend | software/applications/logic/sequencer.c:49-63 | The LED bytes are the packed step types, eight to a byte, and the function row is dark. |
| DrumPattern.Drum.DeliverEvent | software/applications/logic/sequencer.c:26-46 | One pass of the sequencer task applies the oldest event and shows the result. |
| DrumPattern.PackedBit | software/applications/logic/sequencer.c:54-62 | A bit of a packed byte is set exactly if its step is simple, so no type spills into a neighbour. |
| DrumPattern.Drum.PatternShown | software/applications/logic/sequencer.c:49-72 | A step is always empty or simple; once the queue is empty it has the parity of its button's presses exactly if an even number of its events was lost; and its LED always shows whether it is simple. |
| DrumPattern.Play | software/applications/input/input.c:27-50 | For any interleaving of the two tasks in which all events are delivered, step k is simple exactly if button k went down an odd number of times, and the LEDs show it. |

## Left out

- Atomicity is taken from the kernel: regions with interrupts disabled, and the semaphores that lock the heaps, run without interruption. In the slab heap the windows between its lock and the page allocator are part of one call.
- Context switches, interrupt nesting and stack checks: a step names the thread that makes it, and any thread inside a call may make the next one.
- Timers: the timer list is not modelled. A timeout is a step that may happen to a thread with an armed timer, and the ticks that elapsed are a parameter.
- Signals, so that a wait is never interrupted with RT_EINTR; hooks, memory tracing, debug output and multi-processor code.
- Semaphores, trytake variants, and creating, deleting and detaching IPC objects: they repeat parts of what is modelled.
- Mutexes.Run: one mutex whose users change no priorities themselves. Release restores the priority recorded by that mutex alone, so with nested mutexes no such law holds.
- Wait lists and ready queues are sequences; that the circular list behaves like one is proved in RtList alone.
- Addresses are offsets from the start of the heap. Requests so large that aligning them wraps a 32-bit word are excluded, and so is a small-memory heap with less than 12 bytes; memory outside the region is not modelled.
- SmallMem.SmallHeap.PlugHoles: the bytes of a header are whatever a store leaves there; only payload bytes are followed. The `prev` link of the sentinel goes stale in the code and is left out of the invariant.
- The item headers of memheap are kept apart from the payload bytes, and the magic word is reduced to its used bit.
- MemHeap.Heap.constructor: the pool is one region; detaching pools and searching several of them is left out.
- The zone headers and page descriptors of the slab heap are kept apart from the payload bytes; the magic word, the bit widths of the descriptors and the bit trick that detects powers of two are left out.
- rt_calloc, rt_malloc_align and the statistics functions of the heaps: easy on top of the operations modelled.
- MessageQueue.Queue.constructor: the message size is not truncated to 16 bits.
- MessageQueue.Queue.CopyOut: bytes behind a message in its node are stale and left unspecified.
- The event objects of `Events` are used only with a wait for all or for any of the bits, as the code asserts.
- Scheduler.Run: time slices, rt_current_priority, thread exit, deletion and the idle thread are left out; that something can always run is a condition of the lemmas.
- WorstCaseStack.Analyse: reading the tool's input files, weak and demangled names and printing are left out; it starts from tables of declared functions.
- PrintNumber.PrintField: the build with precision, without the 0x prefix and with 32-bit longs. The rest of rt_vsnprintf is left out.
- PrintNumber.SkipAtoi: numbers an int cannot hold overflow in C; nothing is said about their value.
- DrumPattern.Drum.ScanKeys: whether the event queue has room is a parameter; the encoder and the shift registers behind the samples are left out.
- Display, audio, drivers, board setup, device and object registries, memory pools and the shell.
