# Memory allocators, slabs, thread kernel and bounded buffer

Dafny models, with proofs, of the parts of a small RISC-V teaching kernel whose correctness is hard to see
from the code: its two memory allocators, the slab layer on one of them, its thread kernel, and the
semaphore-based bounded buffer that its user programs share.

Each part comes in two forms. The code's own form is a class whose fields are updated in place
(`BuddyAllocator`, `FirstFitAllocator`, `KSlab`, `KCache`, `SlabAllocator`, `Machine`, `KList`,
`SharedBuffer`); its methods keep the branches and loops of the source and are proved to do exactly what a
specification function does. The theorems are about those functions, their invariants and whole runs of them.

## Buddy allocator

Offsets run from HEAP_START_ADDR over 2^24 bytes. `Lists` holds the per-order free lists in list order, so
equality of `Lists` is equality down to the order of each list. `WellFormed` says that free and live chunks
together tile the arena with aligned blocks; `Coalesced` says that no two buddies below the top order are both
free, which `alloc` breaks between a split and the recursive call and restores before it returns. In the class,
`memory[a]` is the link word at offset `a`; the lists are threaded through the first words of the free chunks,
and no word inside a chunk that stays live is written.

## First-fit allocator

The free list is address-ordered with 16-byte headers in band. Together with the live blocks it covers the
heap, and it never has two adjacent blocks, so it is the list of the maximal gaps between live blocks.
Round trips, commutation and restoration follow from that canonical form.

## Slabs and caches

`SlabSpec` gives slabs and caches as values: free flags, three occupancy lists, and the history of discarded
slab headers. `SlabSystem` puts a cache and the buddy arena together and `SlabCaches` puts a list of caches over
one arena. Three points of the code are carried through:

- `isHere` claims the address just past the last slot. `free` reaches the owner of a live object exactly when no
  slab searched earlier ends where the object starts (`FreeRoutedExactly`, `KfreeRoutedExactly`). Both conditions can
  fail in states the code gets into: `FreeMisroutes` is a run of one cache, and `KfreeMisroutes` two `kalloc` calls,
  from the initial arena after which a live object is routed to a slab that does not own it. When the object size does
  not divide the slot area this cannot happen inside one cache (`NeverMisrouted`).
- `createSlab` needs three blocks of the arena. `CreateSlabExactly` says when it may fail, and `CacheServed`,
  `AllocOneServed` and `KallocServed` what clients may rely on: as long as some block of 2^22 bytes is wholly free, every
  cache of objects of up to 2^18 bytes and every `kalloc` of up to 2^17 bytes is served.
- `shrink` gives back a slab's flags and slots but never its header; destroying the cache does not find those
  headers either. `Lifetime` and `DestroyKeepsAll` say exactly what stays allocated.

## Thread kernel

A step is one trap: a system call, a timer tick or a console interrupt. A trap that gives up the processor ends
with the dispatch and with everything the resumed thread still does before its own trap returns. `Place`, `Hist`
and `Log` are history that the code does not store; the invariant ties them to queues, flags and values.
`KernelEffects` states what each trap does to every field of every legal state, without the functions `Step` is made of,
and `KernelCounts` counts whole runs from their events: which threads exist, what each semaphore owes whom, what was
printed and accepted. Three laws come with the input that shows why they say no more. The round-robin bound allows one more tick for every
`time_sleep(0)` of the run, and a thread that calls it after every tick keeps the processor (`SleepZeroStarves`). A
semaphore's queue length matches its value exactly when it was opened with less than 2^31 (`OpenBalancedExactly`,
`OpenTooLarge`). Readers get characters in the order they were granted them exactly when no `getchar` of the run takes a
token while a woken reader has not resumed (`ReadersInTurnExactly`); `OvertakingGetchar` is a run in which one does.

## Bounded buffer

Any number of threads run `put`, `get` and `getCnt` and may be preempted between any two statements; a step is
one statement of one thread. `BufferCalls` follows whole calls through runs in which anybody may move in between.
Producers and consumers can deadlock each other exactly when the buffer was made with
capacity 0 (`MixedDeadlockExactly`).

## Model

| member | source | states |
|---|---|---|
| `BuddyTheorems.RunComplete` | src/kbuddyAllocator.cpp:12-86 | after any run from the initial state the free lists hold exactly the maximal wholly free blocks, and a request fails exactly when it exceeds 2^24 or no aligned block of its rounded order is wholly free |
| `BuddyTheorems.RequestComplete` | src/kbuddyAllocator.cpp:12-44 | in any coalesced state a request changes nothing exactly when it is too large or no aligned block of its order is wholly free |
| `BuddyTheorems.AllocComplete` | src/kbuddyAllocator.cpp:21-43 | allocation at an order returns null exactly when every aligned block of that order touches a live chunk |
| `BuddyTheorems.WhollyFreeInOneChunk` | src/kbuddyAllocator.cpp:63-85 | maximal coalescing and tiling put every wholly free aligned block inside a single free chunk |
| `BuddyTheorems.FreeSetDetermined` | src/kbuddyAllocator.cpp:27-41 | two coalesced states with the same live chunks have the same free chunks, namely the maximal wholly free blocks |
| `BuddyTheorems.FreesCommute` | src/kbuddyAllocator.cpp:63-85 | two releases in either order leave the same free chunks |
| `BuddyTheorems.FreeAllRestoresInit` | src/kbuddyAllocator.cpp:46-86 | releasing every live chunk, in any order, leaves the lists the program starts with: only offset 0 at order 24 |
| `BuddyTheorems.AllocFreeRoundTrip` | src/kbuddyAllocator.cpp:12-86 | releasing what was just allocated restores every list including its order, however many splits happened |
| `BuddyTheorems.RunInvariant` | src/kbuddyAllocator.cpp:12-86 | tiling and maximal coalescing hold after every run of requests and releases of live chunks |
| `BuddyTheorems.OrderIsLeast` | src/kbuddyAllocator.cpp:14-20 | the rounding loop stops at the least order of at least one page whose blocks hold the request, and within order 24 exactly for requests of at most 2^24 |
| `BuddyInvariant.AllocKeeps` | src/kbuddyAllocator.cpp:12-44 | a successful allocation adds one chunk that was not live and free and live chunks still tile the arena; a failed one changes nothing |
| `BuddyInvariant.AllocIsCarve` | src/kbuddyAllocator.cpp:27-41 | all the recursive splits together carve the requested block off the head of the first non-empty list, one free half per order |
| `BuddyInvariant.AllocCoalesced` | src/kbuddyAllocator.cpp:27-41 | although each split leaves two free buddies, a completed allocation leaves none |
| `BuddyInvariant.FreeKeeps` | src/kbuddyAllocator.cpp:46-86 | a release, however far it merges, takes exactly the released chunk out of the live set and keeps the tiling |
| `BuddyInvariant.FreeCoalesced` | src/kbuddyAllocator.cpp:70-85 | the recursive merge restores maximal coalescing |
| `BuddyInvariant.InitKeeps` | src/kbuddyAllocator.cpp:4-10 | the initial lists tile the arena with one free chunk and are coalesced |
| `BuddyLinks.LinkSplit` | src/kbuddyAllocator.cpp:30-37 | the four assignments of a split represent the lists with the head replaced by its two halves |
| `BuddyLinks.LinkUnlist` | src/kbuddyAllocator.cpp:74-78 | unlinking through the head or through the predecessor word represents the list without the buddy |
| `BuddyLinks.ClientWritesKeepLinks` | src/kbuddyAllocator.cpp:21-39 | whatever clients write inside live chunks, the words in free memory still represent the same lists |
| `Blocks.BuddyHalves` | src/kbuddyAllocator.cpp:63-69 | the computed buddy and the chunk are the two halves of the parent, and the buddy of the buddy is the chunk |
| `BuddyAllocation.BuddyAllocator.constructor` | src/kbuddyAllocator.cpp:4-10 | the initial array and word represent one free chunk of order 24 with nothing live |
| `BuddyAllocation.BuddyAllocator.Alloc` | src/kbuddyAllocator.cpp:12-44 | does to the linked lists what the specification does, makes exactly the returned chunk live, keeps coalescing, fails exactly when no block is wholly free, and writes no word of a live chunk |
| `BuddyAllocation.BuddyAllocator.Split` | src/kbuddyAllocator.cpp:28-37 | the head of a list becomes two buddies one order down, in the order the code links them |
| `BuddyAllocation.BuddyAllocator.Find` | src/kbuddyAllocator.cpp:70-83 | the list walk finds the buddy with its predecessor exactly when it is on the list |
| `BuddyAllocation.BuddyAllocator.Free` | src/kbuddyAllocator.cpp:46-86 | does to the linked lists what the recursive merge does, takes exactly the chunk out of the live set, and writes no word of a chunk that stays live |
| `FirstFitTheorems.FreeListIsMaximalGaps` | src/kmemoryAllocator.cpp:44-76 | a block is on the free list exactly when it is a maximal gap between live blocks |
| `FirstFitTheorems.Canonical` | src/kmemoryAllocator.cpp:44-76 | the free list, order and sizes included, is determined by the live blocks |
| `FirstFitTheorems.AllocFreeRoundTrip` | src/kmemoryAllocator.cpp:14-76 | freeing what was just allocated gives back the identical free list, whether the block was split or taken whole |
| `FirstFitTheorems.FreesCommute` | src/kmemoryAllocator.cpp:54-76 | any two releases commute down to the identical list |
| `FirstFitTheorems.FreeAllRestoresInit` | src/kmemoryAllocator.cpp:6-12 | freeing every live block in any order restores the list that init built |
| `FirstFitTheorems.AllocFailsExactly` | src/kmemoryAllocator.cpp:20-41 | a request fails exactly when no contiguous run of non-live bytes holds it together with a header |
| `FirstFitTheorems.AllocLowest` | src/kmemoryAllocator.cpp:20-41 | the block handed out starts at the lowest address at which the request fits together with its header, and is larger than asked for only when it is a whole gap |
| `FirstFitTheorems.Conservation` | src/kmemoryAllocator.cpp:78-82 | free bytes, live bytes and one header per block always add up to the heap |
| `FirstFitTheorems.AllocKeeps` | src/kmemoryAllocator.cpp:14-42 | allocation adds one block disjoint from all live ones and keeps the list sorted, separated and complementary to the live blocks |
| `FirstFitTheorems.FreeKeeps` | src/kmemoryAllocator.cpp:54-76 | a release takes exactly the block out of the live set and keeps the list sorted, separated and complementary |
| `FirstFitTheorems.FreeSeparated` | src/kmemoryAllocator.cpp:44-52 | joining after and then before leaves no two adjacent free blocks |
| `FirstFitTheorems.AllocBytes` | src/kmemoryAllocator.cpp:21-37 | the bytes handed out, and only those, stop being free; the block has at least the bytes asked for and less than a header more |
| `FirstFitTheorems.FreeBytes` | src/kmemoryAllocator.cpp:54-76 | the freed bytes, and only those, become free |
| `FirstFitAllocation.ClientWritesKeepHeaders` | src/kmemoryAllocator.cpp:20-76 | whatever clients write behind the headers of live blocks, list and headers stay intact |
| `FirstFitAllocation.FirstFitAllocator.constructor` | src/kmemoryAllocator.cpp:6-12 | the heap starts as one free block |
| `FirstFitAllocation.FirstFitAllocator.MemAlloc` | src/kmemoryAllocator.cpp:14-42 | with w the greater of blocks and 1: fails exactly when no free run holds 64w bytes and a header; else returns the address behind the header of a new live block of at least 64w and less than 64w + 16 bytes, at the lowest address where it fits; relinks the headers and writes no byte handed to a client |
| `FirstFitAllocation.FirstFitAllocator.TryToJoinAt` | src/kmemoryAllocator.cpp:44-52 | merges a block with its successor exactly when they touch and reports whether it did |
| `FirstFitAllocation.FirstFitAllocator.FindBelow` | src/kmemoryAllocator.cpp:57-63 | finds the last free block below the freed address |
| `FirstFitAllocation.FirstFitAllocator.MemFree` | src/kmemoryAllocator.cpp:54-76 | relinks and joins the headers as specified, takes exactly the block out of the live set, and writes no byte of a block that stays live |
| `FirstFitAllocation.FirstFitAllocator.CheckSize` | src/kmemoryAllocator.cpp:78-82 | returns the free bytes, which with one header per free block and the live blocks make up the heap |
| `SlabTheorems.AllocRefines` | src/kCache.cpp:37-64 | alloc from the slabs at hand gives out an address that was not live and makes exactly that one live; every slab stays on the list of its occupancy, at most one is empty |
| `SlabTheorems.AdoptRefines` | src/kCache.cpp:65-79 | alloc with a new slab makes exactly the first slot of it live and files the slab by occupancy, one-slot slabs included |
| `SlabTheorems.FreeRefines` | src/kCache.cpp:82-117 | free of a live object that routes to its owner removes exactly that object and keeps every slab on the list of its occupancy |
| `SlabTheorems.FreeRoutedExactly` | src/kCache.cpp:85-116 | the search comes to the owner of a live object exactly when no slab searched before it ends where the object starts; always when the slots do not fill the slot area |
| `SlabTheorems.WrongClaim` | src/kSlab.cpp:54-57 | another slab of the cache claims a live object exactly when it ends where the object starts, which needs the slots to fill the area |
| `SlabWitnesses.FreeMisroutes` | src/kSlab.cpp:54-57 | from the initial arena, a legal run of a new cache of 2^15-byte objects after which the search for a live object comes to a slab that ends where it starts; the run also leaves a discarded header |
| `SlabWitnesses.KfreeMisroutes` | src/slabAllocator.cpp:81-90 | from the initial arena, after kalloc of 2^15 and of 2^13 bytes, kfree of the first object comes to the second cache |
| `SlabTheorems.FreeOrderly` | src/kCache.cpp:82-117 | free of any address inside a slot, live or not, keeps the lists in order |
| `SlabTheorems.FreeAnywhere` | src/kCache.cpp:82-117 | free of any address inside a slot: the object that goes is the one the address points into in the first slab that claims it; none goes when the slot is free already (status 1) or no slab claims it (-1) |
| `SlabTheorems.StatusCases` | src/kCache.cpp:82-117 | -1 exactly when no full or half-full slab claims the address, and then nothing is refiled |
| `SlabTheorems.ShrinkKeeps` | src/kCache.cpp:182-192 | shrink leaves the first empty slab alone, the other lists as they are, and every live object |
| `SlabTheorems.TakeUses` | src/kSlab.cpp:25-35 | taking a slot makes exactly its address live, an address that was not, and lowers the free count by one |
| `SlabTheorems.GiveFrees` | src/kSlab.cpp:37-44 | giving a slot back makes exactly its address not live and raises the free count by one |
| `SlabSpec.CountBounds` | src/kSlab.cpp:25-35 | the free count is zero exactly when no flag is free, full exactly when all are, and positive exactly when the search finds a slot |
| `SlabPages.SlotsFillChunk` | src/kSlab.cpp:16 | the request for the slots of a slab rounds to exactly the chosen slot area |
| `SlabPages.ChunkCount` | src/kCache.cpp:17-35 | a cache holds three chunks per listed slab and one per discarded one |
| `SlabPages.AllocChunks` | src/kCache.cpp:37-64 | alloc from the slabs at hand changes no chunk |
| `SlabPages.ShrinkChunks` | src/kCache.cpp:182-192 | shrink gives back two chunks a slab and keeps the header |
| `SlabSystem.RequestKeeps` | src/kbuddyAllocator.cpp:12-86 | a successful request makes one new chunk live, and releasing it undoes the request down to list order |
| `SlabSystem.CreateSlabKeeps` | src/kSlab.cpp:3-23 | a created slab takes three chunks that were not live and has all slots free; a refused one leaves the arena exactly as it was |
| `SlabServes.CreateSlabExactly` | src/kSlab.cpp:3-23 | createSlab fails exactly when one of its requests in turn (40 bytes, 4 bytes a slot, the slots) exceeds 2^24 or finds no wholly free aligned block of its order |
| `SlabServes.CreateSlabServed` | src/kSlab.cpp:3-23 | it succeeds whenever some wholly free block is so large that each of the three requests takes at most a quarter of it |
| `SlabSystem.AllocOneKeeps` | src/kCache.cpp:37-80 | alloc gives out an address that was not live, takes chunks from no one else, and fails without any effect |
| `SlabServes.AllocOneExactly` | src/kCache.cpp:37-80 | alloc fails exactly when every slot of every slab is in use and no slab can be made; while a slot is free it asks for no memory |
| `SlabServes.AllocTakesFirst` | src/kCache.cpp:37-64 | the address is the first free slot of the first half-full slab, or of the empty one when none is half-full |
| `SlabServes.AllocOneServed` | src/kCache.cpp:37-80 | objects of up to 2^18 bytes are served as long as a block of 2^22 bytes is wholly free |
| `SlabServes.NewCacheServed` | src/kCache.cpp:17-35 | a new cache has an empty slab exactly when one can be made, and exactly then its first alloc succeeds, without a request |
| `SlabServes.CacheServed` | src/kCache.cpp:17-80 | while a block of 2^22 bytes is wholly free, a cache of any object size up to 2^18 is made with an empty slab and serves its first alloc |
| `SlabServes.WholeArena` | src/kbuddyAllocator.cpp:4-10 | the arena the program starts with is such a block |
| `SlabSystem.FreeOneKeeps` | src/kCache.cpp:82-117 | free makes exactly the object not live and gives back only chunks of the cache |
| `SlabSystem.RoutedFree` | src/kCache.cpp:82-117 | free of a live object that routes to its owner is allowed, returns 0 and makes exactly it not live |
| `SlabSystem.FreeOneOrderly` | src/kCache.cpp:82-117 | free of any address in a slot keeps the cache in order over the arena and no one else loses a chunk |
| `SlabSystem.NeverMisrouted` | src/kSlab.cpp:54-57 | when the object size does not divide the slot area, free reaches the owner of every live object of the cache |
| `SlabSystem.TurnKeeps` | src/kCache.cpp:182-192 | one turn of the shrink loop finds the slab it takes apart in live chunks and keeps the accounting |
| `SlabSystem.DestroyAllKeeps` | src/kCache.cpp:119-148 | destroying slabs one after another gives back exactly their chunks |
| `SlabRuns.RunKeeps` | src/kCache.cpp:37-117 | over any run of alloc, free and shrink the live objects are exactly what the client holds, and no one else loses or gains a chunk |
| `SlabRuns.Lifetime` | src/kCache.cpp:17-149 | from creation on a cache holds one chunk, three a slab and one a discarded slab; destroying it leaves only the discarded headers, and with none discarded the free memory is what it was before creation |
| `SlabRuns.NewCacheKeeps` | src/kCache.cpp:17-35 | a new cache has no live object, with or without its first slab |
| `SlabRuns.DestroyKeeps` | src/kCache.cpp:119-149 | destroyCache gives back every chunk of the cache but the discarded headers |
| `SlabCaches.KallocRefines` | src/slabAllocator.cpp:20-79 | kalloc keeps every cache of the list in order and makes live exactly the address it returns, which no cache had live |
| `SlabCaches.KfreeRefines` | src/slabAllocator.cpp:81-90 | kfree under its side condition keeps every cache in order and makes exactly the address not live |
| `SlabCaches.KfreeRoutedExactly` | src/slabAllocator.cpp:81-90 | kfree comes to the cache that owns a live object exactly when no slab searched in an earlier cache ends where the object starts |
| `SlabCaches.LiveInOne` | src/slabAllocator.cpp:81-90 | caches of one arena have no live object in common |
| `SlabCaches.ObjectsApart` | src/slabAllocator.cpp:20-90 | no two live objects of any caches of the list share a byte |
| `SlabCaches.ObjectInChunk` | src/kSlab.cpp:25-35 | a live object lies inside the slot area of one slab, which is one live chunk |
| `SlabCaches.KallocSize` | src/slabAllocator.cpp:20-79 | what kalloc returns is an object of at least the bytes asked for |
| `KallocServes.KallocExactly` | src/slabAllocator.cpp:20-79 | fails exactly above 2^17 bytes and when the class cannot be served; with a cache of the class the list keeps its length and only the first such cache changes, else at most one cache is added |
| `KallocServes.KallocServed` | src/slabAllocator.cpp:20-79 | every request of up to 2^17 bytes is served while a block of 2^22 bytes is wholly free |
| `SlabCaches.KfreeReaches` | src/slabAllocator.cpp:81-90 | kfree of an object that routes to its owner is allowed and makes exactly it not live |
| `SlabHeaps.RunFromEmpty` | src/slabAllocator.cpp:20-125 | over any run of kalloc, kfree, cache creation, use and destruction: all caches in order, live objects exactly those clients hold, live chunks exactly those of before, of the caches and the lost headers; nothing left and nothing lost means the free memory of before |
| `SlabHeaps.OrderForOptimal` | src/kCache.cpp:3-15 | every object of up to 2^18 bytes has a slab size that is the smallest of those that waste the least |
| `SlabHeaps.CreateExactly` | src/slabAllocator.cpp:119-125 | createCache adds a cache at the head exactly when its header finds room, with a first slab exactly when that does |
| `SlabCaches.WorkKeepsAll` | src/slabAllocator.cpp:28-31 | work of one cache keeps every other cache of the list in order |
| `SlabCaches.CreateKeepsAll` | src/slabAllocator.cpp:119-125 | a new cache at the head of the list holds chunks no other cache holds |
| `SlabCaches.DestroyKeepsAll` | src/slabAllocator.cpp:96-117 | destroying a cache of the list keeps the others in order and gives back all it held, its header included, but the discarded slab headers |
| `SlabCaches.ClassIsLeast` | src/slabAllocator.cpp:21-27 | requests of up to 2^17 bytes get the least power of two from 2^5 that holds them, at most 2^17 |
| `SlabCaches.ClassFillsChunk` | src/slabAllocator.cpp:33-72 | slabs of the size classes fill their slot areas exactly, of one page or of one object |
| `SlabAllocation.KSlab.CreateSlab` | src/kSlab.cpp:3-23 | takes header, flags and slots from the buddy allocator, or leaves its lists exactly as they were; null exactly when one of the three requests finds no room |
| `SlabAllocation.KSlab.Alloc` | src/kSlab.cpp:25-35 | marks the first free slot and returns its address; nothing when full |
| `SlabAllocation.KSlab.Free` | src/kSlab.cpp:37-44 | marks the slot the address lies in free: -1 when not here, 1 when free already, 0 otherwise |
| `SlabAllocation.KSlab.DestroySlab` | src/kSlab.cpp:46-52 | releases slots and flags but not the header |
| `CacheAllocation.KCache.FindOptimalSlabSize` | src/kCache.cpp:3-15 | returns the smallest power of two from 2^12 to 2^18 that wastes the least among those that hold an object, and 2^18 when none does |
| `CacheAllocation.KCache.CreateCache` | src/kCache.cpp:17-35 | null without effect exactly when the header finds no room, else a cache in order with one empty slab exactly when that finds room |
| `CacheAllocation.KCache.Alloc` | src/kCache.cpp:37-80 | relinks the lists and marks the slot in place as specified, and keeps the cache in order; fails exactly when every slot is in use and no slab can be made |
| `CacheAllocation.KCache.Free` | src/kCache.cpp:82-117 | searches the full slabs, then the half-full ones, and relinks in place as specified; -1 without effect exactly when none claims the address; a live object that routes to its owner is gone afterwards, and nothing else |
| `CacheAllocation.KCache.Shrink` | src/kCache.cpp:182-192 | takes apart all empty slabs but the first |
| `CacheAllocation.KCache.DestroyCache` | src/kCache.cpp:119-149 | empties the three lists and leaves live what was not the cache's and the discarded headers |
| `CacheAllocation.KCache.IsInCache` | src/kCache.cpp:151-156 | true exactly when a full or half-full slab claims the address |
| `CacheListAllocation.SlabAllocator.CreateCache` | src/slabAllocator.cpp:119-125 | puts the new cache at the head of the list, or changes nothing |
| `CacheListAllocation.SlabAllocator.DestroyCache` | src/slabAllocator.cpp:96-117 | unlinks the cache if it is listed and leaves live what it did not hold and its discarded slab headers |
| `CacheListAllocation.SlabAllocator.KallocRequest` | src/slabAllocator.cpp:20-79 | serves from the first cache of the size class or from a new one, keeps every cache in order, fails exactly when the class cannot be served, and makes live exactly the address it returns |
| `CacheListAllocation.SlabAllocator.KfreeRequest` | src/slabAllocator.cpp:81-90 | frees in the first cache that claims the address: 0 when there is one, -1 otherwise; a live object that routes to its owner is gone afterwards, and nothing else |
| `KernelSteps.StepKeeps` | src/supervisorTrapHandler.cpp:47-138 | every trap keeps the kernel invariant |
| `KernelTheorems.RunKeeps` | src/supervisorTrapHandler.cpp:47-138 | the invariant holds after every legal run |
| `KernelTheorems.LocationInvariant` | src/ktcb.cpp:42-58 | in every reachable state each unfinished thread is in exactly one place and once there, the running thread is not marked blocked, and dispatch finds a thread |
| `KernelTheorems.Located` | src/ksemaphore.cpp:37-60 | an unfinished thread is exactly one of running, ready, queued on one semaphore, asleep or not yet started; a finished one is nowhere |
| `KernelEffects.StepEffect` | src/supervisorTrapHandler.cpp:47-138 | every trap of every legal state that keeps the invariant, field by field: running and ready threads, kTCBs, semaphores, sleepers, slice, results, characters (`Effect`) |
| `KernelEffects.ExitEffect` | src/ktcb.cpp:42-58 | the running thread loses its kTCB and is on no queue, the head of the ready queue runs, every other thread keeps its kTCB |
| `KernelEffects.SignalEffect` | src/ksemaphore.cpp:18-24 | the value rises by one, and exactly when the queue is not empty its head moves to the end of the ready queue with the blocked flag clear |
| `KernelEffects.WaitEffect` | src/ksemaphore.cpp:6-16 | the value falls by one, and exactly when it was not positive the caller joins the end of the queue and the head of the ready queue runs |
| `KernelEffects.CloseEffect` | src/ksemaphore.cpp:37-47 | the semaphore is gone and its waiters are ready in order, still marked blocked |
| `KernelEffects.StartEffect` | src/ktcb.cpp:105-112 | a thread not yet started becomes the last ready one |
| `KernelEffects.SleepEffect` | src/ktimeSleepQueue.cpp:7-19 | the slice starts anew; a positive time puts the caller at the front of the sleep queue |
| `KernelEffects.YieldEffect` | src/supervisorTrapHandler.cpp:57-61 | the slice starts anew and the caller goes behind all ready threads |
| `KernelEffects.TickEffect` | src/supervisorTrapHandler.cpp:127-138 | sleepers whose time ends become ready, and exactly at the slice limit the running thread goes behind them |
| `KernelEffects.HandleEffect` | src/kconsole.cpp:23-40 | as many characters as the input buffer has room for are accepted, each waking the reader that has waited longest, and printed characters go out in order as often as the device can transmit |
| `KernelEffects.PutcharEffect` | src/kconsole.cpp:15-21 | the character is dropped exactly when 1024 are waiting to go out, else printed before the device is served |
| `KernelCounts.ThreadsOfRun` | src/ktcb.cpp:17-73 | over any run, which threads exist is what their creations and exits in the run, one after the other, make it |
| `KernelCounts.ExitedIsGone` | src/ktcb.cpp:50-73 | a thread that has exited has no kTCB, does not run and is on no queue after any further run, until one is created with its identity |
| `KernelCounts.SemaphoreCalls` | src/ksemaphore.cpp:6-47 | every open semaphore in every reachable state, counted from the calls of the run since it was opened: value = opening value + signals - waits, and the queue is the waits but the first (opening value + signals), in the order of the calls |
| `KernelCounts.SemaphoreCounting` | src/ksemaphore.cpp:6-24 | queue length is max(0, -value), grants are min(waits, opening value + signals) and go in arrival order, and unblock never dequeues null; the waits and signals are the calls of the run since the opening |
| `KernelCounts.ConsoleOfRun` | src/kconsole.cpp:15-40 | over any run, what was printed and accepted are the characters of the putchar calls and of the device, in order, less those that found their buffer full |
| `KernelTheorems.OpenBalancedExactly` | src/ksemaphore.cpp:26-35 | an opening value keeps the queue-length law exactly when it is below 2^31 |
| `KernelTheorems.OpenTooLarge` | src/ksemaphore.cpp:18-22 | opened with 2^31, the first signal would dequeue a null thread |
| `KernelWaits.WaitOutcome` | src/ksemaphore.cpp:6-16 | a wait that blocked returns -1 exactly when its semaphore was closed while the thread was queued on it, else 0 |
| `KernelWaits.ReadyOutcome` | src/ksemaphore.cpp:11-15 | a released or woken thread returns -1 exactly when it was released by a close |
| `KernelWaits.InsideWaitStep` | src/ksemaphore.cpp:37-60 | a thread inside a wait stays as it is until it is woken, released or dispatched to |
| `KernelSchedule.RunsAfterDispatches` | src/ktcb.cpp:42-48 | a thread at index p of the ready queue moves up with every dispatch and runs with exactly the (p + 1)-st |
| `KernelSchedule.RoundRobinBound` | src/supervisorTrapHandler.cpp:127-138 | a thread at index p of the ready queue runs within 2(p + 1) timer ticks and one more for every time_sleep(0) of the run |
| `KernelSchedule.TicksBounded` | src/supervisorTrapHandler.cpp:127-138 | twice the dispatches, less the ticks, plus the slice loses at most one for every time_sleep(0) and otherwise never decreases |
| `KernelSchedule.SleepZeroStarves` | src/supervisorTrapHandler.cpp:92-97 | a thread that calls time_sleep(0) after every tick keeps the processor for any number of ticks |
| `KernelSchedule.SleepExact` | src/ktimeSleepQueue.cpp:7-46 | a thread sleeping n > 0 becomes ready at exactly the n-th following tick, behind all threads ready before it |
| `KernelSchedule.AsleepUntilDeadline` | src/ktimeSleepQueue.cpp:21-26 | a countdown is always the deadline less the ticks passed, and positive between ticks |
| `KernelSchedule.TickedReady` | src/ktimeSleepQueue.cpp:28-46 | a tick appends the threads whose countdown ends to the ready queue, in sleep-queue order |
| `KernelSchedule.RecentSleeperFirst` | src/ktimeSleepQueue.cpp:7-46 | of two threads that the same tick wakes, the one that called time_sleep later becomes ready first, over all runs |
| `KernelSchedule.TickOrder` | src/ktimeSleepQueue.cpp:21-46 | a tick keeps the order of those who sleep on and wakes the others in that order |
| `KernelSchedule.SleeperStep` | src/ktimeSleepQueue.cpp:21-46 | only a tick touches a sleeper: it counts down by one, or wakes it at one |
| `KernelWaits.ConsoleAccounts` | src/kconsole.cpp:23-57 | input size is max(value of getSem, 0) plus the woken but not yet resumed readers, characters read are a prefix of those accepted, and characters sent a prefix of those printed |
| `KernelReaders.ReadersInTurnExactly` | src/kconsole.cpp:50-57 | over all runs, characters go to readers in the order of their grants exactly when no getchar takes a token while a woken reader has not resumed |
| `KernelReaders.OvertakingGetchar` | src/kconsole.cpp:50-57 | a legal run in which the reader granted the first character gets the second |
| `KernelReaders.StepInTurn` | src/ksemaphore.cpp:6-24 | every trap keeps readers in turn but an overtaking getchar, which puts them out of turn for good |
| `KernelWaits.ReaderFindsChar` | src/kconsole.cpp:50-57 | a reader that resumes finds a non-empty buffer and takes the oldest character not yet read |
| `KernelWaits.TakerFindsChar` | src/kconsole.cpp:50-57 | so does a getchar that does not block |
| `KernelMachine.Machine.SemWait` | src/ksemaphore.cpp:6-16 | does in place what the step does; returns -1 for a null semaphore and 0 when it did not block |
| `KernelMachine.Machine.SemSignal` | src/ksemaphore.cpp:18-24 | returns -1 without effect for null; else 0, the value rises by one, and exactly when somebody waits the first moves to the end of the ready queue |
| `KernelMachine.Machine.SemClose` | src/ksemaphore.cpp:37-47 | makes every waiter ready with its blocked flag set, in queue order |
| `KernelMachine.Machine.SemOpen` | src/ksemaphore.cpp:26-35 | -1 for a null handle, 1 without a semaphore, else opens with the value as a signed 32-bit int, an empty queue; the invariant survives exactly below 2^31 |
| `KernelMachine.Machine.Dispatch` | src/ktcb.cpp:42-66 | parks the running thread unless it has finished and switches to the head of the ready queue, which then completes its own trap |
| `KernelMachine.Machine.CreateThread` | src/ktcb.cpp:17-40 | 1 without a kTCB; a new thread with a body is ready and not started, one without is on no queue |
| `KernelMachine.Machine.CreatePausedThread` | src/ktcb.cpp:80-103 | 1 without a kTCB, else a new thread on no queue |
| `KernelMachine.Machine.StartPaused` | src/ktcb.cpp:105-112 | a thread not yet started becomes the last ready one; -1 without effect for null or a started one |
| `KernelMachine.Machine.ExitThread` | src/ktcb.cpp:68-73 | the running thread is gone from kTCBs and queues and the next one runs |
| `KernelMachine.Machine.TimeSleep` | src/ktimeSleepQueue.cpp:7-19 | resets the slice; 0 returns at once, otherwise the thread joins the front of the sleep queue and the next one runs |
| `KernelMachine.Machine.CountDown` | src/ktimeSleepQueue.cpp:22-24 | decrements every countdown |
| `KernelMachine.Machine.Awake` | src/ktimeSleepQueue.cpp:28-46 | unlinks exactly the elements at 0 and makes their threads ready in list order |
| `KernelMachine.Machine.TimerInterrupt` | src/supervisorTrapHandler.cpp:127-138 | counts the tick, wakes sleepers, then yields when the slice is used up |
| `KernelMachine.Machine.ThreadDispatchTrap` | src/supervisorTrapHandler.cpp:57-61 | resets the slice and yields |
| `KernelMachine.Machine.Getchar` | src/kconsole.cpp:50-57 | waits on getSem and takes the oldest character |
| `KernelMachine.Machine.Handle` | src/kconsole.cpp:23-40 | sends what the device takes and accepts what it has, dropping characters when the buffer is full |
| `KernelMachine.Machine.PutcharTrap` | src/kconsole.cpp:15-21 | drops the character when the output buffer is full, else stores it and runs the device loops |
| `KLists.KList.AddFirst` | h/klist.hpp:31-42 | the datum goes to the front, or is dropped when no element can be had |
| `KLists.KList.AddLast` | h/klist.hpp:44-61 | the datum goes to the end, or is dropped when no element can be had |
| `KLists.KList.RemoveFirst` | h/klist.hpp:63-76 | takes the first datum off, or returns none |
| `KLists.KList.PeekFirst` | h/klist.hpp:78-82 | the first datum, or none |
| `KLists.KList.PeekLast` | h/klist.hpp:106-110 | the last datum, or none |
| `Semaphores.SignalBalanced` | src/ksemaphore.cpp:18-24 | a signal wakes the head of the queue exactly when the value was negative, and otherwise adds one token |
| `BufferTheorems.ReachableSafe` | test/buffer.cpp:3-71 | for any threads and interleaving: space tokens + item tokens + calls in flight = capacity, no store lands on an unread slot, values leave in the order written, getCnt holds writes minus reads when it comes to release the tail mutex |
| `BufferTheorems.RunKeeps` | test/buffer.cpp:29-71 | the invariant holds after every run |
| `BufferSteps.StepKeeps` | test/buffer.cpp:29-71 | every statement of every thread keeps the invariant |
| `BufferSteps.SlotReserved` | test/buffer.cpp:30-33 | a thread about to store has a slot that is not unread |
| `BufferSteps.ValueReserved` | test/buffer.cpp:42-46 | a thread about to load finds the oldest unread value |
| `BufferSteps.CountIsUnread` | test/buffer.cpp:61-65 | the distance getCnt computes is the number of unread values |
| `BufferInvariant.OnlyHolder` | test/buffer.cpp:32-35 | while a thread holds a mutex no other thread does |
| `BufferInvariant.NothingPending` | test/buffer.cpp:55-68 | while a thread is inside a critical section no store or load of another is half done |
| `BufferTheorems.StuckMeansFullOrEmpty` | test/buffer.cpp:29-71 | with capacity at least 1, when no unfinished thread can step, all wait for space with a full buffer or all wait for an item with an empty one |
| `BufferTheorems.MixedDeadlockExactly` | test/buffer.cpp:3-9 | producers and consumers can deadlock each other exactly when the capacity is 0 |
| `BufferTheorems.StuckAwayFromMutexes` | test/buffer.cpp:55-68 | in a stuck state nobody waits for a mutex |
| `BufferTheorems.StepHandsOn` | test/buffer.cpp:29-53 | values enter only where put stores its own argument and leave only where get loads the oldest unread one, getCnt computes the number of unread values, and each call carries its value unchanged to its end |
| `BufferTheorems.OthersCarry` | test/buffer.cpp:29-53 | a step changes nothing that another thread carries |
| `BufferCalls.CountReturns` | test/buffer.cpp:55-71 | over any run, a thread at the last statement of getCnt holds the number of values written and not yet taken in the state in which it released the tail mutex |
| `BufferCalls.GetReturns` | test/buffer.cpp:41-53 | whoever moves in between, get returns the value that was the oldest unread one when it loaded |
| `BufferCalls.PutStores` | test/buffer.cpp:29-33 | whoever moves in between, put comes to its store with its own argument |
| `BufferCalls.CallEnds` | test/buffer.cpp:29-71 | a call executes its six statements in order and is over after the sixth, however the other threads move in between |
| `BufferCalls.StepGoesOn` | test/buffer.cpp:29-71 | a thread stays in its call and is one statement nearer its end with each of its steps |
| `SharedBuffers.SharedBuffer.constructor` | test/buffer.cpp:3-9 | an empty ring of capacity + 1 slots and the four opening values |
| `SharedBuffers.SharedBuffer.PutStep` | test/buffer.cpp:29-39 | stores, advances tail and signals in place, one statement at a time |
| `SharedBuffers.SharedBuffer.GetStep` | test/buffer.cpp:41-53 | loads, advances head and signals in place, one statement at a time |
| `SharedBuffers.SharedBuffer.CountStep` | test/buffer.cpp:55-71 | compares and computes the distance between head and tail, one statement at a time |
| `SharedBuffers.SharedBuffer.Advance` | test/buffer.cpp:29-71 | whichever thread moves, one statement keeps the invariant |

## Left out

- Registers, stacks, `sepc`/`sstatus`, ecall marshalling, PLIC and all assembly: a trap is one atomic step, and characters from the device and how often it is ready are inputs of the step.
- Printing (`src/kprint.cpp`, the `print` methods), cache names, constructor and destructor callbacks, and thin wrappers.
- Bytes of headers and flags: the 40- and 120-byte headers and the flag arrays of slabs are objects and arrays of their own, not words of the arena; the buddy model says that no word of a live chunk is written by the allocator.
- Words of free memory: the buddy's `memory` and the first-fit headers are indexed by byte offset and hold one whole word each; overlap of neighbouring words is not modelled (chunks and headers are far enough apart).
- Linked lists elsewhere: slab lists, cache lists, the sleep queue and the scheduler queues of `Machine` are sequences; `KList` proves the linked form of the scheduler and semaphore queues.
- `SlabAllocator` starts with an empty list; the five caches `slabAllocator::init` makes outside the list are not created, only allowed for by `DestroyCache`.
- Objects larger than 2^18 bytes: `createCache` then makes slabs without slots; `FindOptimalSlabSize` covers the choice, the cache methods require at most 2^18. An object size of 0 divides by zero in the source.
- Integer widths in sizes: `blocks * 64` and `numOfSlots * slotSize` do not overflow, and a semaphore value does not pass the limits of a 32-bit int after opening.
- Failure to get list elements and sleep-queue elements inside the kernel: `Machine` assumes they are had; `KList` shows that `addLast` then drops its datum.
- The stack that a thread without a body gives back, and `start` on such a thread, which would run a null body.
- The idle thread's exit after the other threads have finished: `IDLE` never exits, blocks or sleeps.
- Misuse: double free, wrong-size free, use or close of a closed semaphore, `start` on a thread not made paused, and addresses just past a slab are excluded by preconditions.
- SlabCaches.KfreeRefines: needs the side condition on neighbouring slabs, which `KfreeRoutedExactly` shows to be exact and `KfreeMisroutes` to fail in a reachable state.
- CacheAllocation.KCache.Free: requires that the slab the search stops at does not end at the address, since the source would read past the flag array.
- CacheListAllocation.SlabAllocator.KfreeRequest: requires the same of the cache that claims the address.
- SlabAllocation.KSlab.Free: requires the same of its one slab.
- CacheAllocation.KCache.CreateCache: requires object sizes of at most 2^18 bytes, since larger ones get slabs without slots.
- CacheListAllocation.SlabAllocator.CreateCache: requires the same.
- `kList::removeLast`, which could not be instantiated, and the destructor of `Buffer`.
- Fairness and liveness beyond the round-robin bound, and the timing of the console device.
