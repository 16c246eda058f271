/** When the buddy allocator can serve a slab, and so when alloc of a cache must succeed. */
module SlabServes {
  import opened Wrappers
  import opened PowersOfTwo
  import opened Blocks
  import BuddySpec
  import BuddyInvariant
  import Arena = BuddyTheorems
  import opened SlabSpec
  import opened SlabTheorems
  import opened SlabPages
  import opened SlabSystem
  import SlabRuns

  /** Some aligned block of the order the request rounds to touches no live chunk. */
  ghost predicate Fits(m: Arena.State, size: int) {
    size <= ARENA && exists c :: Block(c) && c.ord == BuddySpec.OrderOf(size) && Arena.WhollyFree(c, m.live)
  }

  lemma RequestFits(m: Arena.State, size: int)
    requires Arena.Inv(m)
    ensures Request(m, size).0.Some? <==> Fits(m, size)
  {
    var k := BuddySpec.OrderOf(size);
    Arena.OrderIsLeast(size);
    hide BuddySpec.OrderOf, BuddySpec.AllocSpec, BuddySpec.WellFormed, BuddySpec.Coalesced;
    if size <= ARENA {
      Arena.AllocComplete(m.lists, m.live, k);
    }
  }

  /** The three requests of a slab of n slots, each in what the one before left. */
  ghost predicate RoomForSlab(m: Arena.State, slotSize: int, n: nat) {
    var m1 := Request(m, SLAB_HEADER).1;
    var m2 := Request(m1, n * 4).1;
    Fits(m, SLAB_HEADER) && Fits(m1, n * 4) && Fits(m2, n * slotSize)
  }

  /** createSlab fails exactly when one of its requests finds no room. */
  lemma CreateSlabExactly(m: Arena.State, slotSize: int, n: nat)
    requires Arena.Inv(m)
    ensures CreateSlab(m, slotSize, n).0.None? <==> !RoomForSlab(m, slotSize, n)
  {
    var m1 := Request(m, SLAB_HEADER).1;
    var m2 := Request(m1, n * 4).1;
    hide Request, Fits, Arena.Inv;
    RequestKeeps(m, SLAB_HEADER);
    RequestKeeps(m1, n * 4);
    RequestFits(m, SLAB_HEADER);
    RequestFits(m1, n * 4);
    RequestFits(m2, n * slotSize);
  }

  // ---------------------------------------------------------------- quarters of a wholly free block

  function Quarter(b: Chunk, i: nat): Chunk
    requires b.ord >= 2
  {
    Chunk(b.off + i * Pow2(b.ord - 2), b.ord - 2)
  }

  lemma QuarterOf(b: Chunk, i: nat)
    requires b.ord >= 2 && i < 4
    ensures Quarter(b, i) == if i == 0 then Low(Low(b)) else if i == 1 then High(Low(b))
                             else if i == 2 then Low(High(b)) else High(High(b))
    ensures Within(Quarter(b, i), b) && End(Quarter(b, i)) == b.off + (i + 1) * Pow2(b.ord - 2)
  {
    Pow2Double(b.ord - 1);
    Pow2Double(b.ord - 2);
    hide Pow2;
  }

  lemma QuarterBlocks(b: Chunk, i: nat)
    requires Block(b) && b.ord >= MIN_ORDER + 2 && i < 4
    ensures Block(Quarter(b, i)) && Within(Quarter(b, i), b)
  {
    HalvesAreBuddies(b);
    HalvesAreBuddies(Low(b));
    HalvesAreBuddies(High(b));
    QuarterOf(b, i);
    hide Pow2, Aligned, Quarter;
  }

  lemma QuartersApart(b: Chunk, i: nat, j: nat)
    requires b.ord >= 2 && i < j < 4
    ensures End(Quarter(b, i)) <= Quarter(b, j).off
  {
    QuarterOf(b, i);
    MulMonotone(i + 1, j, Pow2(b.ord - 2));
  }

  /** The quarters in s touch no live chunk. */
  ghost predicate FreeQuarters(b: Chunk, live: set<Chunk>, s: set<nat>)
    requires b.ord >= 2
  {
    forall i :: i in s ==> i < 4 && Arena.WhollyFree(Quarter(b, i), live)
  }

  lemma AllQuarters(b: Chunk, live: set<Chunk>)
    requires Block(b) && b.ord >= MIN_ORDER + 2 && Arena.WhollyFree(b, live)
    ensures FreeQuarters(b, live, {0, 1, 2, 3})
  {
    forall i: nat, d | i < 4 && d in live
      ensures Apart(Quarter(b, i), d)
    {
      QuarterBlocks(b, i);
    }
  }

  /** A block of at most a quarter's size touches at most one quarter. */
  lemma OneQuarter(b: Chunk, d: Chunk, i: nat, j: nat)
    requires Block(b) && b.ord >= MIN_ORDER + 2 && Block(d) && d.ord + 2 <= b.ord && i < j < 4
    ensures Apart(Quarter(b, i), d) || Apart(Quarter(b, j), d)
  {
    QuarterBlocks(b, i);
    QuarterBlocks(b, j);
    QuartersApart(b, i, j);
    hide Quarter, Aligned, Pow2;
    if !Apart(Quarter(b, i), d) {
      Nested(d, Quarter(b, i));
    }
  }

  lemma TakeQuarter(b: Chunk, live: set<Chunk>, s: set<nat>, d: Chunk) returns (t: set<nat>)
    requires Block(b) && b.ord >= MIN_ORDER + 2 && Block(d) && d.ord + 2 <= b.ord && FreeQuarters(b, live, s)
    ensures FreeQuarters(b, live + {d}, t) && |t| >= |s| - 1
  {
    hide Quarter, Block, Apart;
    if i :| i in s && !Apart(Quarter(b, i), d) {
      t := s - {i};
      forall j | j in t
        ensures Apart(Quarter(b, j), d)
      {
        OneQuarter(b, d, if i < j then i else j, if i < j then j else i);
      }
    } else {
      t := s;
    }
  }

  lemma QuarterFits(m: Arena.State, b: Chunk, i: nat, size: int)
    requires Block(b) && b.ord >= MIN_ORDER + 2 && i < 4 && Arena.WhollyFree(Quarter(b, i), m.live)
    requires BuddySpec.OrderOf(size) + 2 <= b.ord
    ensures Fits(m, size)
  {
    var q, k := Quarter(b, i), BuddySpec.OrderOf(size);
    QuarterBlocks(b, i);
    Arena.OrderIsLeast(size);
    Pow2Monotone(q.ord, k);
    AlignedDown(q.off, q.ord, k);
    var c := Chunk(q.off, k);
    assert Block(c) && Within(c, q);
    assert Arena.WhollyFree(c, m.live);
  }

  /** A request of at most a quarter succeeds while a quarter is free, and uses up at most one. */
  lemma RequestServed(m: Arena.State, b: Chunk, s: set<nat>, size: int) returns (t: set<nat>)
    requires Arena.Inv(m) && Block(b) && b.ord >= MIN_ORDER + 2 && FreeQuarters(b, m.live, s) && s != {}
    requires BuddySpec.OrderOf(size) + 2 <= b.ord
    ensures var (r, m') := Request(m, size);
      r.Some? && Arena.Inv(m') && FreeQuarters(b, m'.live, t) && |t| >= |s| - 1
  {
    var i :| i in s;
    var (r, m') := Request(m, size);
    hide Request, BuddySpec.OrderOf, Fits;
    QuarterFits(m, b, i, size);
    RequestFits(m, size);
    RequestKeeps(m, size);
    var c := ChunkFor(r.value, size);
    assert c in m'.live;
    LiveBlock(m', c);
    t := TakeQuarter(b, m.live, s, c);
  }

  lemma LiveBlock(m: Arena.State, c: Chunk)
    requires Arena.Inv(m) && c in m.live
    ensures Block(c)
  {
  }

  /** Requests of a slab of n slots are each at most a quarter of the block. */
  predicate SlabQuarters(slotSize: int, n: nat, b: Chunk) {
    && Block(b)
    && BuddySpec.OrderOf(SLAB_HEADER) + 2 <= b.ord
    && BuddySpec.OrderOf(n * 4) + 2 <= b.ord
    && BuddySpec.OrderOf(n * slotSize) + 2 <= b.ord
  }

  lemma CreateFromQuarters(m: Arena.State, slotSize: int, n: nat, b: Chunk, s: set<nat>)
    requires Arena.Inv(m) && SlabQuarters(slotSize, n, b) && b.ord >= 2 && FreeQuarters(b, m.live, s) && |s| >= 3
    ensures CreateSlab(m, slotSize, n).0.Some?
  {
    Arena.OrderIsLeast(SLAB_HEADER);
    hide Request, BuddySpec.OrderOf, FreeQuarters, Arena.Inv;
    var s1 := RequestServed(m, b, s, SLAB_HEADER);
    var m1 := Request(m, SLAB_HEADER).1;
    var s2 := RequestServed(m1, b, s1, n * 4);
    var m2 := Request(m1, n * 4).1;
    var s3 := RequestServed(m2, b, s2, n * slotSize);
  }

  /** A slab can be made whenever some wholly free block has room for its three requests in three quarters. */
  lemma CreateSlabServed(m: Arena.State, slotSize: int, n: nat, b: Chunk)
    requires Arena.Inv(m) && SlabQuarters(slotSize, n, b) && Arena.WhollyFree(b, m.live)
    ensures CreateSlab(m, slotSize, n).0.Some?
  {
    Arena.OrderIsLeast(SLAB_HEADER);
    AllQuarters(b, m.live);
    hide BuddySpec.OrderOf;
    CreateFromQuarters(m, slotSize, n, b, {0, 1, 2, 3});
  }

  // ---------------------------------------------------------------- caches of objects of up to 2^18 bytes

  /** Quarters of 2^20 bytes hold each of the requests of a slab of such a cache. */
  lemma SlabRequests(objSize: int, k: nat, b: Chunk)
    requires objSize > 0 && Candidate(objSize, k) && Block(b) && b.ord >= 22
    ensures SlabQuarters(objSize, SlotsFor(objSize, k), b)
  {
    var n := SlotsFor(objSize, k);
    SlotsFillChunk(objSize, k);
    FlagBytes(objSize, k);
    SmallOrder(SLAB_HEADER);
    SmallOrder(n * 4);
    hide BuddySpec.OrderOf, Pow2, SlotsFor;
  }

  lemma FlagBytes(objSize: int, k: nat)
    requires objSize > 0 && Candidate(objSize, k)
    ensures SlotsFor(objSize, k) * 4 <= 0x10_0000
  {
    SlotsFillChunk(objSize, k);
    var n := SlotsFor(objSize, k);
    MulMonotone(1, objSize, n);
    Pow2Monotone(18, k);
    Pow2Sum(12, 6);
    assert Pow2(12) == 4096 && Pow2(6) == 64;
  }

  lemma SmallOrder(size: int)
    requires size <= 0x10_0000
    ensures BuddySpec.OrderOf(size) <= 20
  {
    Arena.OrderIsLeast(size);
    Pow2Sum(12, 8);
    assert Pow2(12) == 4096 && Pow2(8) == 256;
  }

  /** Every slot of every slab is in use. */
  ghost predicate NoFreeSlot(c: Cache) {
    forall t :: t in Pool(c) ==> forall i :: 0 <= i < |t.flags| ==> !t.flags[i]
  }

  /** Any slab with a free slot serves alloc without a request; else alloc fails exactly when no slab can be made. */
  lemma AllocOneExactly(s: Sys, k: nat)
    requires SysOk(s, k)
    ensures var n := SlotsFor(s.cache.objSize, k);
      var (r, s') := AllocOne(s, n);
      && (r.None? <==> NoFreeSlot(s.cache) && !RoomForSlab(s.mem, s.cache.objSize, n))
      && (!NoFreeSlot(s.cache) ==> s'.mem == s.mem)
  {
    var n := SlotsFor(s.cache.objSize, k);
    CreateSlabExactly(s.mem, s.cache.objSize, n);
    RoomExactly(s.cache, n, Pow2(k));
    hide CreateSlab, RoomForSlab, SysOk, CacheOk, SlotsFor, Pool;
  }

  lemma FreeSlotHere(t: Slab)
    ensures IsFull(t) <==> forall i :: 0 <= i < |t.flags| ==> !t.flags[i]
    ensures IsEmpty(t) && |t.flags| > 0 ==> !IsFull(t)
    ensures !IsFull(t) ==> FirstFree(t.flags) < |t.flags|
  {
    CountBounds(t.flags);
  }

  lemma RoomExactly(c: Cache, n: nat, size: int)
    requires CacheOk(c, n, size)
    ensures HasRoom(c) <==> !NoFreeSlot(c)
  {
    PoolParts(c);
    hide Pool, IsFull, IsEmpty;
    if !NoFreeSlot(c) {
      var t, i :| t in Pool(c) && 0 <= i < |t.flags| && t.flags[i];
      FreeSlotHere(t);
      assert t !in c.full;
    }
    if HasRoom(c) {
      var t := Source(c);
      assert t in Pool(c);
      FreeSlotHere(t);
    }
  }

  lemma SourceHasRoom(c: Cache, n: nat, size: int)
    requires CacheOk(c, n, size) && HasRoom(c)
    ensures !IsFull(Source(c))
  {
    PoolParts(c);
    hide Pool, IsFull, IsEmpty;
    assert Source(c) in Pool(c);
    FreeSlotHere(Source(c));
  }

  /** The slot alloc gives out: the first free one of the first half-full slab, else of the empty slab. */
  lemma AllocTakesFirst(s: Sys, k: nat)
    requires SysOk(s, k) && (s.cache.half != [] || s.cache.empty != [])
    ensures var t := if s.cache.half != [] then s.cache.half[0] else s.cache.empty[0];
      var r := AllocOne(s, SlotsFor(s.cache.objSize, k)).0;
      exists i :: 0 <= i < |t.flags| && t.flags[i] && (forall j :: 0 <= j < i ==> !t.flags[j])
                  && r == Some(t.slots + i * s.cache.objSize)
  {
    hide CacheOk, IsFull, SlotsFor, Arena.Inv, AllocSpec, Optimal, Pow2, Chunks;
    SourceHasRoom(s.cache, SlotsFor(s.cache.objSize, k), Pow2(k));
    SlotTaken(Source(s.cache), s.cache.objSize);
  }

  lemma SlotTaken(t: Slab, objSize: int)
    requires !IsFull(t)
    ensures exists i :: 0 <= i < |t.flags| && t.flags[i] && (forall j :: 0 <= j < i ==> !t.flags[j])
                        && AllocObject(t, objSize) == t.slots + i * objSize
  {
    hide IsFull;
    FreeSlotHere(t);
    assert t.flags[FirstFree(t.flags)];
  }

  lemma RoomInBlock(m: Arena.State, objSize: int, k: nat, b: Chunk)
    requires Arena.Inv(m) && objSize > 0 && Optimal(objSize, k)
    requires Block(b) && b.ord >= 22 && Arena.WhollyFree(b, m.live)
    ensures RoomForSlab(m, objSize, SlotsFor(objSize, k))
  {
    SlabRequests(objSize, k, b);
    hide RoomForSlab, CreateSlab, SlotsFor, Arena.Inv, Optimal;
    CreateSlabServed(m, objSize, SlotsFor(objSize, k), b);
    CreateSlabExactly(m, objSize, SlotsFor(objSize, k));
  }

  /** Objects of up to 2^18 bytes are served as long as a block of 2^22 bytes is wholly free. */
  lemma AllocOneServed(s: Sys, k: nat, b: Chunk)
    requires SysOk(s, k) && Block(b) && b.ord >= 22 && Arena.WhollyFree(b, s.mem.live)
    ensures AllocOne(s, SlotsFor(s.cache.objSize, k)).0.Some?
  {
    AllocOneExactly(s, k);
    RoomInBlock(s.mem, s.cache.objSize, k, b);
  }

  /** A new cache has an empty slab exactly when one could be made; exactly then its first alloc succeeds, without a request. */
  lemma NewCacheServed(m: Arena.State, objSize: int, n: nat)
    requires Arena.Inv(m)
    ensures var s := NewCache(m, objSize, n);
      && s.cache.full == s.cache.half == []
      && |s.cache.empty| == (if RoomForSlab(m, objSize, n) then 1 else 0)
      && (AllocOne(s, n).0.Some? <==> RoomForSlab(m, objSize, n))
      && AllocOne(s, n).1.mem == s.mem
  {
    hide CreateSlab, RoomForSlab;
    CreateSlabKeeps(m, objSize, n);
    CreateSlabExactly(m, objSize, n);
  }

  lemma CacheRoom(m: Arena.State, objSize: int, k: nat, b: Chunk)
    requires Arena.Inv(m) && objSize > 0 && Optimal(objSize, k)
    requires Block(b) && b.ord >= 22 && Arena.WhollyFree(b, m.live)
    ensures Fits(m, CACHE_HEADER) && Arena.Inv(Request(m, CACHE_HEADER).1)
    ensures RoomForSlab(Request(m, CACHE_HEADER).1, objSize, SlotsFor(objSize, k))
  {
    SlabRequests(objSize, k, b);
    AllQuarters(b, m.live);
    SmallOrder(CACHE_HEADER);
    hide Request, BuddySpec.OrderOf, FreeQuarters, Arena.Inv, CreateSlab, SlotsFor, Optimal, SlabQuarters, RoomForSlab, Fits;
    var t := RequestServed(m, b, {0, 1, 2, 3}, CACHE_HEADER);
    RequestFits(m, CACHE_HEADER);
    var m1 := Request(m, CACHE_HEADER).1;
    CreateFromQuarters(m1, objSize, SlotsFor(objSize, k), b, t);
    CreateSlabExactly(m1, objSize, SlotsFor(objSize, k));
  }

  /** While a block of 2^22 bytes is wholly free, a cache of any object size up to 2^18 bytes is made with an empty slab,
      and its first alloc succeeds. */
  lemma CacheServed(m: Arena.State, objSize: int, k: nat, b: Chunk)
    requires Arena.Inv(m) && objSize > 0 && Optimal(objSize, k)
    requires Block(b) && b.ord >= 22 && Arena.WhollyFree(b, m.live)
    ensures var (h, m1) := Request(m, CACHE_HEADER);
      var n := SlotsFor(objSize, k);
      var s := NewCache(m1, objSize, n);
      && h.Some? && |s.cache.empty| == 1 && s.cache.half == s.cache.full == []
      && AllocOne(s, n).0.Some? && AllocOne(s, n).1.mem == s.mem
  {
    hide Request, Arena.Inv, SlotsFor, Optimal, NewCache, AllocOne, RoomForSlab, Fits;
    CacheRoom(m, objSize, k, b);
    RequestFits(m, CACHE_HEADER);
    NewCacheServed(Request(m, CACHE_HEADER).1, objSize, SlotsFor(objSize, k));
  }

  /** So it is on the arena the program starts with. */
  lemma WholeArena()
    ensures Arena.Inv(Arena.State(BuddySpec.InitLists(), {}))
    ensures Block(Chunk(0, MAX_ORDER)) && Arena.WhollyFree(Chunk(0, MAX_ORDER), {})
  {
    BuddyInvariant.InitKeeps();
    ArenaSize();
    AlignedZero(MAX_ORDER);
  }
}
