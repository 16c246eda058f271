/** When kalloc must succeed, and which cache it takes the object from. */
module KallocServes {
  import opened Wrappers
  import opened PowersOfTwo
  import opened Blocks
  import BuddySpec
  import Arena = BuddyTheorems
  import opened SlabSpec
  import opened SlabPages
  import opened SlabSystem
  import opened SlabServes
  import opened SlabCaches
  import SlabRuns

  /** Whether a request of size class 2^j finds an object: a free slot or room for a slab in the first cache of the class,
      or room for a cache and its first slab when there is none. */
  ghost predicate Serves(m: Arena.State, ms: seq<Member>, j: nat) {
    var i := FirstOfSize(ms, Pow2(j));
    if i < |ms| then
      !NoFreeSlot(ms[i].cache) || RoomForSlab(m, Pow2(j), SlotsFor(Pow2(j), ms[i].order))
    else
      && Fits(m, CACHE_HEADER)
      && RoomForSlab(Request(m, CACHE_HEADER).1, Pow2(j), SlotsFor(Pow2(j), ClassOrder(j)))
  }

  /** The list afterwards: only the first cache of the class changes if there is one, else at most one cache is added. */
  ghost predicate OnlyClassChanges(m: Arena.State, ms: seq<Member>, ms': seq<Member>, j: nat) {
    var i := FirstOfSize(ms, Pow2(j));
    if i < |ms| then
      |ms'| == |ms| && (forall l :: 0 <= l < |ms| && l != i ==> ms'[l] == ms[l])
      && ms'[i].addr == ms[i].addr && ms'[i].order == ms[i].order && ms'[i].cache.objSize == Pow2(j)
    else if Fits(m, CACHE_HEADER) then
      |ms'| == |ms| + 1 && ms'[1..] == ms && ms'[0].cache.objSize == Pow2(j) && ms'[0].order == ClassOrder(j)
    else
      ms' == ms
  }

  /** kalloc fails exactly for requests over 2^17 bytes and when the class cannot be served. It uses the cache of the class
      if one exists, and makes one only otherwise. */
  lemma KallocExactly(m: Arena.State, ms: seq<Member>, size: int)
    requires AllOk(m, ms)
    ensures var (r, m', ms') := Kalloc(m, ms, size);
      && (r.None? <==> size > 0x2_0000 || !Serves(m, ms, Class(size)))
      && (if size > 0x2_0000 then m' == m && ms' == ms else OnlyClassChanges(m, ms, ms', Class(size)))
  {
    SmallLimit();
    hide AllOk, KallocClass, Serves, OnlyClassChanges, Class, Pow2;
    if size <= 0x2_0000 {
      ClassBounds(size);
      ClassExactly(m, ms, Class(size));
    }
  }

  lemma SmallLimit()
    ensures Pow2(17) == 0x2_0000
  {
    Pow2Sum(12, 5);
    assert Pow2(12) == 4096 && Pow2(5) == 32;
  }

  lemma ClassBounds(size: int)
    requires size <= Pow2(17)
    ensures 5 <= Class(size) <= 17
  {
    ClassIsLeast(size);
  }

  lemma ClassExactly(m: Arena.State, ms: seq<Member>, j: nat)
    requires AllOk(m, ms) && 5 <= j <= 17
    ensures var (r, m', ms') := KallocClass(m, ms, j);
      (r.None? <==> !Serves(m, ms, j)) && OnlyClassChanges(m, ms, ms', j)
  {
    hide SysOk, Arena.Inv, Holdings, AllocOne, SlotsFor, KallocNew, Pow2, NoFreeSlot, RoomForSlab, Fits, ClassOrder;
    var i := FirstOfSize(ms, Pow2(j));
    if i < |ms| {
      var s, n := Sys(m, ms[i].cache), SlotsFor(Pow2(j), ms[i].order);
      AllocOneExactly(s, ms[i].order);
      SlabRuns.TakeSize(s, n);
    } else {
      NewExactly(m, ms, j);
    }
  }

  lemma NewExactly(m: Arena.State, ms: seq<Member>, j: nat)
    requires AllOk(m, ms) && 5 <= j <= 17 && FirstOfSize(ms, Pow2(j)) == |ms|
    ensures var (r, m', ms') := KallocNew(m, ms, j);
      (r.None? <==> !Serves(m, ms, j)) && OnlyClassChanges(m, ms, ms', j)
  {
    hide SysOk, Arena.Inv, Holdings, AllocOne, SlotsFor, Pow2, NoFreeSlot, RoomForSlab, Fits, ClassOrder, NewCache, Request, FirstOfSize;
    var objSize, n := Pow2(j), SlotsFor(Pow2(j), ClassOrder(j));
    RequestFits(m, CACHE_HEADER);
    RequestKeeps(m, CACHE_HEADER);
    var (h, m1) := Request(m, CACHE_HEADER);
    NewCacheServed(m1, objSize, n);
    SlabRuns.NewSize(m1, objSize, n);
    SlabRuns.TakeSize(NewCache(m1, objSize, n), n);
  }

  /** While a block of 2^22 bytes is wholly free, every request of up to 2^17 bytes is served. */
  lemma KallocServed(m: Arena.State, ms: seq<Member>, size: int, b: Chunk)
    requires AllOk(m, ms) && size <= 0x2_0000
    requires Block(b) && b.ord >= 22 && Arena.WhollyFree(b, m.live)
    ensures Kalloc(m, ms, size).0.Some?
  {
    KallocExactly(m, ms, size);
    SmallLimit();
    hide SysOk, Holdings, SlotsFor, Pow2, NoFreeSlot, RoomForSlab, Fits, ClassOrder, NewCache, Request, FirstOfSize, Class, Kalloc,
         Arena.Inv;
    ClassBounds(size);
    var j := Class(size);
    var i := FirstOfSize(ms, Pow2(j));
    if i < |ms| {
      RoomInBlock(m, Pow2(j), ms[i].order, b);
    } else {
      ClassOptimal(j);
      CacheRoom(m, Pow2(j), ClassOrder(j), b);
    }
  }
}
