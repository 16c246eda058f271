/** src/slabAllocator.cpp: a list of caches over one buddy allocator. */
module SlabCaches {
  import opened Wrappers
  import opened PowersOfTwo
  import opened Blocks
  import BuddySpec
  import Arena = BuddyTheorems
  import opened SlabSpec
  import opened SlabTheorems
  import opened SlabPages
  import opened SlabSystem
  import SlabRuns

  /** A cache with its header at addr and slot areas of 2^order bytes. */
  datatype Member = Member(addr: int, cache: Cache, order: nat)

  /** What one cache holds, its header included. */
  function Holds(mb: Member): multiset<Chunk> {
    multiset{ChunkFor(mb.addr, CACHE_HEADER)} + Chunks(mb.cache)
  }

  function Holdings(ms: seq<Member>): multiset<Chunk> {
    if ms == [] then multiset{} else Holds(ms[0]) + Holdings(ms[1..])
  }

  /** Each cache is in order over the arena, and no chunk is held twice. */
  ghost predicate AllOk(m: Arena.State, ms: seq<Member>) {
    && Arena.Inv(m)
    && (forall i :: 0 <= i < |ms| ==> SysOk(Sys(m, ms[i].cache), ms[i].order))
    && Holdings(ms) <= multiset(m.live)
  }

  function Without(ms: seq<Member>, i: nat): seq<Member>
    requires i < |ms|
  {
    ms[..i] + ms[i + 1..]
  }

  lemma {:induction false} HoldingsAt(ms: seq<Member>, i: nat, c: Cache)
    requires i < |ms|
    ensures Holdings(ms) == Holds(ms[i]) + Holdings(Without(ms, i))
    ensures Holdings(ms[i := ms[i].(cache := c)]) == Holds(ms[i].(cache := c)) + Holdings(Without(ms, i))
    decreases |ms|
  {
    hide Holds;
    var ms' := ms[i := ms[i].(cache := c)];
    if i == 0 {
      assert Without(ms, i) == ms[1..] == ms'[1..];
    } else {
      assert ms'[1..] == ms[1..][i - 1 := ms[1..][i - 1].(cache := c)];
      assert Without(ms, i)[1..] == Without(ms[1..], i - 1);
      HoldingsAt(ms[1..], i - 1, c);
    }
  }

  // ---------------------------------------------------------------- one cache's work leaves the others alone

  /** A cache stays in order while its chunks stay live. */
  lemma CacheStays(m: Arena.State, m': Arena.State, mb: Member)
    requires SysOk(Sys(m, mb.cache), mb.order) && Arena.Inv(m') && Chunks(mb.cache) <= multiset(m'.live)
    ensures SysOk(Sys(m', mb.cache), mb.order)
  {
  }

  lemma {:induction false} HoldingsPart(ms: seq<Member>, i: nat)
    requires i < |ms|
    ensures Chunks(ms[i].cache) <= Holds(ms[i]) <= Holdings(ms)
  {
    HoldingsAt(ms, i, ms[i].cache);
    hide Holdings, Chunks;
  }

  lemma Exchange(l: multiset<Chunk>, l': multiset<Chunk>, c: multiset<Chunk>, c': multiset<Chunk>, h: multiset<Chunk>,
                 others: multiset<Chunk>)
    requires h + c + others <= l && c' <= l' && l' - c' == l - c
    ensures h + c' + others <= l'
  {
    assert l == (l - c) + c;
    assert l' == (l' - c') + c';
    assert h + others <= l - c by {
      assert forall x :: (h + c + others)[x] <= l[x];
      assert forall x :: (h + others)[x] + c[x] <= l[x];
    }
  }

  /** alloc, free or shrink of one cache, which leave the chunks that are not its own alone, keep all caches in order. */
  lemma WorkKeepsAll(m: Arena.State, ms: seq<Member>, i: nat, s': Sys)
    requires AllOk(m, ms) && i < |ms| && SysOk(s', ms[i].order) && Rest(s') == Rest(Sys(m, ms[i].cache))
    ensures AllOk(s'.mem, ms[i := ms[i].(cache := s'.cache)])
  {
    var ms' := ms[i := ms[i].(cache := s'.cache)];
    HoldingsAt(ms, i, s'.cache);
    SlabRuns.SystemOk(Sys(m, ms[i].cache), ms[i].order);
    SlabRuns.SystemOk(s', ms[i].order);
    hide Arena.Inv, SysOk, Chunks, Holdings, BuddySpec.OrderOf;
    Exchange(multiset(m.live), multiset(s'.mem.live), Chunks(ms[i].cache), Chunks(s'.cache),
             multiset{ChunkFor(ms[i].addr, CACHE_HEADER)}, Holdings(Without(ms, i)));
    assert Holdings(ms') <= multiset(s'.mem.live);
    forall j | 0 <= j < |ms'|
      ensures SysOk(Sys(s'.mem, ms'[j].cache), ms'[j].order)
    {
      if j != i {
        HoldingsPart(ms', j);
        CacheStays(m, s'.mem, ms[j]);
      }
    }
  }

  /** A new cache goes to the head of the list. */
  lemma CreateKeepsAll(m: Arena.State, ms: seq<Member>, objSize: int, k: nat)
    requires AllOk(m, ms) && objSize > 0 && Optimal(objSize, k)
    ensures var (h, m1) := Request(m, CACHE_HEADER);
      if h.None? then m1 == m
      else
        var s := NewCache(m1, objSize, SlotsFor(objSize, k));
        AllOk(s.mem, [Member(h.value, s.cache, k)] + ms)
  {
    hide Arena.Inv, SysOk, Chunks, Holdings, BuddySpec.OrderOf, Optimal, Request, NewCache, SlotsFor, Rest;
    RequestKeeps(m, CACHE_HEADER);
    var (h, m1) := Request(m, CACHE_HEADER);
    if h.Some? {
      SlabRuns.NewCacheKeeps(m1, objSize, k);
      SlabRuns.NewSize(m1, objSize, SlotsFor(objSize, k));
      Joined(m, m1, ms, Member(h.value, NewCache(m1, objSize, SlotsFor(objSize, k)).cache, k),
             NewCache(m1, objSize, SlotsFor(objSize, k)));
    }
  }

  /** Caches stay in order while all they hold stays live. */
  lemma AllStay(m: Arena.State, m': Arena.State, ms: seq<Member>)
    requires (forall i :: 0 <= i < |ms| ==> SysOk(Sys(m, ms[i].cache), ms[i].order))
    requires Arena.Inv(m') && Holdings(ms) <= multiset(m'.live)
    ensures AllOk(m', ms)
  {
    hide Arena.Inv, SysOk, Chunks, Holdings, Holds;
    forall j | 0 <= j < |ms|
      ensures SysOk(Sys(m', ms[j].cache), ms[j].order)
    {
      HoldingsPart(ms, j);
      CacheStays(m, m', ms[j]);
    }
  }

  lemma Joined(m: Arena.State, m1: Arena.State, ms: seq<Member>, mb: Member, s: Sys)
    requires AllOk(m, ms) && SysOk(s, mb.order) && s.cache == mb.cache && Rest(s) == multiset(m1.live)
    requires multiset(m1.live) == multiset(m.live) + multiset{ChunkFor(mb.addr, CACHE_HEADER)}
    ensures AllOk(s.mem, [mb] + ms)
  {
    hide SysOk, Arena.Inv, Chunks, Holdings, BuddySpec.OrderOf;
    SlabRuns.SystemOk(s, mb.order);
    HoldingsCons(mb, ms);
    JoinSets(multiset(m.live), multiset(s.mem.live), multiset{ChunkFor(mb.addr, CACHE_HEADER)}, Chunks(mb.cache), Holdings(ms));
    hide Holds, Rest;
    AllStay(m, s.mem, ms);
    Prepend(s.mem, mb, ms);
  }

  lemma JoinSets(l: multiset<Chunk>, l': multiset<Chunk>, h: multiset<Chunk>, c: multiset<Chunk>, others: multiset<Chunk>)
    requires others <= l && c <= l' && l' - c == l + h
    ensures h + c + others <= l' && others <= l'
  {
    assert l' == (l' - c) + c;
  }

  lemma Prepend(m: Arena.State, mb: Member, ms: seq<Member>)
    requires AllOk(m, ms) && SysOk(Sys(m, mb.cache), mb.order) && Holdings([mb] + ms) <= multiset(m.live)
    ensures AllOk(m, [mb] + ms)
  {
    hide SysOk, Arena.Inv, Holdings;
  }

  lemma HoldingsCons(mb: Member, ms: seq<Member>)
    ensures Holdings([mb] + ms) == Holds(mb) + Holdings(ms)
  {
    assert ([mb] + ms)[1..] == ms;
  }

  /** destroyCache of the i-th cache: its header goes back too, and only the discarded slab headers stay behind. */
  lemma DestroyKeepsAll(m: Arena.State, ms: seq<Member>, i: nat)
    requires AllOk(m, ms) && i < |ms|
    ensures var m1 := DestroySys(Sys(m, ms[i].cache));
      var h := ChunkFor(ms[i].addr, CACHE_HEADER);
      && h in m1.live
      && AllOk(Release(m1, h), Without(ms, i))
      && multiset(Release(m1, h).live) == multiset(m.live) - Holds(ms[i]) + HeaderChunks(ms[i].cache.discarded)
  {
    hide Arena.Inv, SysOk, Holdings, BuddySpec.OrderOf, DestroySys, Release, HeaderChunks, Holds;
    HoldingsAt(ms, i, ms[i].cache);
    DestroyedChunks(m, ms[i], Holdings(Without(ms, i)));
    var m2 := Release(DestroySys(Sys(m, ms[i].cache)), ChunkFor(ms[i].addr, CACHE_HEADER));
    StayOk(m, ms, i);
    AllStay(m, m2, Without(ms, i));
  }

  lemma StayOk(m: Arena.State, ms: seq<Member>, i: nat)
    requires AllOk(m, ms) && i < |ms|
    ensures forall j :: 0 <= j < |Without(ms, i)| ==> SysOk(Sys(m, Without(ms, i)[j].cache), Without(ms, i)[j].order)
  {
    hide SysOk, Holdings, Arena.Inv;
  }

  lemma DestroyedChunks(m: Arena.State, mb: Member, others: multiset<Chunk>)
    requires SysOk(Sys(m, mb.cache), mb.order) && Holds(mb) + others <= multiset(m.live)
    ensures var m1 := DestroySys(Sys(m, mb.cache));
      var h := ChunkFor(mb.addr, CACHE_HEADER);
      && h in m1.live
      && Arena.Inv(Release(m1, h)) && others <= multiset(Release(m1, h).live)
      && multiset(Release(m1, h).live) == multiset(m.live) - Holds(mb) + HeaderChunks(mb.cache.discarded)
  {
    var s := Sys(m, mb.cache);
    var h := ChunkFor(mb.addr, CACHE_HEADER);
    hide Arena.Inv, SysOk, Chunks, BuddySpec.OrderOf, DestroySys, Release, HeaderChunks;
    SlabRuns.SystemOk(s, mb.order);
    SlabRuns.DestroyKeeps(s);
    Left(multiset(m.live), multiset{h}, Chunks(mb.cache), others, HeaderChunks(mb.cache.discarded));
    var m1 := DestroySys(s);
    assert h in multiset{h};
    assert h in multiset(m1.live);
    ReleaseKeeps(m1, h);
  }

  lemma ToFront(m: Arena.State, ms: seq<Member>, i: nat)
    requires AllOk(m, ms) && i < |ms|
    ensures AllOk(m, [ms[i]] + Without(ms, i)) && AllOk(m, Without(ms, i))
  {
    hide Arena.Inv, SysOk, Holds, Holdings;
    HoldingsAt(ms, i, ms[i].cache);
    HoldingsCons(ms[i], Without(ms, i));
    assert forall j :: 0 <= j < |Without(ms, i)| ==> Without(ms, i)[j] == ms[if j < i then j else j + 1];
  }

  lemma DestroyFront(m: Arena.State, mb: Member, ms: seq<Member>)
    requires AllOk(m, [mb] + ms)
    ensures var m1 := DestroySys(Sys(m, mb.cache));
      var h := ChunkFor(mb.addr, CACHE_HEADER);
      && h in m1.live && AllOk(Release(m1, h), ms)
      && multiset(Release(m1, h).live) == multiset(m.live) - Holds(mb) + HeaderChunks(mb.cache.discarded)
  {
    hide AllOk, DestroySys, Release, HeaderChunks, Holds;
    assert Without([mb] + ms, 0) == ms;
    DestroyKeepsAll(m, [mb] + ms, 0);
  }

  lemma Left(l: multiset<Chunk>, h: multiset<Chunk>, c: multiset<Chunk>, others: multiset<Chunk>, d: multiset<Chunk>)
    requires h + c + others <= l
    ensures h <= (l - c) + d
    ensures (l - c) + d - h == l - (h + c) + d
    ensures others <= (l - c) + d - h
  {
    assert forall x :: (h + c + others)[x] <= l[x];
    assert forall x :: h[x] + c[x] + others[x] <= l[x];
  }

  // ---------------------------------------------------------------- kfree

  /** The first cache of the list with a slab that claims ptr; |ms| when none has. */
  function Claiming(ms: seq<Member>, ptr: int): (i: nat)
    ensures i <= |ms|
  {
    if ms == [] || Find(Searched(ms[0].cache), ms[0].cache.objSize, ptr) < |Searched(ms[0].cache)| then 0
    else 1 + Claiming(ms[1..], ptr)
  }

  /** Some slab of the cache ends exactly at ptr. */
  ghost predicate SomeEndsAt(c: Cache, ptr: int) {
    exists s :: s in Searched(c) && EndsAt(s, c.objSize, ptr)
  }

  lemma {:induction false} ClaimingFirst(ms: seq<Member>, ptr: int, k: nat)
    requires k < |ms| && Find(Searched(ms[k].cache), ms[k].cache.objSize, ptr) < |Searched(ms[k].cache)|
    ensures Claiming(ms, ptr) == k <==> forall j :: 0 <= j < k ==>
              Find(Searched(ms[j].cache), ms[j].cache.objSize, ptr) == |Searched(ms[j].cache)|
    decreases |ms|
  {
    hide Find;
    if k > 0 {
      ClaimingFirst(ms[1..], ptr, k - 1);
      assert forall j :: 0 < j < k ==> ms[j] == ms[1..][j - 1];
      assert forall j :: 0 <= j < k - 1 ==> ms[1..][j] == ms[j + 1];
    }
  }

  lemma {:induction false} FindNone(l: seq<Slab>, objSize: int, ptr: int)
    ensures Find(l, objSize, ptr) == |l| <==> forall s :: s in l ==> !IsHere(s, objSize, ptr)
  {
  }

  /** Slot areas of different caches share no byte. */
  lemma AreasApart(m: Arena.State, ms: seq<Member>, i: nat, j: nat, s: Slab, t: Slab)
    requires AllOk(m, ms) && i < |ms| && j < |ms| && i != j && s in Pool(ms[i].cache) && t in Pool(ms[j].cache)
    ensures Apart(Chunk(s.slots, ms[i].order), Chunk(t.slots, ms[j].order))
  {
    SlotHeld(m, ms[i], s);
    SlotHeld(m, ms[j], t);
    var c, d := Chunk(s.slots, ms[i].order), Chunk(t.slots, ms[j].order);
    hide SysOk, Chunks, Pool, Arena.Inv;
    TwoHold(ms, i, j);
    assert c == d ==> multiset(m.live)[c] >= 2;
    LiveApart(m, c, d);
  }

  lemma SlotHeld(m: Arena.State, mb: Member, s: Slab)
    requires SysOk(Sys(m, mb.cache), mb.order) && s in Pool(mb.cache)
    ensures Chunk(s.slots, mb.order) in Chunks(mb.cache) && Chunk(s.slots, mb.order) in m.live
  {
    var objSize := mb.cache.objSize;
    SlotChunk(Sys(m, mb.cache), mb.order, s);
    SlotsFillChunk(objSize, mb.order);
    PooledChunks(mb.cache, s);
    assert |s.flags| == SlotsFor(objSize, mb.order);
    assert Chunk(s.slots, mb.order) in SlabChunks(s, objSize);
  }

  lemma TwoHold(ms: seq<Member>, i: nat, j: nat)
    requires i < |ms| && j < |ms| && i != j
    ensures Chunks(ms[i].cache) + Chunks(ms[j].cache) <= Holdings(ms)
  {
    hide Holdings, Chunks;
    var j' := if j < i then j else j - 1;
    var others := Without(ms, i);
    assert others[j'] == ms[j];
    HoldingsAt(ms, i, ms[i].cache);
    HoldingsPart(others, j');
    hide Without, Holds;
    TwoParts(Holdings(ms), Holds(ms[i]), Holdings(others), Chunks(ms[i].cache), Chunks(ms[j].cache));
  }

  lemma TwoParts(all: multiset<Chunk>, a: multiset<Chunk>, b: multiset<Chunk>, x: multiset<Chunk>, y: multiset<Chunk>)
    requires all == a + b && x <= a && y <= b
    ensures x + y <= all
  {
  }

  /** A slab of another cache claims a live object exactly when it ends where the object starts. */
  lemma ForeignClaim(m: Arena.State, ms: seq<Member>, i: nat, j: nat, owner: Slab, t: Slab, ptr: int)
    requires AllOk(m, ms) && i < |ms| && j < |ms| && i != j && owner in Pool(ms[i].cache) && t in Pool(ms[j].cache)
    requires InUse(owner, ms[i].cache.objSize, ptr)
    ensures IsHere(t, ms[j].cache.objSize, ptr) <==> EndsAt(t, ms[j].cache.objSize, ptr)
  {
    var c, d := ms[i].cache, ms[j].cache;
    AreasApart(m, ms, i, j, owner, t);
    SlabFits(m, ms[i], owner);
    SlabFits(m, ms[j], t);
    InUseInside(owner, c.objSize, ptr, Pow2(ms[i].order));
  }

  lemma SlabFits(m: Arena.State, mb: Member, s: Slab)
    requires SysOk(Sys(m, mb.cache), mb.order) && s in Pool(mb.cache)
    ensures mb.cache.objSize > 0 && 0 <= |s.flags| * mb.cache.objSize <= Pow2(mb.order)
  {
    MulMonotone(0, |s.flags|, mb.cache.objSize);
  }

  /** kfree of a live object comes to the cache that owns it exactly when no slab that is searched in an earlier cache
      ends where the object starts. */
  lemma KfreeRoutedExactly(m: Arena.State, ms: seq<Member>, k: nat, ptr: int)
    requires AllOk(m, ms) && k < |ms| && Live(ms[k].cache, ptr)
    ensures Claiming(ms, ptr) == k <==> forall j :: 0 <= j < k ==> !SomeEndsAt(ms[j].cache, ptr)
  {
    hide SysOk, Arena.Inv, Find, InUse, Holdings, EndsAt, IsHere;
    var i := OwnerOf(m, ms[k], ptr);
    var owner := Searched(ms[k].cache)[i];
    forall j | 0 <= j < k
      ensures Find(Searched(ms[j].cache), ms[j].cache.objSize, ptr) == |Searched(ms[j].cache)| <==> !SomeEndsAt(ms[j].cache, ptr)
    {
      var c := ms[j].cache;
      FindNone(Searched(c), c.objSize, ptr);
      forall t | t in Searched(c)
        ensures IsHere(t, c.objSize, ptr) <==> EndsAt(t, c.objSize, ptr)
      {
        SearchedPooled(c, t);
        ForeignClaim(m, ms, k, j, owner, t, ptr);
      }
    }
    ClaimingFirst(ms, ptr, k);
  }

  lemma SearchedPooled(c: Cache, t: Slab)
    requires t in Searched(c)
    ensures t in Pool(c)
  {
    PoolParts(c);
    assert t in c.full || t in c.half;
  }

  lemma OwnerOf(m: Arena.State, mb: Member, ptr: int) returns (i: nat)
    requires SysOk(Sys(m, mb.cache), mb.order) && Live(mb.cache, ptr)
    ensures i < |Searched(mb.cache)| && Searched(mb.cache)[i] in Pool(mb.cache)
    ensures InUse(Searched(mb.cache)[i], mb.cache.objSize, ptr)
    ensures Find(Searched(mb.cache), mb.cache.objSize, ptr) < |Searched(mb.cache)|
  {
    var n, size := SlotsFor(mb.cache.objSize, mb.order), Pow2(mb.order);
    i := OwnerSearched(mb.cache, n, size, ptr);
    OwnerClaims(mb.cache, n, size, i, ptr);
    FindFirst(Searched(mb.cache), mb.cache.objSize, ptr, i);
  }

  // ---------------------------------------------------------------- size classes of kalloc

  /** The order of the size class of a request: the least 2^j >= max(size, 2^5). */
  function ClassFrom(size: int, j: nat): (r: nat)
    decreases size - Pow2(j)
  {
    if Pow2(j) < size then ClassFrom(size, j + 1) else j
  }

  function Class(size: int): nat {
    ClassFrom(if size < 32 then 32 else size, 5)
  }

  lemma {:induction false} ClassFromLeast(size: int, j: nat)
    requires j >= 5 && (j == 5 || Pow2(j - 1) < size)
    ensures ClassFrom(size, j) >= j && Pow2(ClassFrom(size, j)) >= size
    ensures ClassFrom(size, j) == 5 || Pow2(ClassFrom(size, j) - 1) < size
    decreases size - Pow2(j)
  {
    if Pow2(j) < size {
      ClassFromLeast(size, j + 1);
    }
  }

  /** Requests of up to 2^17 bytes get the smallest power of two from 2^5 to 2^17 that holds them. */
  lemma ClassIsLeast(size: int)
    requires size <= Pow2(17)
    ensures 5 <= Class(size) <= 17 && Pow2(Class(size)) >= size
    ensures forall j: nat :: j >= 5 && Pow2(j) >= size ==> Class(size) <= j
  {
    assert Pow2(5) == 32;
    var c := Class(size);
    ClassFromLeast(if size < 32 then 32 else size, 5);
    assert size <= 32 ==> c == 5;
    hide Pow2, Class;
    forall j: nat | j >= 5 && Pow2(j) >= size
      ensures c <= j
    {
      if c > j {
        Pow2Monotone(c - 1, j);
      }
    }
  }

  /** Caches of kalloc fill their slot areas exactly: the smallest page multiple that is a multiple of the class. */
  lemma ClassFillsChunk(j: nat, k: nat)
    requires 5 <= j <= 17 && Optimal(Pow2(j), k)
    ensures k == (if j < 12 then 12 else j) && SlotsFor(Pow2(j), k) * Pow2(j) == Pow2(k)
  {
    var o := if j < 12 then 12 else j;
    Fills(j, o);
    hide Pow2, Waste;
    Pow2Monotone(o, j);
    assert Candidate(Pow2(j), o);
    if k < j {
      Pow2Monotone(j, k);
    }
    Fills(j, k);
  }

  /** 2^j divides 2^k. */
  lemma Fills(j: nat, k: nat)
    requires j <= k
    ensures Waste(Pow2(j), k) == 0 && SlotsFor(Pow2(j), k) * Pow2(j) == Pow2(k)
  {
    Pow2Sum(j, k - j);
    hide Pow2;
    WholeMultiple(Pow2(j), k, Pow2(k - j));
    hide Waste, SlotsFor;
  }

  lemma WholeMultiple(objSize: int, k: nat, q: nat)
    requires objSize > 0 && Pow2(k) == objSize * q
    ensures Waste(objSize, k) == 0 && SlotsFor(objSize, k) == q
  {
    hide Pow2;
    DivModUnique(Pow2(k), objSize, q, 0);
  }

  // ---------------------------------------------------------------- kalloc and kfree on live objects

  /** p is a live object of some cache of the list. */
  ghost predicate LiveAny(ms: seq<Member>, p: int) {
    exists i :: 0 <= i < |ms| && Live(ms[i].cache, p)
  }

  /** The first cache of the list with objects of the given size; |ms| when there is none. */
  function FirstOfSize(ms: seq<Member>, objSize: int): (i: nat)
    ensures i <= |ms|
    ensures i < |ms| ==> ms[i].cache.objSize == objSize
    ensures forall j :: 0 <= j < i ==> ms[j].cache.objSize != objSize
  {
    if ms == [] || ms[0].cache.objSize == objSize then 0 else 1 + FirstOfSize(ms[1..], objSize)
  }

  /** The order findOptimalSlabSize picks for objects of 2^j bytes (ClassFillsChunk). */
  function ClassOrder(j: nat): nat {
    if j < 12 then 12 else j
  }

  /** kalloc: from the first cache of the request's size class, or from a new one put at the head of the list. */
  function Kalloc(m: Arena.State, ms: seq<Member>, size: int): (Option<int>, Arena.State, seq<Member>) {
    if size > Pow2(17) then (None, m, ms) else KallocClass(m, ms, Class(size))
  }

  function KallocClass(m: Arena.State, ms: seq<Member>, j: nat): (Option<int>, Arena.State, seq<Member>) {
    var i := FirstOfSize(ms, Pow2(j));
    if i < |ms| then
      var (r, s) := AllocOne(Sys(m, ms[i].cache), SlotsFor(Pow2(j), ms[i].order));
      (r, s.mem, ms[i := ms[i].(cache := s.cache)])
    else KallocNew(m, ms, j)
  }

  function KallocNew(m: Arena.State, ms: seq<Member>, j: nat): (Option<int>, Arena.State, seq<Member>) {
    var n := SlotsFor(Pow2(j), ClassOrder(j));
    var (h, m1) := Request(m, CACHE_HEADER);
    if h.None? then (None, m, ms)
    else
      var (r, s) := AllocOne(NewCache(m1, Pow2(j), n), n);
      (r, s.mem, [Member(h.value, s.cache, ClassOrder(j))] + ms)
  }

  /** The classes' slab sizes are optimal. */
  lemma ClassOptimal(j: nat)
    requires 5 <= j <= 17
    ensures Optimal(Pow2(j), ClassOrder(j))
  {
    var o := ClassOrder(j);
    hide Pow2, Waste;
    Pow2Monotone(o, j);
    Fills(j, o);
    forall k: nat | Candidate(Pow2(j), k)
      ensures 0 <= Waste(Pow2(j), k) && o <= k
    {
      NoNegativeWaste(Pow2(j), k);
      if k < j {
        Pow2Monotone(j, k);
      }
    }
  }

  lemma NoNegativeWaste(objSize: int, k: nat)
    requires objSize > 0
    ensures Waste(objSize, k) >= 0
  {
  }

  /** c' has one more live object than c, or none when r is None. */
  ghost predicate Gains(c: Cache, r: Option<int>, c': Cache) {
    && (r.Some? ==> !Live(c, r.value))
    && forall q :: Live(c', q) <==> Live(c, q) || (r.Some? && q == r.value)
  }

  ghost predicate GainsAny(ms: seq<Member>, r: Option<int>, ms': seq<Member>) {
    && (r.Some? ==> !LiveAny(ms, r.value))
    && forall q :: LiveAny(ms', q) <==> LiveAny(ms, q) || (r.Some? && q == r.value)
  }

  lemma AllocGains(s: Sys, k: nat)
    requires s.cache.objSize > 0 && SysOk(s, k)
    ensures var (r, s') := AllocOne(s, SlotsFor(s.cache.objSize, k));
      SysOk(s', k) && Rest(s') == Rest(s) && Gains(s.cache, r, s'.cache)
  {
    hide SysOk, AllocOne, SlotsFor, Live, Rest, CreateSlab, HasRoom;
    AllocOneKeeps(s, k);
    var (r, s') := AllocOne(s, SlotsFor(s.cache.objSize, k));
    forall q
      ensures Live(s'.cache, q) <==> Live(s.cache, q) || (r.Some? && q == r.value)
    {
    }
  }

  lemma AllocAtKeeps(m: Arena.State, ms: seq<Member>, i: nat)
    requires AllOk(m, ms) && i < |ms|
    ensures ms[i].cache.objSize > 0
    ensures var (r, s) := AllocOne(Sys(m, ms[i].cache), SlotsFor(ms[i].cache.objSize, ms[i].order));
      AllOk(s.mem, ms[i := ms[i].(cache := s.cache)]) && Gains(ms[i].cache, r, s.cache)
  {
    var s := Sys(m, ms[i].cache);
    SlabRuns.SystemOk(s, ms[i].order);
    hide SysOk, AllocOne, SlotsFor, Gains, Rest, Arena.Inv, Holdings;
    AllocGains(s, ms[i].order);
    hide AllOk;
    WorkKeepsAll(m, ms, i, AllocOne(s, SlotsFor(ms[i].cache.objSize, ms[i].order)).1);
  }

  /** Caches of one arena have no live object in common. */
  lemma LiveInOne(m: Arena.State, ms: seq<Member>, i: nat, j: nat, p: int)
    requires AllOk(m, ms) && i < |ms| && j < |ms| && Live(ms[i].cache, p) && Live(ms[j].cache, p)
    ensures i == j
  {
    hide AllOk, InUse, Pool;
    if i != j {
      var c, d := ms[i].cache, ms[j].cache;
      var s :| s in Pool(c) && InUse(s, c.objSize, p);
      var t :| t in Pool(d) && InUse(t, d.objSize, p);
      NotInBoth(m, ms, i, j, s, t, p);
    }
  }

  lemma NotInBoth(m: Arena.State, ms: seq<Member>, i: nat, j: nat, s: Slab, t: Slab, p: int)
    requires AllOk(m, ms) && i < |ms| && j < |ms| && i != j && s in Pool(ms[i].cache) && t in Pool(ms[j].cache)
    ensures !InUse(s, ms[i].cache.objSize, p) || !InUse(t, ms[j].cache.objSize, p)
  {
    hide SysOk, Arena.Inv, InUse, Holdings, Pool;
    AreasApart(m, ms, i, j, s, t);
    SlabFits(m, ms[i], s);
    SlabFits(m, ms[j], t);
    if InUse(s, ms[i].cache.objSize, p) && InUse(t, ms[j].cache.objSize, p) {
      InUseInside(s, ms[i].cache.objSize, p, Pow2(ms[i].order));
      InUseInside(t, ms[j].cache.objSize, p, Pow2(ms[j].order));
    }
  }

  /** What one cache gains the list gains. */
  lemma GainAny(m: Arena.State, ms: seq<Member>, ms': seq<Member>, i: nat, r: Option<int>, m': Arena.State)
    requires AllOk(m, ms) && AllOk(m', ms') && i < |ms'| && |ms| == |ms'|
    requires forall j :: 0 <= j < |ms| && j != i ==> ms[j].cache == ms'[j].cache
    requires Gains(ms[i].cache, r, ms'[i].cache)
    ensures GainsAny(ms, r, ms')
  {
    hide AllOk, Live;
    if r.Some? && LiveAny(ms, r.value) {
      var j :| 0 <= j < |ms| && Live(ms[j].cache, r.value);
      assert Live(ms'[j].cache, r.value);
      LiveInOne(m', ms', i, j, r.value);
    }
    forall q
      ensures LiveAny(ms', q) <==> LiveAny(ms, q) || (r.Some? && q == r.value)
    {
      if LiveAny(ms', q) {
        var j :| 0 <= j < |ms'| && Live(ms'[j].cache, q);
        assert j != i ==> Live(ms[j].cache, q);
        assert j == i ==> Live(ms[i].cache, q) || (r.Some? && q == r.value);
      }
      if LiveAny(ms, q) {
        var j :| 0 <= j < |ms| && Live(ms[j].cache, q);
        assert Live(ms'[j].cache, q);
      }
      if r.Some? && q == r.value {
        assert Live(ms'[i].cache, q);
      }
    }
  }

  /** A cache with no live object put at the head changes nothing. */
  lemma SameAny(ms: seq<Member>, mb: Member)
    requires forall q :: !Live(mb.cache, q)
    ensures forall q :: LiveAny([mb] + ms, q) <==> LiveAny(ms, q)
  {
    hide Live;
    var ms' := [mb] + ms;
    forall q
      ensures LiveAny(ms', q) <==> LiveAny(ms, q)
    {
      if LiveAny(ms, q) {
        var j :| 0 <= j < |ms| && Live(ms[j].cache, q);
        assert ms'[j + 1] == ms[j];
      }
      if LiveAny(ms', q) {
        var j :| 0 <= j < |ms'| && Live(ms'[j].cache, q);
        assert ms'[j] == ms[j - 1];
      }
    }
  }

  /** kalloc keeps every cache in order, and makes live exactly the address it returns, which no cache had live. */
  lemma KallocRefines(m: Arena.State, ms: seq<Member>, size: int)
    requires AllOk(m, ms)
    ensures var (r, m', ms') := Kalloc(m, ms, size);
      AllOk(m', ms') && GainsAny(ms, r, ms')
  {
    hide AllOk, Gains, AllocOne, Pow2, Class, SlotsFor, NewCache, KallocNew;
    var j := Class(size);
    if size <= Pow2(17) {
      ClassIsLeast(size);
      var i := FirstOfSize(ms, Pow2(j));
      if i < |ms| {
        AllocAtKeeps(m, ms, i);
        var (r, s) := AllocOne(Sys(m, ms[i].cache), SlotsFor(Pow2(j), ms[i].order));
        GainAny(m, ms, ms[i := ms[i].(cache := s.cache)], i, r, s.mem);
      } else {
        KallocNewRefines(m, ms, j);
      }
    }
  }

  lemma KallocNewRefines(m: Arena.State, ms: seq<Member>, j: nat)
    requires AllOk(m, ms) && 5 <= j <= 17
    ensures var (r, m', ms') := KallocNew(m, ms, j);
      AllOk(m', ms') && GainsAny(ms, r, ms')
  {
    hide AllOk, Live, AllocOne, SlotsFor, NewCache, LiveAny, Optimal, Request, ClassOrder, Gains;
    var k, objSize := ClassOrder(j), Pow2(j);
    ClassOptimal(j);
    hide Pow2;
    CreateKeepsAll(m, ms, objSize, k);
    var (h, m1) := Request(m, CACHE_HEADER);
    if h.Some? {
      var n := SlotsFor(objSize, k);
      var s0 := NewCache(m1, objSize, n);
      var mb := Member(h.value, s0.cache, k);
      HeaderKeeps(m, ms);
      SlabRuns.NewCacheKeeps(m1, objSize, k);
      SlabRuns.NewSize(m1, objSize, n);
      SameAny(ms, mb);
      FirstGains(s0, ms, mb, n);
    }
  }

  lemma FirstGains(s0: Sys, ms: seq<Member>, mb: Member, n: nat)
    requires AllOk(s0.mem, [mb] + ms) && s0.cache == mb.cache && mb.cache.objSize > 0
    requires n == SlotsFor(mb.cache.objSize, mb.order)
    requires forall q :: LiveAny([mb] + ms, q) <==> LiveAny(ms, q)
    ensures var (r, s) := AllocOne(s0, n);
      AllOk(s.mem, [mb.(cache := s.cache)] + ms) && GainsAny(ms, r, [mb.(cache := s.cache)] + ms)
  {
    hide AllOk, AllocOne, SlotsFor, LiveAny, Gains;
    var ms1 := [mb] + ms;
    AllocAtKeeps(s0.mem, ms1, 0);
    var (r, s) := AllocOne(s0, n);
    var ms2 := ms1[0 := mb.(cache := s.cache)];
    GainAny(s0.mem, ms1, ms2, 0, r, s.mem);
    assert ms2 == [mb.(cache := s.cache)] + ms;
  }

  lemma HeaderKeeps(m: Arena.State, ms: seq<Member>)
    requires AllOk(m, ms)
    ensures Arena.Inv(Request(m, CACHE_HEADER).1)
  {
    RequestKeeps(m, CACHE_HEADER);
  }

  /** kfree: the first cache that claims the address takes it back. */
  function Kfree(m: Arena.State, ms: seq<Member>, ptr: int): (Arena.State, seq<Member>)
    requires forall i :: 0 <= i < |ms| ==> ms[i].cache.objSize > 0
  {
    var i := Claiming(ms, ptr);
    if i == |ms| then (m, ms)
    else
      var s := FreeOne(Sys(m, ms[i].cache), ptr);
      (s.mem, ms[i := ms[i].(cache := s.cache)])
  }

  /** The side condition of kfree: no slab searched before the owner's, in its cache or an earlier one, ends at ptr. */
  ghost predicate RoutedIn(ms: seq<Member>, ptr: int, k: nat) {
    && k < |ms|
    && (exists i :: Routed(ms[k].cache, ptr, i))
    && forall j :: 0 <= j < k ==> !SomeEndsAt(ms[j].cache, ptr)
  }

  lemma SizesPositive(m: Arena.State, ms: seq<Member>)
    requires AllOk(m, ms)
    ensures forall i :: 0 <= i < |ms| ==> ms[i].cache.objSize > 0
  {
    forall i | 0 <= i < |ms|
      ensures ms[i].cache.objSize > 0
    {
      SlabRuns.SystemOk(Sys(m, ms[i].cache), ms[i].order);
    }
  }

  /** kfree under its side condition keeps every cache in order, and makes exactly ptr not live. */
  lemma KfreeRefines(m: Arena.State, ms: seq<Member>, ptr: int, k: nat)
    requires AllOk(m, ms) && RoutedIn(ms, ptr, k)
    requires forall i :: 0 <= i < |ms| ==> ms[i].cache.objSize > 0
    ensures var (m', ms') := Kfree(m, ms, ptr);
      AllOk(m', ms') && LiveAny(ms, ptr) && forall q :: LiveAny(ms', q) <==> LiveAny(ms, q) && q != ptr
  {
    hide FreeOne, SysOk, Rest, Claiming, LiveAny, Routed, SomeEndsAt, Loses, Holdings, Arena.Inv;
    var i :| Routed(ms[k].cache, ptr, i);
    var s := Sys(m, ms[k].cache);
    var s' := FreeOne(s, ptr);
    FreeLoses(s, ms[k].order, ptr, i);
    hide AllOk;
    KfreeRoutedExactly(m, ms, k, ptr);
    WorkKeepsAll(m, ms, k, s');
    LoseAny(m, ms, ms[k := ms[k].(cache := s'.cache)], k, ptr);
  }

  /** c' has the live objects of c but ptr. */
  ghost predicate Loses(c: Cache, ptr: int, c': Cache) {
    Live(c, ptr) && forall q :: Live(c', q) <==> Live(c, q) && q != ptr
  }

  lemma FreeLoses(s: Sys, k: nat, ptr: int, i: nat)
    requires s.cache.objSize > 0 && SysOk(s, k) && Routed(s.cache, ptr, i)
    ensures SysOk(FreeOne(s, ptr), k) && Rest(FreeOne(s, ptr)) == Rest(s) && Live(s.cache, ptr)
    ensures Loses(s.cache, ptr, FreeOne(s, ptr).cache)
  {
    hide SysOk, FreeOne, Live, Rest, Routed;
    FreeOneKeeps(s, k, ptr, i);
  }

  /** What callers may rely on: kfree of such an object is allowed and makes exactly it not live. */
  lemma KfreeReaches(m: Arena.State, ms: seq<Member>, ptr: int)
    requires AllOk(m, ms) && exists k :: RoutedIn(ms, ptr, k)
    requires forall i :: 0 <= i < |ms| ==> ms[i].cache.objSize > 0
    ensures Claiming(ms, ptr) < |ms| && InSlot(ms[Claiming(ms, ptr)].cache, ptr)
    ensures LiveAny(ms, ptr) && forall q :: LiveAny(Kfree(m, ms, ptr).1, q) <==> LiveAny(ms, q) && q != ptr
  {
    hide AllOk, LiveAny, RoutedIn, Kfree, Claiming, InSlot;
    var k :| RoutedIn(ms, ptr, k);
    RoutedClaims(m, ms, ptr, k);
    KfreeRefines(m, ms, ptr, k);
  }

  lemma RoutedClaims(m: Arena.State, ms: seq<Member>, ptr: int, k: nat)
    requires AllOk(m, ms) && RoutedIn(ms, ptr, k)
    ensures k < |ms| && Claiming(ms, ptr) == k && InSlot(ms[k].cache, ptr)
  {
    hide Arena.Inv, SysOk, Holdings, Live, FreeOne, Claiming, Routed, SomeEndsAt, InSlot, FreeStatus;
    RoutedFree(Sys(m, ms[k].cache), ms[k].order, ptr);
    KfreeRoutedExactly(m, ms, k, ptr);
  }

  lemma LoseAny(m: Arena.State, ms: seq<Member>, ms': seq<Member>, k: nat, ptr: int)
    requires AllOk(m, ms) && k < |ms| && |ms| == |ms'| && Loses(ms[k].cache, ptr, ms'[k].cache)
    requires forall j :: 0 <= j < |ms| && j != k ==> ms[j].cache == ms'[j].cache
    ensures LiveAny(ms, ptr) && forall q :: LiveAny(ms', q) <==> LiveAny(ms, q) && q != ptr
  {
    hide AllOk, Live;
    forall q
      ensures LiveAny(ms', q) <==> LiveAny(ms, q) && q != ptr
    {
      if LiveAny(ms', q) {
        var j :| 0 <= j < |ms'| && Live(ms'[j].cache, q);
        assert Live(ms[j].cache, q);
        if q == ptr { LiveInOne(m, ms, j, k, q); }
      }
      if LiveAny(ms, q) && q != ptr {
        var j :| 0 <= j < |ms| && Live(ms[j].cache, q);
        assert Live(ms'[j].cache, q);
      }
    }
  }

  // ---------------------------------------------------------------- where objects lie

  /** A live object lies inside the slot area of one slab, which is one live chunk of the arena. */
  lemma ObjectInChunk(m: Arena.State, mb: Member, p: int) returns (s: Slab)
    requires SysOk(Sys(m, mb.cache), mb.order) && Live(mb.cache, p)
    ensures s in Pool(mb.cache) && InUse(s, mb.cache.objSize, p) && Chunk(s.slots, mb.order) in m.live
    ensures s.slots <= p && p + mb.cache.objSize <= s.slots + Pow2(mb.order) && mb.cache.objSize > 0
  {
    hide InUse, Pool;
    s :| s in Pool(mb.cache) && InUse(s, mb.cache.objSize, p);
    SlotHeld(m, mb, s);
    SlabFits(m, mb, s);
    InUseInside(s, mb.cache.objSize, p, Pow2(mb.order));
  }

  /** Objects of one slab do not overlap. */
  lemma SameSlabApart(s: Slab, objSize: int, p: int, q: int)
    requires objSize > 0 && InUse(s, objSize, p) && InUse(s, objSize, q) && p != q
    ensures p + objSize <= q || q + objSize <= p
  {
    var i :| 0 <= i < |s.flags| && !s.flags[i] && p == Object(s, objSize, i);
    var j :| 0 <= j < |s.flags| && !s.flags[j] && q == Object(s, objSize, j);
    if i < j {
      ObjectsDiffer(s, objSize, i, j);
    } else {
      ObjectsDiffer(s, objSize, j, i);
    }
  }

  /** Nor do slot areas of one cache. */
  lemma SameCacheApart(m: Arena.State, mb: Member, s: Slab, t: Slab)
    requires SysOk(Sys(m, mb.cache), mb.order) && s in Pool(mb.cache) && t in Pool(mb.cache) && s != t
    ensures s.slots + Pow2(mb.order) <= t.slots || t.slots + Pow2(mb.order) <= s.slots
  {
    assert SlabSpec.Disjoint(s, t, Pow2(mb.order));
  }

  /** No two live objects of any caches of the list share a byte. */
  lemma ObjectsApart(m: Arena.State, ms: seq<Member>, i: nat, j: nat, p: int, q: int)
    requires AllOk(m, ms) && i < |ms| && j < |ms| && Live(ms[i].cache, p) && Live(ms[j].cache, q) && p != q
    ensures p + ms[i].cache.objSize <= q || q + ms[j].cache.objSize <= p
  {
    hide SysOk, Arena.Inv, Live, InUse, Pool, Holdings, Pow2;
    var s := ObjectInChunk(m, ms[i], p);
    var t := ObjectInChunk(m, ms[j], q);
    if i != j {
      AreasApart(m, ms, i, j, s, t);
    } else if s != t {
      SameCacheApart(m, ms[i], s, t);
    } else {
      SameSlabApart(s, ms[i].cache.objSize, p, q);
    }
  }

  /** What kalloc returns is an object of at least the bytes asked for. */
  lemma KallocSize(m: Arena.State, ms: seq<Member>, size: int)
    requires AllOk(m, ms)
    ensures var (r, m', ms') := Kalloc(m, ms, size);
      r.Some? ==> exists i :: 0 <= i < |ms'| && Live(ms'[i].cache, r.value) && ms'[i].cache.objSize >= size
  {
    hide AllOk, AllocOne, Class, SlotsFor, KallocNew, Live, Gains, KallocClass, Pow2;
    if size <= Pow2(17) {
      ClassIsLeast(size);
      ClassSize(m, ms, Class(size));
    }
  }

  lemma ClassSize(m: Arena.State, ms: seq<Member>, j: nat)
    requires AllOk(m, ms) && 5 <= j <= 17
    ensures var (r, m', ms') := KallocClass(m, ms, j);
      r.Some? ==> exists i :: 0 <= i < |ms'| && Live(ms'[i].cache, r.value) && ms'[i].cache.objSize == Pow2(j)
  {
    hide AllOk, AllocOne, SlotsFor, KallocNew, Live, Gains, Pow2;
    var (r, m', ms') := KallocClass(m, ms, j);
    if r.Some? {
      var i := FirstOfSize(ms, Pow2(j));
      if i < |ms| {
        AllocAtKeeps(m, ms, i);
        GainedSize(Sys(m, ms[i].cache), ms[i].order);
        assert Live(ms'[i].cache, r.value);
      } else {
        NewSize(m, ms, j);
        assert Live(ms'[0].cache, r.value);
      }
    }
  }

  lemma GainedSize(s: Sys, k: nat)
    requires s.cache.objSize > 0
    requires var (r, s') := AllocOne(s, SlotsFor(s.cache.objSize, k)); Gains(s.cache, r, s'.cache)
    ensures var (r, s') := AllocOne(s, SlotsFor(s.cache.objSize, k));
      s'.cache.objSize == s.cache.objSize && (r.Some? ==> Live(s'.cache, r.value))
  {
    SlabRuns.TakeSize(s, SlotsFor(s.cache.objSize, k));
    hide AllocOne, SlotsFor, Live;
  }

  lemma NewSize(m: Arena.State, ms: seq<Member>, j: nat)
    requires AllOk(m, ms) && 5 <= j <= 17 && KallocNew(m, ms, j).0.Some?
    ensures var (r, m', ms') := KallocNew(m, ms, j);
      ms' != [] && ms'[0].cache.objSize == Pow2(j) && Live(ms'[0].cache, r.value)
  {
    hide AllOk, AllocOne, SlotsFor, NewCache, Optimal, Request, ClassOrder, Live, Gains, Arena.Inv;
    var k, objSize := ClassOrder(j), Pow2(j);
    ClassOptimal(j);
    hide Pow2;
    var (h, m1) := Request(m, CACHE_HEADER);
    HeaderKeeps(m, ms);
    var s0 := NewCache(m1, objSize, SlotsFor(objSize, k));
    SlabRuns.NewCacheKeeps(m1, objSize, k);
    SlabRuns.NewSize(m1, objSize, SlotsFor(objSize, k));
    hide SysOk;
    AllocGains(s0, k);
    GainedSize(s0, k);
  }
}
