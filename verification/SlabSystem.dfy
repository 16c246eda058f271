/** A cache together with the buddy allocator under it: what each operation does to both. */
module SlabSystem {
  import opened Wrappers
  import opened PowersOfTwo
  import opened Blocks
  import BuddySpec
  import BuddyInvariant
  import Arena = BuddyTheorems
  import opened SlabSpec
  import opened SlabTheorems
  import opened SlabPages

  // ---------------------------------------------------------------- buddy requests

  function ChunkFor(off: int, size: int): Chunk {
    Chunk(off, BuddySpec.OrderOf(size))
  }

  function Request(m: Arena.State, size: int): (Option<int>, Arena.State) {
    var k := BuddySpec.OrderOf(size);
    if size > ARENA || k > MAX_ORDER then (None, m)
    else
      var (r, l) := BuddySpec.AllocSpec(m.lists, k);
      (r, Arena.State(l, if r.Some? then m.live + {Chunk(r.value, k)} else m.live))
  }

  function Release(m: Arena.State, c: Chunk): Arena.State {
    if c.ord > MAX_ORDER then m else Arena.State(BuddySpec.FreeSpec(m.lists, c), m.live - {c})
  }

  /** A request that succeeds makes one new chunk live, and releasing that chunk undoes it down to list order. */
  lemma RequestKeeps(m: Arena.State, size: int)
    requires Arena.Inv(m)
    ensures var (r, m') := Request(m, size);
      && Arena.Inv(m')
      && (r.None? ==> m' == m)
      && (r.Some? ==> var c := ChunkFor(r.value, size);
            c !in m.live && m'.live == m.live + {c} && multiset(m'.live) == multiset(m.live) + multiset{c}
            && Release(m', c) == m)
  {
    var k := BuddySpec.OrderOf(size);
    Arena.OrderIsLeast(size);
    if size <= ARENA && k <= MAX_ORDER {
      BuddyInvariant.AllocKeeps(m.lists, m.live, k);
      BuddyInvariant.AllocCoalesced(m.lists, k);
      Arena.AllocFreeRoundTrip(m.lists, m.live, k);
      var (r, m') := Request(m, size);
      if r.Some? {
        assert m.live + {ChunkFor(r.value, size)} - {ChunkFor(r.value, size)} == m.live;
      }
    }
  }

  lemma ReleaseKeeps(m: Arena.State, c: Chunk)
    requires Arena.Inv(m) && c in m.live
    ensures c.ord <= MAX_ORDER
    ensures Arena.Inv(Release(m, c)) && multiset(Release(m, c).live) == multiset(m.live) - multiset{c}
  {
    assert Block(c);
    BuddyInvariant.FreeKeeps(m.lists, m.live, c);
    BuddyInvariant.FreeCoalesced(m.lists, m.live, c);
    assert m.live == m.live - {c} + {c};
  }

  // ---------------------------------------------------------------- making slabs

  /** createSlab. A request that fails leaves the arena as it was found. */
  function CreateSlab(m: Arena.State, slotSize: int, n: nat): (Option<Slab>, Arena.State) {
    var (a, m1) := Request(m, SLAB_HEADER);
    if a.None? then (None, m)
    else
      var (f, m2) := Request(m1, n * 4);
      if f.None? then (None, m)
      else
        var (s, m3) := Request(m2, n * slotSize);
        if s.None? then (None, m)
        else (Some(Slab(a.value, f.value, s.value, seq(n, _ => true))), m3)
  }

  /** A created slab holds three chunks that were not live before, and all its slots are free. */
  lemma CreateSlabKeeps(m: Arena.State, slotSize: int, n: nat)
    requires Arena.Inv(m)
    ensures var (r, m') := CreateSlab(m, slotSize, n);
      && Arena.Inv(m')
      && (r.None? ==> m' == m)
      && (r.Some? ==> NewSlab(m, r.value, m', slotSize, n))
  {
    hide Request, Arena.Inv, BuddySpec.OrderOf, NewSlab;
    RequestKeeps(m, SLAB_HEADER);
    var (a, m1) := Request(m, SLAB_HEADER);
    RequestKeeps(m1, n * 4);
    var (f, m2) := Request(m1, n * 4);
    RequestKeeps(m2, n * slotSize);
    var (o, m3) := Request(m2, n * slotSize);
    if a.Some? && f.Some? && o.Some? {
      ThreeChunks(m, m1, m2, m3, Slab(a.value, f.value, o.value, seq(n, _ => true)), slotSize, n);
    }
  }

  ghost predicate NewSlab(m: Arena.State, s: Slab, m': Arena.State, slotSize: int, n: nat) {
    && multiset(m'.live) == multiset(m.live) + SlabChunks(s, slotSize)
    && ChunkFor(s.slots, n * slotSize) in m'.live
    && ChunkFor(s.slots, n * slotSize) !in m.live
    && |s.flags| == n && (forall i :: 0 <= i < n ==> s.flags[i])
  }

  lemma ThreeChunks(m: Arena.State, m1: Arena.State, m2: Arena.State, m3: Arena.State, s: Slab, slotSize: int, n: nat)
    requires |s.flags| == n && forall i :: 0 <= i < n ==> s.flags[i]
    requires multiset(m1.live) == multiset(m.live) + multiset{ChunkFor(s.addr, SLAB_HEADER)}
    requires multiset(m2.live) == multiset(m1.live) + multiset{ChunkFor(s.flagsAddr, n * 4)}
    requires multiset(m3.live) == multiset(m2.live) + multiset{ChunkFor(s.slots, n * slotSize)}
    requires ChunkFor(s.slots, n * slotSize) !in m2.live
    ensures NewSlab(m, s, m3, slotSize, n)
  {
    hide BuddySpec.OrderOf;
    var c := ChunkFor(s.slots, n * slotSize);
    assert c in multiset(m3.live);
    assert c in m.live ==> c in multiset(m2.live);
  }

  /** destroySlab: slots and flags go back, the header does not. */
  function DropSlab(m: Arena.State, s: Slab, objSize: int): Arena.State {
    Release(Release(m, ChunkFor(s.slots, |s.flags| * objSize)), ChunkFor(s.flagsAddr, |s.flags| * 4))
  }

  function DropAll(m: Arena.State, l: seq<Slab>, objSize: int): Arena.State
    decreases |l|
  {
    if l == [] then m else DropAll(DropSlab(m, l[0], objSize), l[1..], objSize)
  }

  /** destroySlab followed by the release of the header, for each slab in turn. */
  function DestroyAll(m: Arena.State, l: seq<Slab>, objSize: int): Arena.State
    decreases |l|
  {
    if l == [] then m
    else DestroyAll(Release(DropSlab(m, l[0], objSize), ChunkFor(l[0].addr, SLAB_HEADER)), l[1..], objSize)
  }

  function SlabBody(s: Slab, objSize: int): multiset<Chunk> {
    multiset{ChunkFor(s.flagsAddr, |s.flags| * 4), ChunkFor(s.slots, |s.flags| * objSize)}
  }

  lemma DropSlabKeeps(m: Arena.State, s: Slab, objSize: int)
    requires Arena.Inv(m) && SlabBody(s, objSize) <= multiset(m.live)
    ensures Arena.Inv(DropSlab(m, s, objSize))
    ensures multiset(DropSlab(m, s, objSize).live) == multiset(m.live) - SlabBody(s, objSize)
    ensures ChunkFor(s.slots, |s.flags| * objSize) in m.live
    ensures ChunkFor(s.flagsAddr, |s.flags| * 4) in Release(m, ChunkFor(s.slots, |s.flags| * objSize)).live
  {
    hide Release, Arena.Inv, BuddySpec.OrderOf;
    var c, d := ChunkFor(s.slots, |s.flags| * objSize), ChunkFor(s.flagsAddr, |s.flags| * 4);
    assert SlabBody(s, objSize) == multiset{d, c};
    assert c in multiset(m.live);
    ReleaseKeeps(m, c);
    assert multiset{d, c} - multiset{c} == multiset{d};
    assert d in multiset(Release(m, c).live);
    ReleaseKeeps(Release(m, c), d);
  }

  lemma {:induction false} DropAllKeeps(m: Arena.State, l: seq<Slab>, objSize: int)
    requires Arena.Inv(m) && BodyChunks(l, objSize) <= multiset(m.live)
    ensures Arena.Inv(DropAll(m, l, objSize))
    ensures multiset(DropAll(m, l, objSize).live) == multiset(m.live) - BodyChunks(l, objSize)
    decreases |l|
  {
    hide Arena.Inv, BuddySpec.OrderOf, DropSlab;
    if l != [] {
      DropSlabKeeps(m, l[0], objSize);
      DropAllKeeps(DropSlab(m, l[0], objSize), l[1..], objSize);
    }
  }

  lemma {:induction false} DestroyAllKeeps(m: Arena.State, l: seq<Slab>, objSize: int)
    requires Arena.Inv(m) && ListChunks(l, objSize) <= multiset(m.live)
    ensures Arena.Inv(DestroyAll(m, l, objSize))
    ensures multiset(DestroyAll(m, l, objSize).live) == multiset(m.live) - ListChunks(l, objSize)
    decreases |l|
  {
    hide Arena.Inv, BuddySpec.OrderOf, DropSlab, Release;
    if l != [] {
      DestroyOneKeeps(m, l[0], objSize);
      var m1 := Release(DropSlab(m, l[0], objSize), ChunkFor(l[0].addr, SLAB_HEADER));
      DestroyAllKeeps(m1, l[1..], objSize);
    }
  }

  lemma DestroyOneKeeps(m: Arena.State, s: Slab, objSize: int)
    requires Arena.Inv(m) && SlabChunks(s, objSize) <= multiset(m.live)
    ensures ChunkFor(s.addr, SLAB_HEADER) in DropSlab(m, s, objSize).live
    ensures var m' := Release(DropSlab(m, s, objSize), ChunkFor(s.addr, SLAB_HEADER));
      Arena.Inv(m') && multiset(m'.live) == multiset(m.live) - SlabChunks(s, objSize)
  {
    hide Arena.Inv, BuddySpec.OrderOf, DropSlab, Release;
    var h := ChunkFor(s.addr, SLAB_HEADER);
    assert SlabChunks(s, objSize) == SlabBody(s, objSize) + multiset{h};
    DropSlabKeeps(m, s, objSize);
    assert h in multiset(DropSlab(m, s, objSize).live);
    ReleaseKeeps(DropSlab(m, s, objSize), h);
  }

  // ---------------------------------------------------------------- caches over the arena

  datatype Sys = Sys(mem: Arena.State, cache: Cache)

  /** Slots of a slab of a cache: findOptimalSlabSize(objSize) / objSize. */
  function SlotsFor(objSize: int, k: nat): nat
    requires objSize > 0
  {
    Pow2(k) / objSize
  }

  /** A cache with slot areas of 2^k bytes; all its chunks are live, and none is held twice. */
  ghost predicate SysOk(s: Sys, k: nat) {
    && Arena.Inv(s.mem)
    && s.cache.objSize > 0
    && Optimal(s.cache.objSize, k)
    && CacheOk(s.cache, SlotsFor(s.cache.objSize, k), Pow2(k))
    && Chunks(s.cache) <= multiset(s.mem.live)
  }

  /** The live chunks that are not the cache's. */
  function Rest(s: Sys): multiset<Chunk> {
    multiset(s.mem.live) - Chunks(s.cache)
  }

  /** createCache, after the header was allocated: a cache with one empty slab, or none if there was no space for it. */
  function NewCache(m: Arena.State, objSize: int, n: nat): Sys {
    var (r, m') := CreateSlab(m, objSize, n);
    Sys(m', Cache(objSize, [], [], if r.Some? then [r.value] else [], []))
  }

  /** alloc. */
  function AllocOne(s: Sys, n: nat): (Option<int>, Sys) {
    if HasRoom(s.cache) then (Some(AllocObject(Source(s.cache), s.cache.objSize)), s.(cache := AllocSpec(s.cache)))
    else
      var (r, m) := CreateSlab(s.mem, s.cache.objSize, n);
      if r.None? then (None, s)
      else (Some(AllocObject(r.value, s.cache.objSize)), Sys(m, AdoptSpec(s.cache, r.value)))
  }

  /** shrink. */
  function ShrinkSys(s: Sys): Sys {
    Sys(DropAll(s.mem, Surplus(s.cache), s.cache.objSize), ShrinkSpec(s.cache))
  }

  /** free: shrink runs when a slab has become empty. */
  function FreeOne(s: Sys, ptr: int): Sys
    requires s.cache.objSize > 0
  {
    ShrinkSys(s.(cache := Refiled(s.cache, ptr)))
  }

  /** destroyCache without the release of the cache's own header: every slab goes, discarded headers stay. */
  function DestroySys(s: Sys): Arena.State {
    var c := s.cache;
    DestroyAll(DestroyAll(DestroyAll(s.mem, c.empty, c.objSize), c.half, c.objSize), c.full, c.objSize)
  }

  // ---------------------------------------------------------------- every operation keeps the system

  lemma {:induction false} ListedChunks(l: seq<Slab>, s: Slab, objSize: int)
    requires s in l
    ensures SlabChunks(s, objSize) <= ListChunks(l, objSize)
    decreases |l|
  {
    hide SlabChunks;
    if s != l[0] {
      ListedChunks(l[1..], s, objSize);
    }
  }

  lemma PooledChunks(c: Cache, s: Slab)
    requires s in Pool(c)
    ensures SlabChunks(s, c.objSize) <= Chunks(c)
  {
    hide SlabChunks, ListChunks, HeaderChunks;
    PoolParts(c);
    if s in c.full { ListedChunks(c.full, s, c.objSize); }
    if s in c.half { ListedChunks(c.half, s, c.objSize); }
    if s in c.empty { ListedChunks(c.empty, s, c.objSize); }
  }

  /** The slot area of a slab of the cache is one live chunk of 2^k bytes. */
  lemma SlotChunk(s: Sys, k: nat, t: Slab)
    requires SysOk(s, k) && t in Pool(s.cache)
    ensures Chunk(t.slots, k) in s.mem.live
  {
    var objSize := s.cache.objSize;
    SlotsFillChunk(objSize, k);
    PooledChunks(s.cache, t);
    assert |t.flags| == SlotsFor(objSize, k);
    hide Pool, Chunks, CacheOk, Optimal, Arena.Inv, BuddySpec.OrderOf;
    assert Chunk(t.slots, k) in SlabChunks(t, objSize);
    assert Chunk(t.slots, k) in multiset(s.mem.live);
  }

  lemma LiveApart(m: Arena.State, c: Chunk, d: Chunk)
    requires Arena.Inv(m) && c in m.live && d in m.live && c != d
    ensures Apart(c, d)
  {
  }

  /** A new slab's area is apart from that of every slab of the cache. */
  lemma NewSlabApart(s: Sys, k: nat, m: Arena.State, t: Slab)
    requires SysOk(s, k) && Arena.Inv(m)
    requires NewSlab(s.mem, t, m, s.cache.objSize, SlotsFor(s.cache.objSize, k))
    ensures t !in Pool(s.cache)
    ensures forall u :: u in Pool(s.cache) ==> Disjoint(u, t, Pow2(k))
  {
    SlotsFillChunk(s.cache.objSize, k);
    assert Chunk(t.slots, k) in m.live && Chunk(t.slots, k) !in s.mem.live;
    hide CacheOk, Arena.Inv, BuddySpec.OrderOf, Pool, Chunks, SlabChunks, SlotsFor, Pow2;
    forall u | u in Pool(s.cache)
      ensures u != t && Disjoint(u, t, Pow2(k))
    {
      SlotChunk(s, k, u);
      assert Chunk(u.slots, k) in multiset(m.live);
      LiveApart(m, Chunk(u.slots, k), Chunk(t.slots, k));
    }
  }

  lemma Absorb(l: multiset<Chunk>, c: multiset<Chunk>, b: multiset<Chunk>)
    requires c <= l
    ensures c + b <= l + b && (l + b) - (c + b) == l - c
  {
  }

  lemma AllFree(s: Slab)
    requires forall i :: 0 <= i < |s.flags| ==> s.flags[i]
    ensures IsEmpty(s)
  {
    CountBounds(s.flags);
  }

  lemma AdoptKeeps(s: Sys, k: nat, m: Arena.State, t: Slab)
    requires SysOk(s, k) && Arena.Inv(m)
    requires NewSlab(s.mem, t, m, s.cache.objSize, SlotsFor(s.cache.objSize, k))
    ensures var s' := Sys(m, AdoptSpec(s.cache, t));
      && SysOk(s', k) && Rest(s') == Rest(s)
      && var p := AllocObject(t, s.cache.objSize);
         !Live(s.cache, p) && forall q :: Live(s'.cache, q) <==> Live(s.cache, q) || q == p
  {
    NewSlabApart(s, k, m, t);
    AllFree(t);
    AdoptRefines(s.cache, t, SlotsFor(s.cache.objSize, k), Pow2(k));
    AdoptChunks(s.cache, t);
    hide Arena.Inv, CacheOk, Chunks, SlabChunks, AdoptSpec, Optimal, Live, Pool, SlotsFor, Pow2;
    SameSize(s.cache, t);
    Absorb(multiset(s.mem.live), Chunks(s.cache), SlabChunks(t, s.cache.objSize));
  }

  lemma SameSize(c: Cache, t: Slab)
    ensures AdoptSpec(c, t).objSize == c.objSize && (HasRoom(c) ==> AllocSpec(c).objSize == c.objSize)
  {
  }

  /** alloc gives out an address that was not live, takes chunks from no one else, and fails without any effect and
      only when no slab has room and no new one can be made. */
  lemma AllocOneKeeps(s: Sys, k: nat)
    requires SysOk(s, k)
    ensures var n := SlotsFor(s.cache.objSize, k);
      var (r, s') := AllocOne(s, n);
      && SysOk(s', k) && Rest(s') == Rest(s)
      && (r.None? <==> !HasRoom(s.cache) && CreateSlab(s.mem, s.cache.objSize, n).0.None?)
      && (r.None? ==> s' == s)
      && (r.Some? ==> !Live(s.cache, r.value) && forall q :: Live(s'.cache, q) <==> Live(s.cache, q) || q == r.value)
  {
    var n := SlotsFor(s.cache.objSize, k);
    hide Arena.Inv, CacheOk, Chunks, AdoptSpec, AllocSpec, Optimal, Live, NewSlab, CreateSlab, SlotsFor, Pow2;
    SameSize(s.cache, Slab(0, 0, 0, []));
    if HasRoom(s.cache) {
      AllocRefines(s.cache, n, Pow2(k));
      AllocChunks(s.cache);
    } else {
      CreateSlabKeeps(s.mem, s.cache.objSize, n);
      var (r, m) := CreateSlab(s.mem, s.cache.objSize, n);
      if r.Some? {
        AdoptKeeps(s, k, m, r.value);
      }
    }
  }

  lemma RefiledChunks(c: Cache, ptr: int)
    requires c.objSize > 0
    ensures Chunks(Refiled(c, ptr)) == Chunks(c) && Refiled(c, ptr).objSize == c.objSize
  {
    var i, j := Find(c.full, c.objSize, ptr), Find(c.half, c.objSize, ptr);
    hide Chunks, IsEmpty, Find, SlotOf;
    if i < |c.full| {
      FullChunks(c, i, Freed(c.full[i], c.objSize, ptr));
    } else if j < |c.half| {
      HalfChunks(c, j, Freed(c.half[j], c.objSize, ptr));
    }
  }

  lemma ShrinkSysChunks(s: Sys)
    requires Arena.Inv(s.mem) && Chunks(s.cache) <= multiset(s.mem.live)
    ensures var s' := ShrinkSys(s);
      Arena.Inv(s'.mem) && Chunks(s'.cache) <= multiset(s'.mem.live) && Rest(s') == Rest(s)
  {
    ShrinkChunks(s.cache);
    hide Arena.Inv, Chunks, ShrinkSpec, Surplus, BodyChunks, DropAll;
    DropAllKeeps(s.mem, Surplus(s.cache), s.cache.objSize);
  }

  /** free of a live object that routes to its owner makes exactly that object not live, and the chunks it gives back
      are the cache's own. */
  lemma FreeOneKeeps(s: Sys, k: nat, ptr: int, j: nat)
    requires SysOk(s, k) && Routed(s.cache, ptr, j)
    ensures SysOk(FreeOne(s, ptr), k) && Rest(FreeOne(s, ptr)) == Rest(s)
    ensures Live(s.cache, ptr) && forall q :: Live(FreeOne(s, ptr).cache, q) <==> Live(s.cache, q) && q != ptr
  {
    FreeRefines(s.cache, SlotsFor(s.cache.objSize, k), Pow2(k), ptr, j);
    hide Arena.Inv, CacheOk, Chunks, Optimal, Live, SlotsFor, Pow2, Refiled, Routed;
    RefiledChunks(s.cache, ptr);
    ShrinkSysChunks(s.(cache := Refiled(s.cache, ptr)));
  }

  /** What callers may rely on for a live object that routes to its owner: free is allowed, reports success, and makes
      exactly the object not live. */
  lemma RoutedFree(s: Sys, k: nat, ptr: int)
    requires SysOk(s, k) && exists j :: Routed(s.cache, ptr, j)
    ensures InSlot(s.cache, ptr) && FreeStatus(s.cache, ptr) == 0
    ensures Live(s.cache, ptr) && forall q :: Live(FreeOne(s, ptr).cache, q) <==> Live(s.cache, q) && q != ptr
  {
    var j :| Routed(s.cache, ptr, j);
    var n := SlotsFor(s.cache.objSize, k);
    RoutedInSlot(s.cache, n, Pow2(k), ptr, j);
    RoutedStatus(s.cache, n, Pow2(k), ptr, j);
    hide Arena.Inv, CacheOk, Chunks, Optimal, Live, SlotsFor, Pow2, Routed, FreeOne, InSlot, FreeStatus;
    FreeOneKeeps(s, k, ptr, j);
  }

  /** free of any address in a slot keeps the system, whether or not it frees what the caller meant. */
  lemma FreeOneOrderly(s: Sys, k: nat, ptr: int)
    requires SysOk(s, k) && InSlot(s.cache, ptr)
    ensures SysOk(FreeOne(s, ptr), k) && Rest(FreeOne(s, ptr)) == Rest(s)
  {
    FreeOrderly(s.cache, SlotsFor(s.cache.objSize, k), Pow2(k), ptr);
    hide Arena.Inv, CacheOk, Chunks, Optimal, SlotsFor, Pow2, Refiled, InSlot;
    RefiledChunks(s.cache, ptr);
    ShrinkSysChunks(s.(cache := Refiled(s.cache, ptr)));
  }

  /** One turn of the loop of shrink: the second empty slab is taken apart. */
  function ShrinkOnce(s: Sys): Sys
    requires |s.cache.empty| > 1
  {
    var t := s.cache.empty[1];
    Sys(DropSlab(s.mem, t, s.cache.objSize),
        s.cache.(empty := [s.cache.empty[0]] + s.cache.empty[2..], discarded := s.cache.discarded + [t.addr]))
  }

  lemma DropFirst(m: Arena.State, t: Slab, l: seq<Slab>, objSize: int)
    ensures DropAll(m, [t] + l, objSize) == DropAll(DropSlab(m, t, objSize), l, objSize)
  {
    assert ([t] + l)[1..] == l;
  }

  lemma ShrinkTwice(c: Cache)
    requires |c.empty| > 1
    ensures ShrinkSpec(c.(empty := [c.empty[0]] + c.empty[2..], discarded := c.discarded + [c.empty[1].addr])) == ShrinkSpec(c)
  {
    var l := [c.empty[0]] + c.empty[2..];
    assert l[..1] == c.empty[..1];
    assert l[1..] == c.empty[2..] == c.empty[1..][1..];
    assert Headers(c.empty[1..]) == [c.empty[1].addr] + Headers(c.empty[2..]);
    assert Headers([]) == [];
  }

  lemma TurnRefines(s: Sys)
    requires |s.cache.empty| > 1
    ensures ShrinkSys(ShrinkOnce(s)) == ShrinkSys(s)
  {
    hide DropSlab, DropAll, ShrinkSpec, Surplus;
    var c := s.cache;
    var t, c' := c.empty[1], ShrinkOnce(s).cache;
    OneOrNone(c, c', t);
    ShrinkTwice(c);
    DropFirst(s.mem, t, Surplus(c'), c.objSize);
  }

  lemma TurnKeeps(s: Sys)
    requires |s.cache.empty| > 1 && Arena.Inv(s.mem) && Chunks(s.cache) <= multiset(s.mem.live)
    ensures SlabBody(s.cache.empty[1], s.cache.objSize) <= multiset(s.mem.live)
    ensures Arena.Inv(ShrinkOnce(s).mem) && Chunks(ShrinkOnce(s).cache) <= multiset(ShrinkOnce(s).mem.live)
  {
    hide Arena.Inv, DropSlab, Chunks, SlabBody;
    TurnBody(s);
    DropSlabKeeps(s.mem, s.cache.empty[1], s.cache.objSize);
  }

  lemma TurnBody(s: Sys)
    requires |s.cache.empty| > 1
    ensures Chunks(s.cache) == Chunks(ShrinkOnce(s).cache) + SlabBody(s.cache.empty[1], s.cache.objSize)
  {
    var c := s.cache;
    var t, c' := c.empty[1], ShrinkOnce(s).cache;
    hide BuddySpec.OrderOf, DropSlab, ListChunks, Chunks, SlabBody, SlabChunks;
    ListRemove(c.empty, 1, c.objSize);
    assert RemoveAt(c.empty, 1) == c'.empty;
    HeaderConcat(c.discarded, [t.addr]);
    OneHeader(t);
    hide HeaderChunks;
    TurnChunks(c, c', t);
  }

  lemma OneHeader(t: Slab)
    ensures HeaderChunks([t.addr]) == multiset{ChunkFor(t.addr, SLAB_HEADER)}
  {
    assert [t.addr][1..] == [];
  }

  lemma TurnChunks(c: Cache, c': Cache, t: Slab)
    requires c'.full == c.full && c'.half == c.half && c'.objSize == c.objSize
    requires ListChunks(c.empty, c.objSize) == SlabChunks(t, c.objSize) + ListChunks(c'.empty, c.objSize)
    requires HeaderChunks(c'.discarded) == HeaderChunks(c.discarded) + multiset{ChunkFor(t.addr, SLAB_HEADER)}
    ensures Chunks(c) == Chunks(c') + SlabBody(t, c.objSize)
  {
    hide ListChunks, HeaderChunks, BuddySpec.OrderOf;
    assert SlabChunks(t, c.objSize) == SlabBody(t, c.objSize) + multiset{ChunkFor(t.addr, SLAB_HEADER)};
  }

  lemma OneOrNone(c: Cache, c': Cache, t: Slab)
    requires |c.empty| > 1 && t == c.empty[1] && c'.empty == [c.empty[0]] + c.empty[2..]
    ensures Surplus(c) == [t] + Surplus(c')
  {
    assert c.empty[1..] == [t] + c.empty[2..];
  }

  /** When the object size does not divide the slot area, free reaches the owner of every live object. */
  lemma NeverMisrouted(s: Sys, k: nat, ptr: int)
    requires SysOk(s, k) && Waste(s.cache.objSize, k) != 0 && Live(s.cache, ptr)
    ensures exists j :: Routed(s.cache, ptr, j)
  {
    var c := s.cache;
    var n := SlotsFor(c.objSize, k);
    SlotsFillChunk(c.objSize, k);
    hide Arena.Inv, Chunks, Optimal, Waste, InUse, EndsAt, Pow2, SlotsFor;
    var j := OwnerSearched(c, n, Pow2(k), ptr);
    FreeRoutedExactly(c, n, Pow2(k), ptr, j);
    assert Routed(c, ptr, j);
  }

  /** shrink on its own keeps all live objects. */
  lemma ShrinkSysKeeps(s: Sys, k: nat)
    requires SysOk(s, k)
    ensures SysOk(ShrinkSys(s), k) && Rest(ShrinkSys(s)) == Rest(s)
    ensures forall q :: Live(ShrinkSys(s).cache, q) <==> Live(s.cache, q)
  {
    ShrinkKeeps(s.cache, SlotsFor(s.cache.objSize, k), Pow2(k));
    hide Arena.Inv, Chunks, Optimal, Live, SlotsFor, Pow2, PoolOk, Sorted, Pool;
    ShrinkSysChunks(s);
  }
}
