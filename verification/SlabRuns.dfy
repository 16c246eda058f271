/** Whole lives of a cache: creation, any run of operations, destruction. */
module SlabRuns {
  import opened Wrappers
  import opened PowersOfTwo
  import opened Blocks
  import BuddySpec
  import Arena = BuddyTheorems
  import opened SlabSpec
  import opened SlabTheorems
  import opened SlabPages
  import opened SlabSystem

  // ---------------------------------------------------------------- creation and destruction

  lemma FreshPool(c: Cache, n: nat, size: int)
    requires c.objSize > 0 && n > 0 && n * c.objSize <= size && c.full == [] && c.half == [] && |c.empty| <= 1
    requires forall s :: s in c.empty ==> |s.flags| == n && IsEmpty(s)
    ensures CacheOk(c, n, size) && forall q :: !Live(c, q)
  {
    PoolParts(c);
    assert forall s :: s in Pool(c) ==> s in c.empty;
    if |c.empty| == 1 {
      assert c.empty == [c.empty[0]];
    }
    forall q
      ensures !Live(c, q)
    {
      if Live(c, q) {
        var s :| s in Pool(c) && InUse(s, c.objSize, q);
        EmptyUnused(s, c.objSize, q);
      }
    }
  }

  lemma OneSlabChunks(objSize: int, t: Slab)
    ensures Chunks(Cache(objSize, [], [], [t], [])) == SlabChunks(t, objSize)
    ensures Chunks(Cache(objSize, [], [], [], [])) == multiset{}
  {
    hide SlabChunks;
    assert [t][1..] == [];
  }

  lemma FirstSlabOk(m: Arena.State, m': Arena.State, objSize: int, k: nat, t: Slab)
    requires Arena.Inv(m') && objSize > 0 && Optimal(objSize, k) && NewSlab(m, t, m', objSize, SlotsFor(objSize, k))
    ensures var s := Sys(m', Cache(objSize, [], [], [t], []));
      SysOk(s, k) && Rest(s) == multiset(m.live) && forall q :: !Live(s.cache, q)
  {
    SlotsFillChunk(objSize, k);
    AllFree(t);
    OneSlabChunks(objSize, t);
    hide Arena.Inv, Optimal, CacheOk, Live, Pow2, SlabChunks, IsEmpty, Chunks, BuddySpec.OrderOf;
    FreshPool(Cache(objSize, [], [], [t], []), SlotsFor(objSize, k), Pow2(k));
  }

  lemma NoSlabOk(m: Arena.State, objSize: int, k: nat)
    requires Arena.Inv(m) && objSize > 0 && Optimal(objSize, k)
    ensures var s := Sys(m, Cache(objSize, [], [], [], []));
      SysOk(s, k) && Rest(s) == multiset(m.live) && forall q :: !Live(s.cache, q)
  {
    SlotsFillChunk(objSize, k);
    OneSlabChunks(objSize, Slab(0, 0, 0, []));
    hide Arena.Inv, Optimal, CacheOk, Live, Pow2, SlabChunks, IsEmpty, Chunks, BuddySpec.OrderOf;
    FreshPool(Cache(objSize, [], [], [], []), SlotsFor(objSize, k), Pow2(k));
  }

  /** A new cache has no live object and holds chunks no one else does. */
  lemma NewCacheKeeps(m: Arena.State, objSize: int, k: nat)
    requires Arena.Inv(m) && objSize > 0 && Optimal(objSize, k)
    ensures var s := NewCache(m, objSize, SlotsFor(objSize, k));
      SysOk(s, k) && Rest(s) == multiset(m.live) && s.cache.discarded == [] && forall q :: !Live(s.cache, q)
  {
    hide Arena.Inv, Optimal, CreateSlab, Live, SlotsFor, NewSlab, SysOk, Rest;
    var n := SlotsFor(objSize, k);
    CreateSlabKeeps(m, objSize, n);
    var (r, m') := CreateSlab(m, objSize, n);
    if r.Some? {
      FirstSlabOk(m, m', objSize, k, r.value);
    } else {
      NoSlabOk(m, objSize, k);
    }
  }

  /** destroyCache gives back every chunk of the cache but the headers shrink has dropped. */
  lemma DestroyKeeps(s: Sys)
    requires Arena.Inv(s.mem) && Chunks(s.cache) <= multiset(s.mem.live)
    ensures Arena.Inv(DestroySys(s))
    ensures multiset(DestroySys(s).live) == Rest(s) + HeaderChunks(s.cache.discarded)
  {
    hide Arena.Inv, ListChunks, HeaderChunks, DestroyAll;
    var c := s.cache;
    DestroyAllKeeps(s.mem, c.empty, c.objSize);
    var m1 := DestroyAll(s.mem, c.empty, c.objSize);
    DestroyAllKeeps(m1, c.half, c.objSize);
    DestroyAllKeeps(DestroyAll(m1, c.half, c.objSize), c.full, c.objSize);
  }

  // ---------------------------------------------------------------- runs

  datatype CacheOp = Take | Give(ptr: int) | Trim

  /** Only live objects whose free routes to their owner are given back. */
  ghost predicate Legal(s: Sys, op: CacheOp) {
    op.Give? ==> s.cache.objSize > 0 && exists j :: Routed(s.cache, op.ptr, j)
  }

  ghost function Apply(s: Sys, n: nat, op: CacheOp): Sys
    requires Legal(s, op)
  {
    match op
    case Take => AllocOne(s, n).1
    case Give(ptr) => FreeOne(s, ptr)
    case Trim => ShrinkSys(s)
  }

  ghost predicate LegalRun(s: Sys, n: nat, ops: seq<CacheOp>)
    decreases |ops|
  {
    ops == [] || (Legal(s, ops[0]) && LegalRun(Apply(s, n, ops[0]), n, ops[1..]))
  }

  ghost function Run(s: Sys, n: nat, ops: seq<CacheOp>): Sys
    requires LegalRun(s, n, ops)
    decreases |ops|
  {
    if ops == [] then s else Run(Apply(s, n, ops[0]), n, ops[1..])
  }

  /** The addresses a client holds: what alloc returned, less what it gave back. */
  ghost function Held(s: Sys, op: CacheOp, n: nat, objs: set<int>): set<int> {
    match op
    case Take => var r := AllocOne(s, n).0; if r.Some? then objs + {r.value} else objs
    case Give(ptr) => objs - {ptr}
    case Trim => objs
  }

  ghost function HeldAfter(s: Sys, n: nat, ops: seq<CacheOp>, objs: set<int>): set<int>
    requires LegalRun(s, n, ops)
    decreases |ops|
  {
    if ops == [] then objs else HeldAfter(Apply(s, n, ops[0]), n, ops[1..], Held(s, ops[0], n, objs))
  }

  ghost predicate LiveAre(c: Cache, objs: set<int>) {
    forall q :: Live(c, q) <==> q in objs
  }

  lemma AllocLive(s: Sys, k: nat, objs: set<int>)
    requires s.cache.objSize > 0 && SysOk(s, k) && LiveAre(s.cache, objs)
    ensures var n := SlotsFor(s.cache.objSize, k);
      var (r, s') := AllocOne(s, n);
      && SysOk(s', k) && Rest(s') == Rest(s)
      && LiveAre(s'.cache, if r.Some? then objs + {r.value} else objs)
  {
    hide SysOk, AllocOne, Live, Rest, SlotsFor, CreateSlab, HasRoom;
    AllocOneKeeps(s, k);
    var (r, s') := AllocOne(s, SlotsFor(s.cache.objSize, k));
    forall q
      ensures Live(s'.cache, q) <==> q in objs || (r.Some? && q == r.value)
    {
    }
  }

  lemma FreeLive(s: Sys, k: nat, ptr: int, objs: set<int>)
    requires s.cache.objSize > 0 && SysOk(s, k) && LiveAre(s.cache, objs) && exists j :: Routed(s.cache, ptr, j)
    ensures var s' := FreeOne(s, ptr);
      SysOk(s', k) && Rest(s') == Rest(s) && LiveAre(s'.cache, objs - {ptr})
  {
    hide SysOk, FreeOne, Live, Rest, Routed;
    var j :| Routed(s.cache, ptr, j);
    FreeOneKeeps(s, k, ptr, j);
  }

  lemma ShrinkLive(s: Sys, k: nat, objs: set<int>)
    requires SysOk(s, k) && LiveAre(s.cache, objs)
    ensures SysOk(ShrinkSys(s), k) && Rest(ShrinkSys(s)) == Rest(s) && LiveAre(ShrinkSys(s).cache, objs)
  {
    hide SysOk, ShrinkSys, Live, Rest;
    ShrinkSysKeeps(s, k);
  }

  lemma ApplyKeeps(s: Sys, k: nat, op: CacheOp, objs: set<int>)
    requires SysOk(s, k) && Legal(s, op) && LiveAre(s.cache, objs)
    ensures var n := SlotsFor(s.cache.objSize, k);
      var s' := Apply(s, n, op);
      SysOk(s', k) && Rest(s') == Rest(s) && s'.cache.objSize == s.cache.objSize && LiveAre(s'.cache, Held(s, op, n, objs))
  {
    SystemOk(s, k);
    hide SysOk, AllocOne, FreeOne, ShrinkSys, LiveAre, Rest, SlotsFor, Routed;
    match op
    case Take =>
      AllocLive(s, k, objs);
      TakeSize(s, SlotsFor(s.cache.objSize, k));
    case Give(ptr) =>
      FreeLive(s, k, ptr, objs);
      GiveSize(s, ptr);
    case Trim =>
      ShrinkLive(s, k, objs);
      TrimSize(s);
  }

  lemma TakeSize(s: Sys, n: nat)
    ensures AllocOne(s, n).1.cache.objSize == s.cache.objSize
  {
  }

  lemma TrimSize(s: Sys)
    ensures ShrinkSys(s).cache.objSize == s.cache.objSize
  {
  }

  lemma GiveSize(s: Sys, ptr: int)
    requires s.cache.objSize > 0
    ensures FreeOne(s, ptr).cache.objSize == s.cache.objSize
  {
    RefiledChunks(s.cache, ptr);
  }

  /** Over any run, the live objects are exactly what the client holds, every slab is on the list its occupancy asks
      for, at most one is empty, and no one else's chunks change. */
  lemma {:induction false} RunKeeps(s: Sys, k: nat, ops: seq<CacheOp>, objs: set<int>)
    requires SysOk(s, k) && LegalRun(s, SlotsFor(s.cache.objSize, k), ops) && LiveAre(s.cache, objs)
    ensures var n := SlotsFor(s.cache.objSize, k);
      var s' := Run(s, n, ops);
      SysOk(s', k) && Rest(s') == Rest(s) && LiveAre(s'.cache, HeldAfter(s, n, ops, objs))
    decreases |ops|
  {
    hide SysOk, Apply, Held, Rest, LiveAre, Legal, SlotsFor;
    if ops != [] {
      SystemOk(s, k);
      ApplyKeeps(s, k, ops[0], objs);
      var n := SlotsFor(s.cache.objSize, k);
      RunKeeps(Apply(s, n, ops[0]), k, ops[1..], Held(s, ops[0], n, objs));
    }
  }

  lemma SystemOk(s: Sys, k: nat)
    requires SysOk(s, k)
    ensures Arena.Inv(s.mem) && Chunks(s.cache) <= multiset(s.mem.live) && s.cache.objSize > 0
  {
  }

  lemma Heading(l: multiset<Chunk>, r: multiset<Chunk>, h: Chunk, d: multiset<Chunk>)
    requires l == (r + multiset{h}) + d
    ensures h in l && l - multiset{h} == r + d
  {
  }

  lemma SetOf(a: set<Chunk>, b: set<Chunk>)
    requires multiset(a) == multiset(b)
    ensures a == b
  {
    assert forall c :: c in a <==> c in multiset(a);
    assert forall c :: c in b <==> c in multiset(b);
  }

  /** From creation on, a cache holds its header's chunk, three a slab and one a discarded slab; destroying it leaves
      only the discarded headers, and with none discarded the free memory is what it was before creation. */
  lemma Lifetime(m: Arena.State, objSize: int, k: nat, ops: seq<CacheOp>)
    requires Arena.Inv(m) && objSize > 0 && Optimal(objSize, k)
    requires var (h, m1) := Request(m, CACHE_HEADER);
      h.Some? && LegalRun(NewCache(m1, objSize, SlotsFor(objSize, k)), SlotsFor(objSize, k), ops)
    ensures var (h, m1) := Request(m, CACHE_HEADER);
      var s := Run(NewCache(m1, objSize, SlotsFor(objSize, k)), SlotsFor(objSize, k), ops);
      var m2 := Release(DestroySys(s), ChunkFor(h.value, CACHE_HEADER));
      && |s.mem.live| == |m.live| + 1 + 3 * |Slabs(s.cache)| + |s.cache.discarded|
      && Arena.Inv(m2)
      && multiset(m2.live) == multiset(m.live) + HeaderChunks(s.cache.discarded)
      && (s.cache.discarded == [] ==> m2.live == m.live && BuddySpec.FreeSet(m2.lists) == BuddySpec.FreeSet(m.lists))
  {
    hide Arena.Inv, Optimal, SysOk, DestroySys, Release, BuddySpec.OrderOf, Request, NewCache, Run, HeaderChunks, Chunks, LegalRun;
    RequestKeeps(m, CACHE_HEADER);
    var (h, m1) := Request(m, CACHE_HEADER);
    var s0 := NewCache(m1, objSize, SlotsFor(objSize, k));
    NewCacheKeeps(m1, objSize, k);
    NewSize(m1, objSize, SlotsFor(objSize, k));
    assert LiveAre(s0.cache, {});
    RunKeeps(s0, k, ops, {});
    var s := Run(s0, SlotsFor(objSize, k), ops);
    SystemOk(s, k);
    ChunkCount(s.cache);
    assert multiset(s.mem.live) == Rest(s) + Chunks(s.cache);
    DestroyKeeps(s);
    Heading(multiset(DestroySys(s).live), multiset(m.live), ChunkFor(h.value, CACHE_HEADER), HeaderChunks(s.cache.discarded));
    ReleaseKeeps(DestroySys(s), ChunkFor(h.value, CACHE_HEADER));
    if s.cache.discarded == [] {
      NothingDiscarded(m, Release(DestroySys(s), ChunkFor(h.value, CACHE_HEADER)));
    }
  }

  lemma NewSize(m: Arena.State, objSize: int, n: nat)
    ensures NewCache(m, objSize, n).cache.objSize == objSize
  {
  }

  lemma NothingDiscarded(m: Arena.State, m2: Arena.State)
    requires Arena.Inv(m) && Arena.Inv(m2) && multiset(m2.live) == multiset(m.live) + HeaderChunks([])
    ensures m2.live == m.live && BuddySpec.FreeSet(m2.lists) == BuddySpec.FreeSet(m.lists)
  {
    SetOf(m2.live, m.live);
    Arena.FreeSetDetermined(m.lists, m2.lists, m.live);
  }
}
