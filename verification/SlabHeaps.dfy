/** Whole runs of the slab allocator: kalloc, kfree, and caches made, used and destroyed over one arena. */
module SlabHeaps {
  import opened Wrappers
  import opened PowersOfTwo
  import opened Blocks
  import BuddySpec
  import Arena = BuddyTheorems
  import opened SlabSpec
  import opened SlabTheorems
  import opened SlabPages
  import opened SlabSystem
  import opened SlabCaches
  import SlabRuns
  import Serves = SlabServes

  // ---------------------------------------------------------------- the slab size of a new cache

  /** The best of the sizes 2^k to 2^18, as findOptimalSlabSize ranks them. */
  function BestFrom(objSize: int, k: nat): nat
    requires objSize > 0 && k <= MAX_SLAB_ORDER
    decreases MAX_SLAB_ORDER - k
  {
    if k == MAX_SLAB_ORDER then k
    else
      var b := BestFrom(objSize, k + 1);
      if Pow2(k) >= objSize && Waste(objSize, k) <= Waste(objSize, b) then k else b
  }

  lemma {:induction false} BestIsOptimal(objSize: int, k: nat)
    requires 0 < objSize <= Pow2(MAX_SLAB_ORDER) && k <= MAX_SLAB_ORDER
    ensures var b := BestFrom(objSize, k);
      && k <= b <= MAX_SLAB_ORDER && Pow2(b) >= objSize
      && forall j: nat :: k <= j <= MAX_SLAB_ORDER && Pow2(j) >= objSize ==>
           Waste(objSize, b) <= Waste(objSize, j) && (Waste(objSize, j) == Waste(objSize, b) ==> b <= j)
    decreases MAX_SLAB_ORDER - k
  {
    hide Waste, Pow2;
    if k < MAX_SLAB_ORDER {
      BestIsOptimal(objSize, k + 1);
    }
  }

  function OrderFor(objSize: int): nat
    requires objSize > 0
  {
    BestFrom(objSize, MIN_ORDER)
  }

  /** There is a best size for every object that fits 2^18 bytes. */
  lemma OrderForOptimal(objSize: int)
    requires 0 < objSize <= Pow2(MAX_SLAB_ORDER)
    ensures Optimal(objSize, OrderFor(objSize))
  {
    hide Waste, Pow2;
    BestIsOptimal(objSize, MIN_ORDER);
  }

  // ---------------------------------------------------------------- what the caches do not hold

  function ListRest(m: Arena.State, ms: seq<Member>): multiset<Chunk> {
    multiset(m.live) - Holdings(ms)
  }

  lemma ExchangeRest(l: multiset<Chunk>, l': multiset<Chunk>, c: multiset<Chunk>, c': multiset<Chunk>, h: multiset<Chunk>,
                     others: multiset<Chunk>)
    requires h + c + others <= l && c' <= l' && l' - c' == l - c
    ensures l' - (h + c' + others) == l - (h + c + others)
  {
    assert l - (h + c + others) == (l - c) - (h + others);
    assert l' - (h + c' + others) == (l' - c') - (h + others);
  }

  lemma WorkRest(m: Arena.State, ms: seq<Member>, i: nat, s': Sys)
    requires AllOk(m, ms) && i < |ms| && SysOk(s', ms[i].order) && Rest(s') == Rest(Sys(m, ms[i].cache))
    ensures ListRest(s'.mem, ms[i := ms[i].(cache := s'.cache)]) == ListRest(m, ms)
  {
    HoldingsAt(ms, i, s'.cache);
    SlabRuns.SystemOk(s', ms[i].order);
    hide Arena.Inv, SysOk, Chunks, Holdings, BuddySpec.OrderOf;
    ExchangeRest(multiset(m.live), multiset(s'.mem.live), Chunks(ms[i].cache), Chunks(s'.cache),
                 multiset{ChunkFor(ms[i].addr, CACHE_HEADER)}, Holdings(Without(ms, i)));
  }

  lemma AddRest(l: multiset<Chunk>, l': multiset<Chunk>, h: multiset<Chunk>, c: multiset<Chunk>, others: multiset<Chunk>)
    requires others <= l && c <= l' && l' - c == l + h
    ensures l' - (h + c + others) == l - others
  {
    assert l' == (l + h) + c;
  }

  lemma CreateRest(m: Arena.State, ms: seq<Member>, objSize: int, k: nat)
    requires AllOk(m, ms) && objSize > 0 && Optimal(objSize, k)
    ensures var (h, m1) := Request(m, CACHE_HEADER);
      var s := NewCache(m1, objSize, SlotsFor(objSize, k));
      h.Some? ==> ListRest(s.mem, [Member(h.value, s.cache, k)] + ms) == ListRest(m, ms)
  {
    RequestKeeps(m, CACHE_HEADER);
    hide Arena.Inv, SysOk, Chunks, Holdings, BuddySpec.OrderOf, Optimal, Request, NewCache, SlotsFor;
    var (h, m1) := Request(m, CACHE_HEADER);
    if h.Some? {
      var s := NewCache(m1, objSize, SlotsFor(objSize, k));
      SlabRuns.NewCacheKeeps(m1, objSize, k);
      SlabRuns.SystemOk(s, k);
      HoldingsCons(Member(h.value, s.cache, k), ms);
      AddRest(multiset(m.live), multiset(s.mem.live), multiset{ChunkFor(h.value, CACHE_HEADER)}, Chunks(s.cache), Holdings(ms));
    }
  }

  lemma DropRest(l: multiset<Chunk>, h: multiset<Chunk>, others: multiset<Chunk>, d: multiset<Chunk>)
    requires h + others <= l
    ensures (l - h + d) - others == l - (h + others) + d
  {
    assert forall x :: (h + others)[x] <= l[x];
    assert forall x :: h[x] + others[x] <= l[x];
  }

  lemma DestroyRest(m: Arena.State, ms: seq<Member>, i: nat)
    requires AllOk(m, ms) && i < |ms|
    ensures var m' := Release(DestroySys(Sys(m, ms[i].cache)), ChunkFor(ms[i].addr, CACHE_HEADER));
      ListRest(m', Without(ms, i)) == ListRest(m, ms) + HeaderChunks(ms[i].cache.discarded)
  {
    DestroyKeepsAll(m, ms, i);
    HoldingsAt(ms, i, ms[i].cache);
    hide SysOk, Holds, Holdings, HeaderChunks, DestroySys, Release, Arena.Inv;
    DropRest(multiset(m.live), Holds(ms[i]), Holdings(Without(ms, i)), HeaderChunks(ms[i].cache.discarded));
  }

  lemma AllocAtRest(m: Arena.State, ms: seq<Member>, i: nat)
    requires AllOk(m, ms) && i < |ms| && ms[i].cache.objSize > 0
    ensures var s := AllocOne(Sys(m, ms[i].cache), SlotsFor(ms[i].cache.objSize, ms[i].order)).1;
      ListRest(s.mem, ms[i := ms[i].(cache := s.cache)]) == ListRest(m, ms)
  {
    hide SysOk, AllocOne, SlotsFor, Rest, ListRest;
    AllocGains(Sys(m, ms[i].cache), ms[i].order);
    WorkRest(m, ms, i, AllocOne(Sys(m, ms[i].cache), SlotsFor(ms[i].cache.objSize, ms[i].order)).1);
  }

  lemma KallocRest(m: Arena.State, ms: seq<Member>, size: int)
    requires AllOk(m, ms)
    ensures var (r, m', ms') := Kalloc(m, ms, size); ListRest(m', ms') == ListRest(m, ms)
  {
    hide AllOk, AllocOne, Class, SlotsFor, ListRest, KallocNew;
    if size <= Pow2(17) {
      ClassIsLeast(size);
      var j := Class(size);
      var i := FirstOfSize(ms, Pow2(j));
      hide Pow2;
      if i < |ms| {
        AllocAtRest(m, ms, i);
      } else {
        KallocNewRest(m, ms, j);
      }
    }
  }

  lemma KallocNewRest(m: Arena.State, ms: seq<Member>, j: nat)
    requires AllOk(m, ms) && 5 <= j <= 17
    ensures var (r, m', ms') := KallocNew(m, ms, j); ListRest(m', ms') == ListRest(m, ms)
  {
    hide AllOk, AllocOne, SlotsFor, NewCache, Optimal, Request, ClassOrder, ListRest;
    var k, objSize := ClassOrder(j), Pow2(j);
    ClassOptimal(j);
    hide Pow2;
    CreateKeepsAll(m, ms, objSize, k);
    CreateRest(m, ms, objSize, k);
    var (h, m1) := Request(m, CACHE_HEADER);
    if h.Some? {
      var s0 := NewCache(m1, objSize, SlotsFor(objSize, k));
      SlabRuns.NewSize(m1, objSize, SlotsFor(objSize, k));
      var ms1 := [Member(h.value, s0.cache, k)] + ms;
      AllocAtRest(s0.mem, ms1, 0);
      var s := AllocOne(s0, SlotsFor(objSize, k)).1;
      assert ms1[0 := Member(h.value, s.cache, k)] == [Member(h.value, s.cache, k)] + ms;
    }
  }

  lemma FreeAtRest(m: Arena.State, ms: seq<Member>, i: nat, ptr: int)
    requires AllOk(m, ms) && i < |ms| && ms[i].cache.objSize > 0 && exists j :: Routed(ms[i].cache, ptr, j)
    ensures var s := FreeOne(Sys(m, ms[i].cache), ptr);
      && AllOk(s.mem, ms[i := ms[i].(cache := s.cache)]) && Loses(ms[i].cache, ptr, s.cache)
      && ListRest(s.mem, ms[i := ms[i].(cache := s.cache)]) == ListRest(m, ms)
  {
    hide FreeOne, Rest, Routed, Loses, Holdings, Arena.Inv, SysOk;
    var j :| Routed(ms[i].cache, ptr, j);
    FreeLoses(Sys(m, ms[i].cache), ms[i].order, ptr, j);
    hide AllOk, ListRest;
    WorkKeepsAll(m, ms, i, FreeOne(Sys(m, ms[i].cache), ptr));
    WorkRest(m, ms, i, FreeOne(Sys(m, ms[i].cache), ptr));
  }

  lemma KfreeRest(m: Arena.State, ms: seq<Member>, ptr: int, k: nat)
    requires AllOk(m, ms) && RoutedIn(ms, ptr, k)
    requires forall i :: 0 <= i < |ms| ==> ms[i].cache.objSize > 0
    ensures var (m', ms') := Kfree(m, ms, ptr); ListRest(m', ms') == ListRest(m, ms)
  {
    LiveRouted(m, ms[k], ptr);
    hide AllOk, FreeOne, Claiming, Live, ListRest, Routed, SomeEndsAt;
    KfreeRoutedExactly(m, ms, k, ptr);
    FreeAtRest(m, ms, k, ptr);
  }

  lemma LiveRouted(m: Arena.State, mb: Member, ptr: int)
    requires SysOk(Sys(m, mb.cache), mb.order) && exists j :: Routed(mb.cache, ptr, j)
    ensures Live(mb.cache, ptr)
  {
    var j :| Routed(mb.cache, ptr, j);
    FreeOneKeeps(Sys(m, mb.cache), mb.order, ptr, j);
  }

  // ---------------------------------------------------------------- runs

  /** lost is history: the slab headers that destroyed caches had discarded. */
  datatype Heap = Heap(mem: Arena.State, members: seq<Member>, lost: seq<int>)

  datatype HeapOp =
    | KallocOp(size: int)
    | KfreeOp(ptr: int)
    | Create(objSize: int)
    | Destroy(i: nat)
    | Take(i: nat)
    | Give(i: nat, ptr: int)

  /** Callers pass object sizes a slab can hold, caches that exist, and live objects whose free reaches their owner. */
  ghost predicate Legal(h: Heap, op: HeapOp) {
    && (forall i :: 0 <= i < |h.members| ==> h.members[i].cache.objSize > 0)
    && match op
       case KallocOp(_) => true
       case KfreeOp(ptr) => exists k :: RoutedIn(h.members, ptr, k)
       case Create(objSize) => 0 < objSize <= Pow2(MAX_SLAB_ORDER)
       case Destroy(i) => i < |h.members|
       case Take(i) => i < |h.members|
       case Give(i, ptr) => i < |h.members| && exists j :: Routed(h.members[i].cache, ptr, j)
  }

  function Put(h: Heap, i: nat, s: Sys): Heap
    requires i < |h.members|
  {
    Heap(s.mem, h.members[i := h.members[i].(cache := s.cache)], h.lost)
  }

  function CreateStep(h: Heap, objSize: int): Heap
    requires objSize > 0
  {
    var (a, m) := Request(h.mem, CACHE_HEADER);
    if a.None? then h
    else
      var s := NewCache(m, objSize, SlotsFor(objSize, OrderFor(objSize)));
      Heap(s.mem, [Member(a.value, s.cache, OrderFor(objSize))] + h.members, h.lost)
  }

  function DestroyStep(h: Heap, i: nat): Heap
    requires i < |h.members|
  {
    var mb := h.members[i];
    Heap(Release(DestroySys(Sys(h.mem, mb.cache)), ChunkFor(mb.addr, CACHE_HEADER)), Without(h.members, i),
         h.lost + mb.cache.discarded)
  }

  function TakeStep(h: Heap, i: nat): (Option<int>, Heap)
    requires i < |h.members| && h.members[i].cache.objSize > 0
  {
    var (r, s) := AllocOne(Sys(h.mem, h.members[i].cache), SlotsFor(h.members[i].cache.objSize, h.members[i].order));
    (r, Put(h, i, s))
  }

  ghost function Step(h: Heap, op: HeapOp): Heap
    requires Legal(h, op)
  {
    match op
    case KallocOp(size) => var (r, m, ms) := Kalloc(h.mem, h.members, size); Heap(m, ms, h.lost)
    case KfreeOp(ptr) => var (m, ms) := Kfree(h.mem, h.members, ptr); Heap(m, ms, h.lost)
    case Create(objSize) => CreateStep(h, objSize)
    case Destroy(i) => DestroyStep(h, i)
    case Take(i) => TakeStep(h, i).1
    case Give(i, ptr) => Put(h, i, FreeOne(Sys(h.mem, h.members[i].cache), ptr))
  }

  /** The addresses clients hold: what they were given, less what they gave back and what went with its cache. */
  ghost function Held(h: Heap, op: HeapOp, objs: set<int>): set<int>
    requires Legal(h, op)
  {
    match op
    case KallocOp(size) => With(objs, Kalloc(h.mem, h.members, size).0)
    case KfreeOp(ptr) => objs - {ptr}
    case Create(_) => objs
    case Destroy(i) => set p | p in objs && !Live(h.members[i].cache, p)
    case Take(i) => With(objs, TakeStep(h, i).0)
    case Give(i, ptr) => objs - {ptr}
  }

  function With(objs: set<int>, r: Option<int>): set<int> {
    if r.Some? then objs + {r.value} else objs
  }

  /** Every cache is in order; the live objects of all of them are objs; and the live chunks are those of base, those the
      caches hold, and the lost headers. */
  ghost predicate HeapOk(h: Heap, base: multiset<Chunk>, objs: set<int>) {
    && AllOk(h.mem, h.members)
    && (forall p :: LiveAny(h.members, p) <==> p in objs)
    && ListRest(h.mem, h.members) == base + HeaderChunks(h.lost)
  }

  lemma KallocKeeps(h: Heap, size: int, base: multiset<Chunk>, objs: set<int>)
    requires HeapOk(h, base, objs) && Legal(h, KallocOp(size))
    ensures HeapOk(Step(h, KallocOp(size)), base, Held(h, KallocOp(size), objs))
  {
    hide AllOk, Kalloc, LiveAny, ListRest;
    KallocRefines(h.mem, h.members, size);
    KallocRest(h.mem, h.members, size);
  }

  lemma KfreeKeeps(h: Heap, ptr: int, base: multiset<Chunk>, objs: set<int>)
    requires HeapOk(h, base, objs) && Legal(h, KfreeOp(ptr))
    ensures HeapOk(Step(h, KfreeOp(ptr)), base, Held(h, KfreeOp(ptr), objs))
  {
    hide AllOk, Kfree, LiveAny, ListRest, RoutedIn;
    var k :| RoutedIn(h.members, ptr, k);
    KfreeRefines(h.mem, h.members, ptr, k);
    KfreeRest(h.mem, h.members, ptr, k);
  }

  lemma CreateKeeps(h: Heap, objSize: int, base: multiset<Chunk>, objs: set<int>)
    requires HeapOk(h, base, objs) && 0 < objSize <= Pow2(MAX_SLAB_ORDER)
    ensures HeapOk(CreateStep(h, objSize), base, objs)
  {
    hide AllOk, LiveAny, ListRest, Request, NewCache, SlotsFor, Optimal, OrderFor, Live, Pow2, Arena.Inv, HeaderChunks;
    HeaderKeeps(h.mem, h.members);
    OrderForOptimal(objSize);
    var k := OrderFor(objSize);
    CreateKeepsAll(h.mem, h.members, objSize, k);
    CreateRest(h.mem, h.members, objSize, k);
    var (a, m) := Request(h.mem, CACHE_HEADER);
    if a.Some? {
      NewCacheNothing(m, objSize, k);
      SameAny(h.members, Member(a.value, NewCache(m, objSize, SlotsFor(objSize, k)).cache, k));
    }
  }

  /** createCache adds a cache at the head exactly when its header finds room, with a first slab exactly when that does. */
  lemma CreateExactly(h: Heap, objSize: int)
    requires Arena.Inv(h.mem) && objSize > 0
    ensures var h', m := CreateStep(h, objSize), Request(h.mem, CACHE_HEADER).1;
      if Serves.Fits(h.mem, CACHE_HEADER) then
        && |h'.members| == |h.members| + 1 && h'.members[1..] == h.members
        && h'.members[0].cache.objSize == objSize && h'.members[0].order == OrderFor(objSize)
        && (|h'.members[0].cache.empty| == 1 <==> Serves.RoomForSlab(m, objSize, SlotsFor(objSize, OrderFor(objSize))))
      else h' == h
  {
    hide Request, NewCache, SlotsFor, OrderFor, Arena.Inv, Serves.Fits, Serves.RoomForSlab;
    Serves.RequestFits(h.mem, CACHE_HEADER);
    RequestKeeps(h.mem, CACHE_HEADER);
    var m := Request(h.mem, CACHE_HEADER).1;
    Serves.NewCacheServed(m, objSize, SlotsFor(objSize, OrderFor(objSize)));
    SlabRuns.NewSize(m, objSize, SlotsFor(objSize, OrderFor(objSize)));
  }

  lemma NewCacheNothing(m: Arena.State, objSize: int, k: nat)
    requires Arena.Inv(m) && objSize > 0 && Optimal(objSize, k)
    ensures forall q :: !Live(NewCache(m, objSize, SlotsFor(objSize, k)).cache, q)
  {
    hide Arena.Inv, Optimal, NewCache, SlotsFor, Live, SysOk;
    SlabRuns.NewCacheKeeps(m, objSize, k);
  }

  /** What goes with a destroyed cache. */
  lemma DropAny(m: Arena.State, ms: seq<Member>, i: nat)
    requires AllOk(m, ms) && i < |ms|
    ensures forall p :: LiveAny(Without(ms, i), p) <==> LiveAny(ms, p) && !Live(ms[i].cache, p)
  {
    hide AllOk, Live;
    var ms' := Without(ms, i);
    forall p
      ensures LiveAny(ms', p) <==> LiveAny(ms, p) && !Live(ms[i].cache, p)
    {
      if LiveAny(ms', p) {
        var j :| 0 <= j < |ms'| && Live(ms'[j].cache, p);
        var j' := if j < i then j else j + 1;
        assert ms'[j] == ms[j'];
        if Live(ms[i].cache, p) { LiveInOne(m, ms, i, j', p); }
      }
      if LiveAny(ms, p) && !Live(ms[i].cache, p) {
        var j :| 0 <= j < |ms| && Live(ms[j].cache, p);
        assert ms'[if j < i then j else j - 1] == ms[j];
      }
    }
  }

  lemma DestroyKeeps(h: Heap, i: nat, base: multiset<Chunk>, objs: set<int>)
    requires HeapOk(h, base, objs) && Legal(h, Destroy(i))
    ensures HeapOk(DestroyStep(h, i), base, Held(h, Destroy(i), objs))
  {
    hide AllOk, LiveAny, ListRest, HeaderChunks, DestroySys, Release, Live, Without;
    DestroyKeepsAll(h.mem, h.members, i);
    DestroyRest(h.mem, h.members, i);
    DropAny(h.mem, h.members, i);
    HeaderConcat(h.lost, h.members[i].cache.discarded);
  }

  lemma TakeKeeps(h: Heap, i: nat, base: multiset<Chunk>, objs: set<int>)
    requires HeapOk(h, base, objs) && Legal(h, Take(i))
    ensures HeapOk(TakeStep(h, i).1, base, Held(h, Take(i), objs))
  {
    hide AllOk, LiveAny, ListRest, AllocOne, SlotsFor, Gains;
    var ms := h.members;
    AllocAtKeeps(h.mem, ms, i);
    AllocAtRest(h.mem, ms, i);
    var (r, s) := AllocOne(Sys(h.mem, ms[i].cache), SlotsFor(ms[i].cache.objSize, ms[i].order));
    GainAny(h.mem, ms, ms[i := ms[i].(cache := s.cache)], i, r, s.mem);
  }

  lemma GiveKeeps(h: Heap, i: nat, ptr: int, base: multiset<Chunk>, objs: set<int>)
    requires HeapOk(h, base, objs) && Legal(h, Give(i, ptr))
    ensures HeapOk(Step(h, Give(i, ptr)), base, Held(h, Give(i, ptr), objs))
  {
    hide AllOk, LiveAny, ListRest, FreeOne, Loses, Routed;
    var ms := h.members;
    FreeAtRest(h.mem, ms, i, ptr);
    var s := FreeOne(Sys(h.mem, ms[i].cache), ptr);
    LoseAny(h.mem, ms, ms[i := ms[i].(cache := s.cache)], i, ptr);
  }

  lemma StepKeeps(h: Heap, op: HeapOp, base: multiset<Chunk>, objs: set<int>)
    requires HeapOk(h, base, objs) && Legal(h, op)
    ensures HeapOk(Step(h, op), base, Held(h, op, objs))
  {
    hide HeapOk, Kalloc, Kfree, CreateStep, DestroyStep, TakeStep, FreeOne, Routed, RoutedIn;
    match op
    case KallocOp(size) => KallocKeeps(h, size, base, objs);
    case KfreeOp(ptr) => KfreeKeeps(h, ptr, base, objs);
    case Create(objSize) => CreateKeeps(h, objSize, base, objs);
    case Destroy(i) => DestroyKeeps(h, i, base, objs);
    case Take(i) => TakeKeeps(h, i, base, objs);
    case Give(i, ptr) => GiveKeeps(h, i, ptr, base, objs);
  }

  ghost predicate LegalRun(h: Heap, ops: seq<HeapOp>)
    decreases |ops|
  {
    ops == [] || (Legal(h, ops[0]) && LegalRun(Step(h, ops[0]), ops[1..]))
  }

  ghost function Run(h: Heap, ops: seq<HeapOp>): Heap
    requires LegalRun(h, ops)
    decreases |ops|
  {
    if ops == [] then h else Run(Step(h, ops[0]), ops[1..])
  }

  ghost function HeldAfter(h: Heap, ops: seq<HeapOp>, objs: set<int>): set<int>
    requires LegalRun(h, ops)
    decreases |ops|
  {
    if ops == [] then objs else HeldAfter(Step(h, ops[0]), ops[1..], Held(h, ops[0], objs))
  }

  lemma {:induction false} HeapRun(h: Heap, ops: seq<HeapOp>, base: multiset<Chunk>, objs: set<int>)
    requires HeapOk(h, base, objs) && LegalRun(h, ops)
    ensures HeapOk(Run(h, ops), base, HeldAfter(h, ops, objs))
    decreases |ops|
  {
    hide HeapOk, Step, Legal, Held;
    if ops != [] {
      StepKeeps(h, ops[0], base, objs);
      HeapRun(Step(h, ops[0]), ops[1..], base, Held(h, ops[0], objs));
    }
  }

  /** Over any run that starts without caches: every cache stays in order, the live objects of all caches are exactly what
      clients hold, and the arena's live chunks are exactly those live before, those of the caches and the lost headers.
      With no cache left and no header lost the free memory is what it was. */
  lemma RunFromEmpty(m: Arena.State, ops: seq<HeapOp>)
    requires Arena.Inv(m) && LegalRun(Heap(m, [], []), ops)
    ensures var h := Run(Heap(m, [], []), ops);
      && AllOk(h.mem, h.members)
      && (forall p :: LiveAny(h.members, p) <==> p in HeldAfter(Heap(m, [], []), ops, {}))
      && multiset(h.mem.live) == multiset(m.live) + HeaderChunks(h.lost) + Holdings(h.members)
      && (h.members == [] && h.lost == [] ==>
            h.mem.live == m.live && BuddySpec.FreeSet(h.mem.lists) == BuddySpec.FreeSet(m.lists))
  {
    hide Holdings, Arena.Inv, LiveAny, HeapOk, Run, LegalRun, AllOk, HeaderChunks;
    EmptyOk(m);
    HeapRun(Heap(m, [], []), ops, multiset(m.live), {});
    var h := Run(Heap(m, [], []), ops);
    HeapParts(h, multiset(m.live), HeldAfter(Heap(m, [], []), ops, {}));
    if h.members == [] && h.lost == [] {
      NothingHeld(h, multiset(m.live));
      SlabRuns.NothingDiscarded(m, h.mem);
    }
  }

  lemma HeapParts(h: Heap, base: multiset<Chunk>, objs: set<int>)
    requires HeapOk(h, base, objs)
    ensures AllOk(h.mem, h.members) && Arena.Inv(h.mem) && (forall p :: LiveAny(h.members, p) <==> p in objs)
    ensures multiset(h.mem.live) == base + HeaderChunks(h.lost) + Holdings(h.members)
  {
    HoldingsLive(h.mem, h.members);
    hide AllOk, LiveAny, Holdings, HeaderChunks;
    assert multiset(h.mem.live) == ListRest(h.mem, h.members) + Holdings(h.members);
  }

  lemma HoldingsLive(m: Arena.State, ms: seq<Member>)
    requires AllOk(m, ms)
    ensures Arena.Inv(m) && Holdings(ms) <= multiset(m.live)
  {
  }

  lemma NothingHeld(h: Heap, base: multiset<Chunk>)
    requires h.members == [] && h.lost == []
    requires multiset(h.mem.live) == base + HeaderChunks(h.lost) + Holdings(h.members)
    ensures multiset(h.mem.live) == base + HeaderChunks([])
  {
    hide HeaderChunks;
  }

  lemma EmptyOk(m: Arena.State)
    requires Arena.Inv(m)
    ensures HeapOk(Heap(m, [], []), multiset(m.live), {})
  {
    assert multiset(m.live) - multiset{} == multiset(m.live) + multiset{};
  }
}
