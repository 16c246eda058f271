/** Runs from the initial arena in which the <= of isHere sends a free to the wrong slab. */
module SlabWitnesses {
  import opened Wrappers
  import opened PowersOfTwo
  import opened Blocks
  import BuddySpec
  import BuddyInvariant
  import Arena = BuddyTheorems
  import opened SlabSpec
  import opened SlabTheorems
  import opened SlabPages
  import opened SlabSystem
  import opened SlabRuns
  import opened SlabCaches
  import Heaps = SlabHeaps

  // ---------------------------------------------------------------- requests on a small arena

  /** The free lists of orders 12 to 16. */
  predicate Lows(m: Arena.State, l12: seq<int>, l13: seq<int>, l14: seq<int>, l15: seq<int>, l16: seq<int>) {
    m.lists[12] == l12 && m.lists[13] == l13 && m.lists[14] == l14 && m.lists[15] == l15 && m.lists[16] == l16
  }

  lemma Powers()
    ensures Pow2(12) == 4096 && Pow2(13) == 8192 && Pow2(14) == 16384 && Pow2(15) == 32768 && Pow2(16) == 65536
    ensures Pow2(17) == 131072
  {
    Pow2Sum(12, 5);
    Pow2Double(12);
    Pow2Double(13);
    Pow2Double(14);
    Pow2Double(15);
    assert Pow2(12) == 4096;
  }

  lemma Orders()
    ensures BuddySpec.OrderOf(SLAB_HEADER) == BuddySpec.OrderOf(CACHE_HEADER) == BuddySpec.OrderOf(4) == 12
    ensures BuddySpec.OrderOf(8192) == 13 && BuddySpec.OrderOf(32768) == 15
  {
    Powers();
    Arena.OrderOfPow2(12);
    Arena.OrderOfPow2(13);
    Arena.OrderOfPow2(15);
    hide Pow2;
  }

  /** What carving the head of list i down to order k leaves of the lists. */
  predicate Carved(l: BuddySpec.Lists, l': BuddySpec.Lists, k: nat, i: nat)
    requires k <= i <= MAX_ORDER && l[i] != []
  {
    forall j :: 0 <= j <= MAX_ORDER ==>
      (l'[j] == if k <= j < i then [l[i][0] + Pow2(j)] else if j == i then l[i][1..] else l[j])
  }

  lemma AllocCarved(l: BuddySpec.Lists, k: nat, i: nat)
    requires k <= i <= MAX_ORDER && l[i] != [] && forall j :: k <= j < i ==> l[j] == []
    ensures BuddySpec.AllocSpec(l, k).0 == Some(l[i][0]) && Carved(l, BuddySpec.AllocSpec(l, k).1, k, i)
  {
    hide Pow2, BuddySpec.AllocSpec, BuddyInvariant.Carve;
    BuddyInvariant.AllocFromHead(l, i, k);
    forall j | 0 <= j <= MAX_ORDER
      ensures BuddyInvariant.Carve(l[i := l[i][1..]], l[i][0], i, k)[j] ==
              if k <= j < i then [l[i][0] + Pow2(j)] else if j == i then l[i][1..] else l[j]
    {
      BuddyInvariant.CarveAt(l[i := l[i][1..]], l[i][0], i, k, j);
    }
  }

  /** A request of order k that carves the head of list i, the first non-empty one. */
  lemma RequestCarves(m: Arena.State, size: int, k: nat, i: nat)
    requires size <= ARENA && BuddySpec.OrderOf(size) == k <= i <= MAX_ORDER
    requires m.lists[i] != [] && forall j :: k <= j < i ==> m.lists[j] == []
    ensures Request(m, size).0 == Some(m.lists[i][0]) && Carved(m.lists, Request(m, size).1.lists, k, i)
  {
    hide BuddySpec.OrderOf, BuddySpec.AllocSpec, Carved;
    AllocCarved(m.lists, k, i);
  }

  /** The header of the first cache. */
  lemma FirstHeader()
    ensures var (h, m) := Request(Arena.State(BuddySpec.InitLists(), {}), CACHE_HEADER);
      h == Some(0) && Lows(m, [4096], [8192], [16384], [32768], [65536])
  {
    Orders();
    Powers();
    hide Pow2, BuddySpec.OrderOf, Request;
    RequestCarves(Arena.State(BuddySpec.InitLists(), {}), CACHE_HEADER, 12, MAX_ORDER);
  }

  /** One slab of one slot, from the three requests. */
  lemma SlabOf(m: Arena.State, slotSize: int, a: int, f: int, s: int)
    requires var m1 := Request(m, SLAB_HEADER).1;
      var m2 := Request(m1, 4).1;
      Request(m, SLAB_HEADER).0 == Some(a) && Request(m1, 4).0 == Some(f) && Request(m2, slotSize).0 == Some(s)
    ensures CreateSlab(m, slotSize, 1) == (Some(Slab(a, f, s, [true])), Request(Request(Request(m, SLAB_HEADER).1, 4).1, slotSize).1)
  {
    hide Request;
    assert 1 * slotSize == slotSize;
    assert seq(1, _ => true) == [true];
  }

  /** The first slab of 2^15-byte objects. */
  lemma SlabA(m: Arena.State)
    requires Lows(m, [4096], [8192], [16384], [32768], [65536])
    ensures var (r, m') := CreateSlab(m, 32768, 1);
      r == Some(Slab(4096, 8192, 32768, [true])) && Lows(m', [12288], [], [16384], [], [65536])
  {
    Orders();
    Powers();
    hide Pow2, BuddySpec.OrderOf, Request, CreateSlab;
    RequestCarves(m, SLAB_HEADER, 12, 12);
    var m1 := Request(m, SLAB_HEADER).1;
    RequestCarves(m1, 4, 12, 13);
    var m2 := Request(m1, 4).1;
    RequestCarves(m2, 32768, 15, 15);
    SlabOf(m, 32768, 4096, 8192, 32768);
  }

  /** The second one, right behind it. */
  lemma SlabB(m: Arena.State)
    requires Lows(m, [12288], [], [16384], [], [65536])
    ensures var (r, m') := CreateSlab(m, 32768, 1);
      r == Some(Slab(12288, 16384, 65536, [true])) && Lows(m', [20480], [24576], [], [98304], [])
  {
    Orders();
    Powers();
    hide Pow2, BuddySpec.OrderOf, Request, CreateSlab;
    RequestCarves(m, SLAB_HEADER, 12, 12);
    var m1 := Request(m, SLAB_HEADER).1;
    RequestCarves(m1, 4, 12, 14);
    var m2 := Request(m1, 4).1;
    RequestCarves(m2, 32768, 15, 16);
    SlabOf(m, 32768, 12288, 16384, 65536);
  }

  lemma SlabC(m: Arena.State)
    requires Lows(m, [20480], [24576], [], [98304], [])
    ensures CreateSlab(m, 32768, 1).0 == Some(Slab(20480, 24576, 98304, [true]))
  {
    Orders();
    Powers();
    hide Pow2, BuddySpec.OrderOf, Request, CreateSlab;
    RequestCarves(m, SLAB_HEADER, 12, 12);
    var m1 := Request(m, SLAB_HEADER).1;
    RequestCarves(m1, 4, 12, 13);
    var m2 := Request(m1, 4).1;
    RequestCarves(m2, 32768, 15, 15);
    SlabOf(m, 32768, 20480, 24576, 98304);
  }

  /** The header and the first slab of a cache of 2^13-byte objects, in front of the first slab. */
  lemma SecondCache(m: Arena.State)
    requires Lows(m, [12288], [], [16384], [], [65536])
    ensures var (h, m1) := Request(m, CACHE_HEADER);
      h == Some(12288) && CreateSlab(m1, 8192, 1).0 == Some(Slab(16384, 20480, 24576, [true]))
  {
    Orders();
    Powers();
    hide Pow2, BuddySpec.OrderOf, Request, CreateSlab;
    RequestCarves(m, CACHE_HEADER, 12, 12);
    var m0 := Request(m, CACHE_HEADER).1;
    RequestCarves(m0, SLAB_HEADER, 12, 14);
    var m1 := Request(m0, SLAB_HEADER).1;
    RequestCarves(m1, 4, 12, 12);
    var m2 := Request(m1, 4).1;
    RequestCarves(m2, 8192, 13, 13);
    SlabOf(m0, 8192, 16384, 20480, 24576);
  }

  // ---------------------------------------------------------------- one cache

  /** A slab of one slot. */
  function One(a: int, f: int, s: int, free: bool): Slab {
    Slab(a, f, s, [free])
  }

  lemma OneCounts(a: int, f: int, s: int)
    ensures IsEmpty(One(a, f, s, true)) && !IsFull(One(a, f, s, true)) && IsFull(One(a, f, s, false)) && !IsEmpty(One(a, f, s, false))
    ensures TakeSlot(One(a, f, s, true)) == One(a, f, s, false) && FirstFree([true]) == 0
  {
    CountBounds([true]);
    CountBounds([false]);
    assert [true][0 := false] == [false];
  }

  /** alloc takes the only slot of the empty slab. */
  lemma TakeEmpty(s: Sys, a: int, f: int, o: int)
    requires s.cache.half == [] && s.cache.empty == [One(a, f, o, true)]
    ensures AllocOne(s, 1) == (Some(o), s.(cache := s.cache.(full := [One(a, f, o, false)] + s.cache.full, empty := [])))
  {
    OneCounts(a, f, o);
    assert s.cache.empty[1..] == [];
    hide IsFull, IsEmpty, TakeSlot, FirstFree;
  }

  /** alloc takes the only slot of a new slab. */
  lemma TakeNew(s: Sys, a: int, f: int, o: int)
    requires s.cache.half == [] && s.cache.empty == []
    requires CreateSlab(s.mem, s.cache.objSize, 1).0 == Some(One(a, f, o, true))
    ensures AllocOne(s, 1) == (Some(o), Sys(CreateSlab(s.mem, s.cache.objSize, 1).1,
                                            s.cache.(full := [One(a, f, o, false)] + s.cache.full)))
  {
    OneCounts(a, f, o);
    hide IsFull, IsEmpty, TakeSlot, FirstFree, CreateSlab;
  }

  const BIG: int := 32768

  function Bigs(full: seq<Slab>, empty: seq<Slab>, discarded: seq<int>): Cache {
    Cache(BIG, full, [], empty, discarded)
  }

  lemma BigOptimal()
    ensures Optimal(BIG, 15) && SlotsFor(BIG, 15) == 1
  {
    Powers();
    ClassOptimal(15);
    assert ClassOrder(15) == 15;
    hide Pow2;
    WholeMultiple(BIG, 15, 1);
  }

  const A1: Slab := One(4096, 8192, 32768, false)
  const A0: Slab := One(4096, 8192, 32768, true)
  const B1: Slab := One(12288, 16384, 65536, false)
  const C1: Slab := One(20480, 24576, 98304, false)
  const C0: Slab := One(20480, 24576, 98304, true)

  /** What is freed is the only slot of the slab at place j of the full ones, and it is found there. */
  lemma GiveFull(s: Sys, j: nat, a: int, f: int, o: int)
    requires s.cache.objSize == BIG && s.cache.half == [] && j < |s.cache.full| && s.cache.full[j] == One(a, f, o, false)
    requires forall i :: 0 <= i < j ==> !IsHere(s.cache.full[i], BIG, o)
    ensures exists i :: Routed(s.cache, o, i)
    ensures FreeOne(s, o).cache == ShrinkSpec(s.cache.(full := RemoveAt(s.cache.full, j), empty := [One(a, f, o, true)] + s.cache.empty))
  {
    var c := s.cache;
    OneCounts(a, f, o);
    assert Object(c.full[j], BIG, 0) == o && InUse(Searched(c)[j], BIG, o);
    forall i | 0 <= i < j
      ensures !EndsAt(Searched(c)[i], BIG, o)
    {
      assert !IsHere(c.full[i], BIG, o);
    }
    assert Routed(c, o, j);
    FindFirst(c.full, BIG, o, j);
    assert [false][0 := true] == [true];
    hide IsFull, IsEmpty, Find, Routed, IsHere, InUse, ShrinkSpec, DropAll, Surplus;
    assert SlotOf(c.full[j], BIG, o) == 0;
  }

  lemma ApplyCons(s: Sys, n: nat, op: CacheOp, ops: seq<CacheOp>)
    requires SlabRuns.Legal(s, op) && SlabRuns.LegalRun(Apply(s, n, op), n, ops)
    ensures SlabRuns.LegalRun(s, n, [op] + ops) && SlabRuns.Run(s, n, [op] + ops) == SlabRuns.Run(Apply(s, n, op), n, ops)
  {
    assert ([op] + ops)[1..] == ops;
    hide SlabRuns.Legal, Apply;
  }

  /** Three slabs filled one after the other. */
  lemma FillThree(m: Arena.State)
    requires Lows(m, [4096], [8192], [16384], [32768], [65536])
    ensures var s0 := NewCache(m, BIG, 1);
      var s1, s2, s3 := AllocOne(s0, 1).1, AllocOne(AllocOne(s0, 1).1, 1).1, AllocOne(AllocOne(AllocOne(s0, 1).1, 1).1, 1).1;
      s0.cache == Bigs([], [A0], []) && s3.cache == Bigs([C1, B1, A1], [], [])
  {
    hide CreateSlab, AllocOne, Lows;
    SlabA(m);
    var s0 := NewCache(m, BIG, 1);
    TakeEmpty(s0, 4096, 8192, 32768);
    var s1 := AllocOne(s0, 1).1;
    SlabB(s1.mem);
    assert [A1] + [] == [A1];
    TakeNew(s1, 12288, 16384, 65536);
    var s2 := AllocOne(s1, 1).1;
    SlabC(s2.mem);
    assert [B1] + [A1] == [B1, A1];
    TakeNew(s2, 20480, 24576, 98304);
    assert [C1] + [B1, A1] == [C1, B1, A1];
  }

  /** Two of them become empty, of which shrink discards the first, and one is filled again. */
  lemma GiveTwo(s: Sys)
    requires s.cache == Bigs([C1, B1, A1], [], [])
    ensures SlabRuns.Legal(s, Give(98304))
    ensures var s1 := FreeOne(s, 98304);
      && s1.cache == Bigs([B1, A1], [C0], []) && SlabRuns.Legal(s1, Give(32768))
      && var s2 := FreeOne(s1, 32768);
         s2.cache == Bigs([B1], [A0], [20480]) && AllocOne(s2, 1).1.cache == Bigs([A1, B1], [], [20480])
  {
    hide Find, Routed, IsHere, InUse, DropAll, AllocOne, FreeOne;
    GiveFull(s, 0, 20480, 24576, 98304);
    var s1 := FreeOne(s, 98304);
    assert RemoveAt([C1, B1, A1], 0) == [B1, A1] && [C0] + [] == [C0];
    NotThere();
    GiveFull(s1, 1, 4096, 8192, 32768);
    assert RemoveAt([B1, A1], 1) == [B1] && [A0] + [C0] == [A0, C0];
    assert [A0, C0][1..] == [C0] && [A0, C0][..1] == [A0] && Headers([C0]) == [20480] && [] + [20480] == [20480];
    var s2 := FreeOne(s1, 32768);
    TakeEmpty(s2, 4096, 8192, 32768);
    assert [A1] + [B1] == [A1, B1];
  }

  lemma NotThere()
    ensures !IsHere(B1, BIG, 32768)
  {
  }

  function MisroutingRun(): seq<CacheOp> {
    [Take, Take, Take, Give(98304), Give(32768), Take]
  }

  /** A full slab of one slot: its object is live, and the address just past it is claimed though no object is there. */
  lemma OneSlot(s: Slab, objSize: int)
    requires s.flags == [false] && objSize > 0
    ensures InUse(s, objSize, s.slots)
    ensures EndsAt(s, objSize, s.slots + objSize) && IsHere(s, objSize, s.slots + objSize) && !InUse(s, objSize, s.slots + objSize)
  {
    assert Object(s, objSize, 0) == s.slots && !s.flags[0];
  }

  /** A full slab of one slot that another one follows directly, and comes before in the search. */
  lemma SlabInFront(c: Cache, s: Slab, t: Slab)
    requires c.objSize > 0 && c.full == [s, t] && c.half == [] && s.flags == [false] && t.flags == [false]
    requires s.slots + c.objSize == t.slots
    ensures Live(c, t.slots) && Searched(c) == [s, t] && Find(Searched(c), c.objSize, t.slots) == 0
    ensures InUse(t, c.objSize, t.slots) && !InUse(s, c.objSize, t.slots)
  {
    OneSlot(s, c.objSize);
    OneSlot(t, c.objSize);
    hide InUse, EndsAt, IsHere, Find;
    FindFirst([s, t], c.objSize, t.slots, 0);
    PoolParts(c);
    assert t in c.full;
    assert t in Pool(c);
    hide Pool;
  }

  /** From the initial arena: a legal run of a new cache of 2^15-byte objects after which free of a live object comes to a
      slab that does not own it; the run also leaves a discarded header allocated. */
  lemma FreeMisroutes()
    ensures Optimal(BIG, 15) && SlotsFor(BIG, 15) == 1
    ensures var (h, m) := Request(Arena.State(BuddySpec.InitLists(), {}), CACHE_HEADER);
      && h.Some? && SlabRuns.LegalRun(NewCache(m, BIG, 1), 1, MisroutingRun())
      && var c := SlabRuns.Run(NewCache(m, BIG, 1), 1, MisroutingRun()).cache;
         && Live(c, 65536) && Find(Searched(c), BIG, 65536) == 0 && |Searched(c)| == 2
         && !InUse(Searched(c)[0], BIG, 65536) && InUse(Searched(c)[1], BIG, 65536)
         && c.discarded == [20480]
  {
    BigOptimal();
    FirstHeader();
    var m := Request(Arena.State(BuddySpec.InitLists(), {}), CACHE_HEADER).1;
    FillThree(m);
    SlabInFront(Bigs([A1, B1], [], [20480]), A1, B1);
    hide Request, NewCache, AllocOne, FreeOne, Find, Live, InUse, Optimal, SlotsFor, Pow2, Lows, SlabRuns.LegalRun, SlabRuns.Run;
    var s0 := NewCache(m, BIG, 1);
    var s3 := AllocOne(AllocOne(AllocOne(s0, 1).1, 1).1, 1).1;
    GiveTwo(s3);
    SixSteps(s0, s3);
  }

  lemma SixSteps(s0: Sys, s3: Sys)
    requires s3 == AllocOne(AllocOne(AllocOne(s0, 1).1, 1).1, 1).1 && s3.cache.objSize == BIG
    requires SlabRuns.Legal(s3, Give(98304))
    requires var s4 := FreeOne(s3, 98304); s4.cache.objSize == BIG && SlabRuns.Legal(s4, Give(32768))
    ensures SlabRuns.LegalRun(s0, 1, MisroutingRun())
    ensures SlabRuns.Run(s0, 1, MisroutingRun()) == AllocOne(FreeOne(FreeOne(s3, 98304), 32768), 1).1
  {
    hide AllocOne, FreeOne, Routed;
    var s1, s2, s4, s5 := AllocOne(s0, 1).1, AllocOne(AllocOne(s0, 1).1, 1).1, FreeOne(s3, 98304), FreeOne(FreeOne(s3, 98304), 32768);
    ApplyCons(s5, 1, Take, []);
    ApplyCons(s4, 1, Give(32768), [Take]);
    ApplyCons(s3, 1, Give(98304), [Give(32768), Take]);
    ApplyCons(s2, 1, Take, [Give(98304), Give(32768), Take]);
    ApplyCons(s1, 1, Take, [Take, Give(98304), Give(32768), Take]);
    ApplyCons(s0, 1, Take, [Take, Take, Give(98304), Give(32768), Take]);
    assert [Take] + [] == [Take];
    assert [Give(32768)] + [Take] == [Give(32768), Take];
    assert [Give(98304)] + [Give(32768), Take] == [Give(98304), Give(32768), Take];
    assert [Take] + [Give(98304), Give(32768), Take] == [Take, Give(98304), Give(32768), Take];
    assert [Take] + [Take, Give(98304), Give(32768), Take] == [Take, Take, Give(98304), Give(32768), Take];
    assert [Take] + [Take, Take, Give(98304), Give(32768), Take] == MisroutingRun();
  }

  // ---------------------------------------------------------------- a list of caches

  lemma ClassIs(j: nat)
    requires 5 <= j <= 17
    ensures Class(Pow2(j)) == j && Pow2(j) <= Pow2(17)
  {
    Pow2Monotone(17, j);
    ClassIsLeast(Pow2(j));
    if Class(Pow2(j)) < j {
      Pow2Monotone(j, Class(Pow2(j)));
    }
  }

  /** A class of at least a page has one slot a slab. */
  lemma OneSlotClass(j: nat)
    requires 12 <= j <= 17
    ensures SlotsFor(Pow2(j), ClassOrder(j)) == 1
  {
    hide Pow2;
    WholeMultiple(Pow2(j), j, 1);
  }

  /** kalloc of a class no cache has yet: a new cache whose first slab's only slot is taken. */
  lemma KallocFirst(m: Arena.State, ms: seq<Member>, j: nat, h: int, a: int, f: int, o: int)
    requires 12 <= j <= 17 && (forall i :: 0 <= i < |ms| ==> ms[i].cache.objSize != Pow2(j))
    requires Request(m, CACHE_HEADER).0 == Some(h)
    requires CreateSlab(Request(m, CACHE_HEADER).1, Pow2(j), 1).0 == Some(One(a, f, o, true))
    ensures Kalloc(m, ms, Pow2(j)) ==
            (Some(o), CreateSlab(Request(m, CACHE_HEADER).1, Pow2(j), 1).1,
             [Member(h, Cache(Pow2(j), [One(a, f, o, false)], [], [], []), j)] + ms)
  {
    hide Pow2, Request, CreateSlab, Class, SlotsFor, AllocOne, KallocNew;
    ClassIs(j);
    assert FirstOfSize(ms, Pow2(j)) == |ms|;
    NewOfClass(m, ms, j, h, a, f, o);
  }

  lemma NewOfClass(m: Arena.State, ms: seq<Member>, j: nat, h: int, a: int, f: int, o: int)
    requires 12 <= j <= 17 && Request(m, CACHE_HEADER).0 == Some(h)
    requires CreateSlab(Request(m, CACHE_HEADER).1, Pow2(j), 1).0 == Some(One(a, f, o, true))
    ensures KallocNew(m, ms, j) ==
            (Some(o), CreateSlab(Request(m, CACHE_HEADER).1, Pow2(j), 1).1,
             [Member(h, Cache(Pow2(j), [One(a, f, o, false)], [], [], []), j)] + ms)
  {
    hide Pow2, Request, CreateSlab, SlotsFor, AllocOne;
    OneSlotClass(j);
    var s := NewCache(Request(m, CACHE_HEADER).1, Pow2(j), 1);
    TakeEmpty(s, a, f, o);
    assert [One(a, f, o, false)] + [] == [One(a, f, o, false)];
  }

  function TwoRequests(): seq<Heaps.HeapOp> {
    [Heaps.KallocOp(32768), Heaps.KallocOp(8192)]
  }

  const EMPTY_HEAP: Heaps.Heap := Heaps.Heap(Arena.State(BuddySpec.InitLists(), {}), [], [])
  const LARGE: Member := Member(0, Cache(32768, [A1], [], [], []), 15)
  const SMALL: Member := Member(12288, Cache(8192, [One(16384, 20480, 24576, false)], [], [], []), 13)

  lemma FirstKalloc() returns (m: Arena.State)
    ensures Kalloc(EMPTY_HEAP.mem, [], 32768) == (Some(32768), m, [LARGE]) && Lows(m, [12288], [], [16384], [], [65536])
  {
    Powers();
    FirstHeader();
    hide Pow2, Request, CreateSlab, Kalloc, Lows, BuddySpec.InitLists;
    var m1 := Request(EMPTY_HEAP.mem, CACHE_HEADER).1;
    SlabA(m1);
    KallocFirst(EMPTY_HEAP.mem, [], 15, 0, 4096, 8192, 32768);
    assert [LARGE] + [] == [LARGE];
    m := CreateSlab(m1, 32768, 1).1;
  }

  lemma SecondKalloc(m: Arena.State)
    requires Lows(m, [12288], [], [16384], [], [65536])
    ensures Kalloc(m, [LARGE], 8192).2 == [SMALL, LARGE]
  {
    Powers();
    hide Pow2, Request, CreateSlab, Kalloc, Lows;
    SecondCache(m);
    KallocFirst(m, [LARGE], 13, 12288, 16384, 20480, 24576);
    assert [SMALL] + [LARGE] == [SMALL, LARGE];
  }

  lemma AfterTwo()
    ensures Heaps.LegalRun(EMPTY_HEAP, TwoRequests())
    ensures Heaps.Run(EMPTY_HEAP, TwoRequests()).members == [SMALL, LARGE]
  {
    hide Kalloc, Lows, BuddySpec.InitLists, Heaps.LegalRun, Heaps.Run;
    var m := FirstKalloc();
    SecondKalloc(m);
    TwoSteps(Heaps.Heap(m, [LARGE], []));
  }

  lemma TwoSteps(h1: Heaps.Heap)
    requires Heaps.Legal(EMPTY_HEAP, Heaps.KallocOp(32768)) && Heaps.Step(EMPTY_HEAP, Heaps.KallocOp(32768)) == h1
    requires Heaps.Legal(h1, Heaps.KallocOp(8192))
    ensures Heaps.LegalRun(EMPTY_HEAP, TwoRequests())
    ensures Heaps.Run(EMPTY_HEAP, TwoRequests()) == Heaps.Step(h1, Heaps.KallocOp(8192))
  {
    hide Kalloc, Heaps.Legal, Heaps.Step, BuddySpec.InitLists;
    var ops := TwoRequests();
    assert ops[1..] == [Heaps.KallocOp(8192)];
    assert ops[1..][1..] == [];
  }

  /** From the initial arena: after kalloc of 2^15 and of 2^13 bytes the first object, at 32768, is live in the second
      cache of the list, but kfree of it comes to the first cache, whose slab ends there. */
  lemma KfreeMisroutes()
    ensures Heaps.LegalRun(EMPTY_HEAP, TwoRequests())
    ensures var ms := Heaps.Run(EMPTY_HEAP, TwoRequests()).members;
      && |ms| == 2 && Live(ms[1].cache, 32768) && !Live(ms[0].cache, 32768)
      && Claiming(ms, 32768) == 0 && SomeEndsAt(ms[0].cache, 32768)
  {
    AfterTwo();
    OneSlot(A1, 32768);
    OneSlot(SMALL.cache.full[0], 8192);
    hide Heaps.LegalRun, Heaps.Run, InUse, EndsAt, IsHere;
    LiveSlot(LARGE.cache, A1);
    LiveSlot(SMALL.cache, SMALL.cache.full[0]);
    ClaimingFront(SMALL, LARGE, SMALL.cache.full[0], 32768);
  }

  /** The only slab of a cache. */
  lemma LiveSlot(c: Cache, s: Slab)
    requires c.full == [s] && c.half == [] && c.empty == []
    ensures forall p :: Live(c, p) <==> InUse(s, c.objSize, p)
  {
    hide InUse;
    PoolParts(c);
    assert s in c.full;
    assert forall t :: t in Pool(c) <==> t == s;
  }

  lemma ClaimingFront(a: Member, b: Member, s: Slab, ptr: int)
    requires a.cache.full == [s] && a.cache.half == [] && EndsAt(s, a.cache.objSize, ptr) && IsHere(s, a.cache.objSize, ptr)
    ensures Claiming([a, b], ptr) == 0 && SomeEndsAt(a.cache, ptr)
  {
    hide IsHere, EndsAt;
    assert Searched(a.cache) == [s];
    assert s in Searched(a.cache);
    FindFirst([s], a.cache.objSize, ptr, 0);
  }
}
