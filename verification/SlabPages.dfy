/** Slab sizes, and the buddy chunks a cache holds. */
module SlabPages {
  import opened PowersOfTwo
  import opened Blocks
  import BuddySpec
  import BuddyTheorems
  import opened SlabSpec
  import opened SlabTheorems

  /** sizeof(kSlab) and sizeof(kCache) for 64-bit pointers. */
  const SLAB_HEADER: int := 40
  const CACHE_HEADER: int := 120

  /** Largest slot area of a slab: 2^18 bytes (src/kCache.cpp:4-7). */
  const MAX_SLAB_ORDER: nat := 18

  // ---------------------------------------------------------------- choosing a slab size

  predicate Candidate(objSize: int, k: nat) {
    MIN_ORDER <= k <= MAX_SLAB_ORDER && Pow2(k) >= objSize
  }

  /** Bytes of 2^k that whole objects do not fill. */
  function Waste(objSize: int, k: nat): int
    requires objSize > 0
  {
    Pow2(k) % objSize
  }

  /** 2^k wastes the least of all candidate sizes, and is the smallest of those that waste as little. */
  ghost predicate Optimal(objSize: int, k: nat)
    requires objSize > 0
  {
    && Candidate(objSize, k)
    && forall j :: Candidate(objSize, j) ==>
         Waste(objSize, k) <= Waste(objSize, j) && (Waste(objSize, j) == Waste(objSize, k) ==> k <= j)
  }

  /** What findOptimalSlabSize returns: the optimal size, or the largest one when no size holds an object. */
  ghost predicate OptimalSize(objSize: int, size: int)
    requires objSize > 0
  {
    exists k: nat :: size == Pow2(k) && if objSize <= Pow2(MAX_SLAB_ORDER) then Optimal(objSize, k) else k == MAX_SLAB_ORDER
  }

  lemma OptimalUnique(objSize: int, j: nat, k: nat)
    requires objSize > 0 && Optimal(objSize, j) && Optimal(objSize, k)
    ensures j == k
  {
  }

  /** A remainder is less than half of what is divided, if the divisor fits in it. */
  lemma RemainderHalf(a: int, m: int)
    requires 0 < m <= a
    ensures 2 * (a % m) < a && a / m >= 1
    ensures (a / m) * m == a - a % m
  {
    var q, r := a / m, a % m;
    assert a == q * m + r;
    if q <= 0 {
      MulMonotone(q, 0, m);
    } else {
      MulMonotone(1, q, m);
    }
  }

  /** The buddy allocator rounds the request for the slots to exactly the chosen size. */
  lemma SlotsFillChunk(objSize: int, k: nat)
    requires objSize > 0 && Candidate(objSize, k)
    ensures var n := Pow2(k) / objSize;
      n >= 1 && n * objSize <= Pow2(k) && BuddySpec.OrderOf(n * objSize) == k
      && (n * objSize == Pow2(k) <==> Pow2(k) % objSize == 0)
  {
    var size := Pow2(k);
    RemainderHalf(size, objSize);
    var request := (size / objSize) * objSize;
    BuddyTheorems.OrderIsLeast(request);
    var r := BuddySpec.OrderOf(request);
    if r < k {
      Pow2Monotone(k, r);
    }
  }

  // ---------------------------------------------------------------- chunks held

  /** Header, flag array and slot area of one slab (src/kSlab.cpp:4-16). */
  function SlabChunks(s: Slab, objSize: int): multiset<Chunk> {
    multiset{Chunk(s.addr, BuddySpec.OrderOf(SLAB_HEADER)), Chunk(s.flagsAddr, BuddySpec.OrderOf(|s.flags| * 4)),
             Chunk(s.slots, BuddySpec.OrderOf(|s.flags| * objSize))}
  }

  function ListChunks(l: seq<Slab>, objSize: int): multiset<Chunk> {
    if l == [] then multiset{} else SlabChunks(l[0], objSize) + ListChunks(l[1..], objSize)
  }

  function HeaderChunks(ds: seq<int>): multiset<Chunk> {
    if ds == [] then multiset{} else multiset{Chunk(ds[0], BuddySpec.OrderOf(SLAB_HEADER))} + HeaderChunks(ds[1..])
  }

  /** All chunks a cache holds besides the one of its own header. */
  function Chunks(c: Cache): multiset<Chunk> {
    ListChunks(c.full, c.objSize) + ListChunks(c.half, c.objSize) + ListChunks(c.empty, c.objSize)
      + HeaderChunks(c.discarded)
  }

  lemma {:induction false} ListCount(l: seq<Slab>, objSize: int)
    ensures |ListChunks(l, objSize)| == 3 * |l|
    decreases |l|
  {
    if l != [] {
      ListCount(l[1..], objSize);
    }
  }

  lemma {:induction false} HeaderCount(ds: seq<int>)
    ensures |HeaderChunks(ds)| == |ds|
    decreases |ds|
  {
    if ds != [] {
      HeaderCount(ds[1..]);
    }
  }

  /** Three chunks for every listed slab and one for every discarded one. */
  lemma ChunkCount(c: Cache)
    ensures |Chunks(c)| == 3 * |Slabs(c)| + |c.discarded|
  {
    ListCount(c.full, c.objSize);
    ListCount(c.half, c.objSize);
    ListCount(c.empty, c.objSize);
    HeaderCount(c.discarded);
  }

  lemma {:induction false} ListConcat(a: seq<Slab>, b: seq<Slab>, objSize: int)
    ensures ListChunks(a + b, objSize) == ListChunks(a, objSize) + ListChunks(b, objSize)
    decreases |a|
  {
    if a == [] {
      assert a + b == b;
    } else {
      assert (a + b)[1..] == a[1..] + b;
      ListConcat(a[1..], b, objSize);
    }
  }

  lemma {:induction false} HeaderConcat(a: seq<int>, b: seq<int>)
    ensures HeaderChunks(a + b) == HeaderChunks(a) + HeaderChunks(b)
    decreases |a|
  {
    if a == [] {
      assert a + b == b;
    } else {
      assert (a + b)[1..] == a[1..] + b;
      HeaderConcat(a[1..], b);
    }
  }

  lemma ListCons(s: Slab, l: seq<Slab>, objSize: int)
    ensures ListChunks([s] + l, objSize) == SlabChunks(s, objSize) + ListChunks(l, objSize)
  {
    assert ([s] + l)[1..] == l;
  }

  /** A slab keeps its chunks whatever its flags. */
  predicate SamePlace(s: Slab, t: Slab) {
    t.addr == s.addr && t.flagsAddr == s.flagsAddr && t.slots == s.slots && |t.flags| == |s.flags|
  }

  lemma ListRemove(l: seq<Slab>, i: nat, objSize: int)
    requires i < |l|
    ensures ListChunks(l, objSize) == SlabChunks(l[i], objSize) + ListChunks(RemoveAt(l, i), objSize)
  {
    assert l == l[..i] + ([l[i]] + l[i + 1..]);
    ListConcat(l[..i], [l[i]] + l[i + 1..], objSize);
    ListCons(l[i], l[i + 1..], objSize);
    ListConcat(l[..i], l[i + 1..], objSize);
  }

  lemma ListReplace(l: seq<Slab>, i: nat, t: Slab, objSize: int)
    requires i < |l| && SamePlace(l[i], t)
    ensures ListChunks(l[i := t], objSize) == ListChunks(l, objSize)
  {
    ListRemove(l, i, objSize);
    ListRemove(l[i := t], i, objSize);
    assert RemoveAt(l[i := t], i) == RemoveAt(l, i);
  }

  lemma FileChunks(c: Cache, t: Slab)
    ensures Chunks(File(c, t)) == Chunks(c) + SlabChunks(t, c.objSize)
  {
    ListCons(t, c.full, c.objSize);
    ListCons(t, c.half, c.objSize);
    hide ListChunks, SlabChunks, HeaderChunks, IsFull;
  }

  lemma TakeChunks(s: Slab, objSize: int)
    ensures SlabChunks(TakeSlot(s), objSize) == SlabChunks(s, objSize) && SamePlace(s, TakeSlot(s))
  {
  }

  lemma MoveChunks(c: Cache, t: Slab)
    ensures c.half != [] && SamePlace(c.half[0], t) ==>
              && Chunks(c.(half := c.half[1..], full := [t] + c.full)) == Chunks(c)
              && Chunks(c.(half := c.half[0 := t])) == Chunks(c)
    ensures c.empty != [] ==>
              Chunks(c.(empty := c.empty[1..])) + SlabChunks(c.empty[0], c.objSize) == Chunks(c)
  {
    hide ListChunks, SlabChunks, HeaderChunks;
    if c.half != [] && SamePlace(c.half[0], t) {
      ListReplace(c.half, 0, t, c.objSize);
      assert c.half == [c.half[0]] + c.half[1..];
      ListCons(c.half[0], c.half[1..], c.objSize);
      ListCons(t, c.full, c.objSize);
      SamePlaceChunks(c.half[0], t, c.objSize);
    }
    if c.empty != [] {
      assert c.empty == [c.empty[0]] + c.empty[1..];
      ListCons(c.empty[0], c.empty[1..], c.objSize);
    }
  }

  lemma SamePlaceChunks(s: Slab, t: Slab, objSize: int)
    requires SamePlace(s, t)
    ensures SlabChunks(t, objSize) == SlabChunks(s, objSize)
  {
  }

  /** alloc from the slabs at hand leaves the chunks alone. */
  lemma AllocChunks(c: Cache)
    requires HasRoom(c)
    ensures Chunks(AllocSpec(c)) == Chunks(c)
  {
    var t := TakeSlot(Source(c));
    TakeChunks(Source(c), c.objSize);
    AllocCases(c);
    MoveChunks(c, t);
    hide Chunks, SlabChunks, IsFull, TakeSlot, File, SamePlace, AllocSpec;
    if c.half == [] {
      FileChunks(c.(empty := c.empty[1..]), t);
    }
  }

  /** A new slab adds its three chunks. */
  lemma AdoptChunks(c: Cache, s: Slab)
    ensures Chunks(AdoptSpec(c, s)) == Chunks(c) + SlabChunks(s, c.objSize)
  {
    FileChunks(c, TakeSlot(s));
    assert SlabChunks(TakeSlot(s), c.objSize) == SlabChunks(s, c.objSize);
  }

  /** Flag array and slot area of the slabs shrink takes apart. */
  function BodyChunks(l: seq<Slab>, objSize: int): multiset<Chunk> {
    if l == [] then multiset{}
    else multiset{Chunk(l[0].flagsAddr, BuddySpec.OrderOf(|l[0].flags| * 4)), Chunk(l[0].slots, BuddySpec.OrderOf(|l[0].flags| * objSize))}
         + BodyChunks(l[1..], objSize)
  }

  lemma {:induction false} BodyAndHeader(l: seq<Slab>, objSize: int)
    ensures ListChunks(l, objSize) == BodyChunks(l, objSize) + HeaderChunks(Headers(l))
    decreases |l|
  {
    if l != [] {
      BodyAndHeader(l[1..], objSize);
      assert Headers(l)[1..] == Headers(l[1..]);
    }
  }

  /** shrink gives back two chunks a slab and keeps the headers. */
  lemma ShrinkChunks(c: Cache)
    ensures Chunks(ShrinkSpec(c)) + BodyChunks(Surplus(c), c.objSize) == Chunks(c)
  {
    if |c.empty| > 1 {
      assert c.empty == c.empty[..1] + c.empty[1..];
      ListConcat(c.empty[..1], c.empty[1..], c.objSize);
      BodyAndHeader(c.empty[1..], c.objSize);
      HeaderConcat(c.discarded, Headers(c.empty[1..]));
    }
    hide ListChunks, BodyChunks, HeaderChunks;
  }

  lemma FullChunks(c: Cache, k: nat, t: Slab)
    requires k < |c.full| && SamePlace(c.full[k], t)
    ensures var c1 := c.(full := RemoveAt(c.full, k));
      Chunks(c1.(empty := [t] + c1.empty)) == Chunks(c) && Chunks(c1.(half := [t] + c1.half)) == Chunks(c)
  {
    ListRemove(c.full, k, c.objSize);
    ListCons(t, c.empty, c.objSize);
    ListCons(t, c.half, c.objSize);
    assert SlabChunks(t, c.objSize) == SlabChunks(c.full[k], c.objSize);
    hide ListChunks, SlabChunks, HeaderChunks, RemoveAt;
  }

  lemma HalfChunks(c: Cache, k: nat, t: Slab)
    requires k < |c.half| && SamePlace(c.half[k], t)
    ensures Chunks(c.(half := RemoveAt(c.half, k), empty := [t] + c.empty)) == Chunks(c)
    ensures Chunks(c.(half := c.half[k := t])) == Chunks(c)
  {
    ListRemove(c.half, k, c.objSize);
    ListReplace(c.half, k, t, c.objSize);
    ListCons(t, c.empty, c.objSize);
    assert SlabChunks(t, c.objSize) == SlabChunks(c.half[k], c.objSize);
    hide ListChunks, SlabChunks, HeaderChunks, RemoveAt;
  }
}
