/** Aligned power-of-two blocks of the buddy arena, buddies, and tilings of the arena. */
module Blocks {
  import opened PowersOfTwo

  /** Smallest block: one page (src/kbuddyAllocator.cpp:14). */
  const MIN_ORDER: nat := 12

  /** maxPow of h/kbuddyAllocator.hpp:18. */
  const MAX_ORDER: nat := 24

  /** Bytes managed: offsets 0 .. 2^24 from HEAP_START_ADDR. */
  const ARENA: int := 0x100_0000

  lemma ArenaSize()
    ensures ARENA == Pow2(MAX_ORDER)
  {
    Pow2Sum(12, 12);
    assert Pow2(12) == 4096;
  }

  /** The bytes off .. off + 2^ord, as an offset from HEAP_START_ADDR. */
  datatype Chunk = Chunk(off: int, ord: nat)

  function End(c: Chunk): int {
    c.off + Pow2(c.ord)
  }

  predicate Block(c: Chunk) {
    && MIN_ORDER <= c.ord <= MAX_ORDER
    && 0 <= c.off
    && Aligned(c.off, c.ord)
    && End(c) <= ARENA
  }

  predicate Covers(c: Chunk, p: int) {
    c.off <= p < End(c)
  }

  predicate Apart(c: Chunk, d: Chunk) {
    End(c) <= d.off || End(d) <= c.off
  }

  predicate Within(c: Chunk, d: Chunk) {
    d.off <= c.off && End(c) <= End(d)
  }

  ghost predicate PairwiseApart(s: set<Chunk>) {
    forall c, d :: c in s && d in s && c != d ==> Apart(c, d)
  }

  ghost predicate Covered(s: set<Chunk>, p: int) {
    exists c :: c in s && Covers(c, p)
  }

  ghost predicate CoversArena(s: set<Chunk>) {
    forall p :: 0 <= p < ARENA ==> Covered(s, p)
  }

  /** The set cuts the arena into pairwise disjoint aligned blocks with no byte left over. */
  ghost predicate Tiles(s: set<Chunk>) {
    (forall c :: c in s ==> Block(c)) && PairwiseApart(s) && CoversArena(s)
  }

  function Low(c: Chunk): Chunk
    requires c.ord > 0
  {
    Chunk(c.off, c.ord - 1)
  }

  function High(c: Chunk): Chunk
    requires c.ord > 0
  {
    Chunk(c.off + Pow2(c.ord - 1), c.ord - 1)
  }

  /** segy of src/kbuddyAllocator.cpp:64-69. */
  function Buddy(c: Chunk): Chunk {
    if Aligned(c.off, c.ord + 1) then Chunk(c.off + Pow2(c.ord), c.ord)
    else Chunk(c.off - Pow2(c.ord), c.ord)
  }

  /** The block the merge of src/kbuddyAllocator.cpp:79 goes on with. */
  function Parent(c: Chunk): Chunk {
    Chunk(if c.off < Buddy(c).off then c.off else Buddy(c).off, c.ord + 1)
  }

  lemma AlignedZero(k: nat)
    ensures Aligned(0, k)
  {
  }

  /** The bytes at an aligned offset inside the arena end inside the arena. */
  lemma AlignedFits(off: int, ord: nat)
    requires ord <= MAX_ORDER && Aligned(off, ord) && 0 <= off < ARENA
    ensures off + Pow2(ord) <= ARENA
  {
    ArenaSize();
    Pow2Aligned(MAX_ORDER, ord);
    AlignedApart(off, ARENA, ord);
  }

  lemma HalvesAligned(off: int, ord: nat)
    requires ord > 0 && Aligned(off, ord)
    ensures Aligned(off, ord - 1) && Aligned(off + Pow2(ord - 1), ord - 1)
    ensures !Aligned(off + Pow2(ord - 1), ord)
  {
    AlignedDown(off, ord, ord - 1);
    Pow2Aligned(ord - 1, ord - 1);
    AlignedSum(off, Pow2(ord - 1), ord - 1);
    AlignedAlternates(off, ord - 1);
  }

  /** The two halves of a block are blocks, and each other's buddies. */
  lemma HalvesAreBuddies(c: Chunk)
    requires Block(c) && c.ord > MIN_ORDER
    ensures Block(Low(c)) && Block(High(c)) && Buddy(Low(c)) == High(c) && Buddy(High(c)) == Low(c)
    ensures Parent(Low(c)) == c && Parent(High(c)) == c
  {
    HalvesAligned(c.off, c.ord);
  }

  /** Every block below the top order is a half of a block. */
  lemma ParentIsBlock(c: Chunk) returns (p: Chunk)
    requires Block(c) && c.ord < MAX_ORDER
    ensures Block(p) && p.ord == c.ord + 1 && (c == Low(p) || c == High(p))
  {
    p := Chunk(if Aligned(c.off, c.ord + 1) then c.off else c.off - Pow2(c.ord), c.ord + 1);
    if p.off != c.off {
      AlignedAlternates(c.off, c.ord);
      AlignedZero(c.ord + 1);
      AlignedZero(c.ord);
      AlignedApart(0, c.off, c.ord);
    }
    AlignedFits(p.off, p.ord);
  }

  /** Two buddies are the two halves of their parent, and buddy is an involution. */
  lemma BuddyHalves(c: Chunk)
    requires Block(c) && c.ord < MAX_ORDER
    ensures Block(Buddy(c)) && Block(Parent(c)) && Buddy(Buddy(c)) == c && Buddy(c) != c
    ensures Parent(Buddy(c)) == Parent(c)
    ensures (c == Low(Parent(c)) && Buddy(c) == High(Parent(c)))
         || (c == High(Parent(c)) && Buddy(c) == Low(Parent(c)))
  {
    var p := ParentIsBlock(c);
    HalvesAreBuddies(p);
  }

  /** Aligned blocks are laminar: overlapping ones are nested. */
  lemma Nested(c: Chunk, d: Chunk)
    requires Block(c) && Block(d) && c.ord <= d.ord && !Apart(c, d)
    ensures Within(c, d)
    ensures c.ord == d.ord ==> c == d
  {
    AlignedDown(d.off, d.ord, c.ord);
    Pow2Aligned(d.ord, c.ord);
    AlignedSum(d.off, Pow2(d.ord), c.ord);
    AlignedApart(c.off, End(d), c.ord);
    if c.off < d.off {
      AlignedApart(c.off, d.off, c.ord);
    }
  }

  /** A block and its two halves cover the same bytes. */
  lemma HalvesApart(c: Chunk, d: Chunk)
    requires c.ord > 0
    ensures Apart(c, d) <==> Apart(Low(c), d) && Apart(High(c), d)
    ensures Apart(d, c) <==> Apart(d, Low(c)) && Apart(d, High(c))
  {
  }

  lemma SplitApart(s: set<Chunk>, c: Chunk)
    requires PairwiseApart(s) && c in s && c.ord > 0
    ensures PairwiseApart(s - {c} + {Low(c), High(c)})
    ensures Low(c) !in s && High(c) !in s
  {
    forall d | d in s && d != c
      ensures Apart(Low(c), d) && Apart(High(c), d) && Apart(d, Low(c)) && Apart(d, High(c))
    {
      HalvesApart(c, d);
    }
  }

  lemma SplitCovers(s: set<Chunk>, c: Chunk)
    requires CoversArena(s) && c in s && c.ord > 0
    ensures CoversArena(s - {c} + {Low(c), High(c)})
  {
    var t := s - {c} + {Low(c), High(c)};
    forall p | 0 <= p < ARENA
      ensures Covered(t, p)
    {
      assert Covered(s, p);
      var d :| d in s && Covers(d, p);
      var e := if d != c then d else if Covers(Low(c), p) then Low(c) else High(c);
      assert e in t && Covers(e, p);
    }
  }

  /** Splitting a tile keeps the tiling. */
  lemma SplitTiles(s: set<Chunk>, c: Chunk)
    requires Tiles(s) && c in s && c.ord > MIN_ORDER
    ensures Tiles(s - {c} + {Low(c), High(c)})
    ensures Low(c) !in s && High(c) !in s
  {
    HalvesAreBuddies(c);
    SplitApart(s, c);
    SplitCovers(s, c);
  }

  lemma JoinApart(s: set<Chunk>, c: Chunk)
    requires PairwiseApart(s) && c.ord > 0 && Low(c) in s && High(c) in s
    ensures PairwiseApart(s - {Low(c), High(c)} + {c})
    ensures c !in s
  {
    forall d | d in s - {Low(c), High(c)}
      ensures Apart(c, d) && Apart(d, c)
    {
      HalvesApart(c, d);
    }
    assert !Apart(c, Low(c)) && c != Low(c);
  }

  lemma JoinCovers(s: set<Chunk>, c: Chunk)
    requires CoversArena(s) && c.ord > 0
    ensures CoversArena(s - {Low(c), High(c)} + {c})
  {
    var t := s - {Low(c), High(c)} + {c};
    forall p | 0 <= p < ARENA
      ensures Covered(t, p)
    {
      assert Covered(s, p);
      var d :| d in s && Covers(d, p);
      var e := if d == Low(c) || d == High(c) then c else d;
      assert e in t && Covers(e, p);
    }
  }

  /** Joining two buddies keeps the tiling. */
  lemma JoinTiles(s: set<Chunk>, c: Chunk)
    requires Tiles(s) && Block(c) && c.ord > MIN_ORDER && Low(c) in s && High(c) in s
    ensures Tiles(s - {Low(c), High(c)} + {c})
    ensures c !in s
  {
    JoinApart(s, c);
    JoinCovers(s, c);
  }
}
