/** src/kCache.cpp: a cache keeps its slabs on three lists by occupancy. */
module CacheAllocation {
  import opened Wrappers
  import opened PowersOfTwo
  import opened Blocks
  import BuddySpec
  import Arena = BuddyTheorems
  import opened BuddyAllocation
  import opened SlabSpec
  import opened SlabTheorems
  import opened SlabPages
  import opened SlabSystem
  import opened SlabAllocation
  import opened SlabServes
  import SlabRuns

  ghost function Vals(l: seq<KSlab>): (v: seq<Slab>)
    reads set s | s in l :: s.freeSlots
    ensures |v| == |l| && forall i :: 0 <= i < |l| ==> v[i] == l[i].Val()
  {
    if l == [] then [] else [l[0].Val()] + Vals(l[1..])
  }

  /** The slabs are in order, and no two share a flag array. */
  ghost predicate Sound(slabs: set<KSlab>, objSize: int)
    reads slabs, set s | s in slabs :: s.freeSlots
  {
    && (forall s :: s in slabs ==> s.Valid() && s.slotSize == objSize)
    && (forall s, t :: s in slabs && t in slabs && s.freeSlots == t.freeSlots ==> s == t)
  }

  ghost predicate Differ(v: seq<Slab>) {
    forall i, j :: 0 <= i < j < |v| ==> v[i] != v[j]
  }

  class KCache {
    const buddy: BuddyAllocator
    /** Offset of the header in the arena. */
    const addr: int
    const objSize: int
    var fullSlabs: seq<KSlab>
    var halfFullSlabs: seq<KSlab>
    var emptySlabs: seq<KSlab>
    /** Headers of the slabs shrink has taken apart. */
    ghost var discarded: seq<int>
    /** Slot areas have 2^order bytes. */
    ghost const order: nat

    ghost function State(): Cache
      reads this, Flags()
    {
      Cache(objSize, Vals(fullSlabs), Vals(halfFullSlabs), Vals(emptySlabs), discarded)
    }

    ghost function Current(): Sys
      reads this, Flags(), buddy
    {
      Sys(Mem(buddy), State())
    }

    ghost function Footprint(): set<KSlab>
      reads this
    {
      Elems(fullSlabs) + Elems(halfFullSlabs) + Elems(emptySlabs)
    }

    ghost function Flags(): set<array<bool>>
      reads this
    {
      set s | s in Footprint() :: s.freeSlots
    }

    ghost predicate Listed()
      reads this, Footprint(), Flags()
    {
      Sound(Footprint(), objSize)
    }

    ghost predicate Valid()
      reads this, Footprint(), Flags(), buddy, buddy.freeChunks, buddy.memory
    {
      buddy.Valid() && Listed() && SysOk(Current(), order)
    }

    constructor (buddy: BuddyAllocator, addr: int, objSize: int, ghost order: nat)
      ensures this.buddy == buddy && this.addr == addr && this.objSize == objSize && this.order == order
      ensures fullSlabs == halfFullSlabs == emptySlabs == [] && discarded == []
    {
      this.buddy, this.addr, this.objSize, this.order := buddy, addr, objSize, order;
      fullSlabs, halfFullSlabs, emptySlabs, discarded := [], [], [], [];
    }

    /** The power of two from 2^12 to 2^18 that wastes the least of a slab, the smallest on a tie. An object larger
        than 2^18 gets 2^18, which holds no slot of it. */
    static method FindOptimalSlabSize(objSize: int) returns (size: int)
      requires objSize > 0
      ensures OptimalSize(objSize, size)
    {
      hide Pow2, Waste;
      var optimal: nat := 18;
      WasteIs(objSize, 18);
      var minFrag := Pow2(18) % objSize;
      var i: nat, tmp: int := 12, Pow2(12);
      while i <= 18
        invariant 12 <= i <= 19 && tmp == Pow2(i)
        invariant 12 <= optimal <= 18 && minFrag == Waste(objSize, optimal)
        invariant optimal != 18 ==> Candidate(objSize, optimal)
        invariant forall j :: 12 <= j < i && Candidate(objSize, j) ==>
                    minFrag <= Waste(objSize, j) && (Waste(objSize, j) == minFrag ==> optimal <= j)
        invariant minFrag <= Waste(objSize, 18)
      {
        if tmp >= objSize {
          WasteIs(objSize, i);
          if tmp % objSize < minFrag || (tmp % objSize == minFrag && i < optimal) {
            minFrag := tmp % objSize;
            optimal := i;
          }
        }
        Pow2Double(i);
        i, tmp := i + 1, tmp * 2;
      }
      Pow2Monotone(18, optimal);
      return Pow2(optimal);
    }

    ghost function All(): seq<KSlab>
      reads this
    {
      fullSlabs + halfFullSlabs + emptySlabs
    }

    lemma AllVals(i: nat)
      requires i < |All()|
      ensures All()[i] in Footprint() && |Slabs(State())| == |All()| && Slabs(State())[i] == All()[i].Val()
    {
    }

    /** Two places in the lists hold different slabs. */
    lemma OnceListed(i: nat, j: nat)
      requires Listed() && Differ(Slabs(State())) && i < |All()| && j < |All()| && i != j
      ensures All()[i] != All()[j] && All()[i].freeSlots != All()[j].freeSlots
    {
      hide Slabs;
      AllVals(i);
      AllVals(j);
      if i < j {
        assert Slabs(State())[i] != Slabs(State())[j];
      } else {
        assert Slabs(State())[j] != Slabs(State())[i];
      }
    }

    /** The slab at a place in one list is at no other place. */
    lemma Elsewhere(i: nat)
      requires Listed() && Differ(Slabs(State()))
      ensures i < |fullSlabs| ==> var s := fullSlabs[i];
                s !in fullSlabs[..i] && s !in fullSlabs[i + 1..] && s !in halfFullSlabs && s !in emptySlabs
      ensures i < |halfFullSlabs| ==> var s := halfFullSlabs[i];
                s !in fullSlabs && s !in halfFullSlabs[..i] && s !in halfFullSlabs[i + 1..] && s !in emptySlabs
      ensures i < |emptySlabs| ==> var s := emptySlabs[i];
                s !in fullSlabs && s !in halfFullSlabs && s !in emptySlabs[..i] && s !in emptySlabs[i + 1..]
    {
      var all := All();
      hide Slabs, Sound, Vals;
      forall a, b | 0 <= a < |all| && 0 <= b < |all| && a != b
        ensures all[a] != all[b]
      {
        OnceListed(a, b);
      }
      Spread(fullSlabs, halfFullSlabs, emptySlabs);
    }

    method TakeAlone(s: KSlab) returns (ret: Option<int>)
      requires Sound(Footprint() + {s}, objSize)
      modifies s, s.freeSlots
      ensures Sound(Footprint() + {s}, objSize) && s.Val() == TakeSlot(old(s.Val())) && (s.Full() <==> IsFull(s.Val()))
      ensures forall t :: t in Footprint() && t != s ==> t.Val() == old(t.Val())
      ensures ret == if IsFull(old(s.Val())) then None else Some(AllocObject(old(s.Val()), objSize))
    {
      ret := s.Alloc();
      s.Occupancy();
    }

    /** A slab gives out a slot; the others stay as they are. */
    method TakeFrom(s: KSlab) returns (ret: Option<int>)
      requires Sound(Footprint() + {s}, objSize)
      modifies s, s.freeSlots
      ensures Sound(Footprint() + {s}, objSize) && s.Val() == TakeSlot(old(s.Val())) && (s.Full() <==> IsFull(s.Val()))
      ensures ListUpdated(fullSlabs, old(Vals(fullSlabs)), s)
      ensures ListUpdated(halfFullSlabs, old(Vals(halfFullSlabs)), s)
      ensures ListUpdated(emptySlabs, old(Vals(emptySlabs)), s)
      ensures ret == if IsFull(old(s.Val())) then None else Some(AllocObject(old(s.Val()), objSize))
    {
      ghost var v := State();
      hide TakeSlot, AllocObject, ListUpdated, Sound, IsFull;
      ret := TakeAlone(s);
      ListAfter(fullSlabs, v.full, s);
      ListAfter(halfFullSlabs, v.half, s);
      ListAfter(emptySlabs, v.empty, s);
    }

    /** alloc with a half-full slab at hand. */
    method AllocFromHalf() returns (ret: Option<int>)
      requires Listed() && Differ(Slabs(State())) && halfFullSlabs != [] && !IsFull(Source(State()))
      modifies this`fullSlabs, this`halfFullSlabs, halfFullSlabs[0], halfFullSlabs[0].freeSlots
      ensures Listed() && Footprint() == old(Footprint())
      ensures State() == AllocSpec(old(State()))
      ensures ret == Some(AllocObject(Source(old(State())), objSize))
    {
      hide Slabs, Sound, Vals, TakeSlot, IsFull, AllocObject, Elems;
      ghost var slabs := Footprint();
      Elsewhere(0);
      ElemsHead(halfFullSlabs);
      var s := halfFullSlabs[0];
      assert slabs + {s} == slabs;
      ret := TakeFrom(s);
      if s.Full() {
        UnlistHalf(0);
        assert Footprint() + {s} == slabs;
        PushFull(s);
      }
    }

    /** Takes a slab off the list of half-full ones. */
    method UnlistHalf(i: nat)
      requires i < |halfFullSlabs| && Listed()
      modifies this`halfFullSlabs
      ensures Footprint() + {old(halfFullSlabs[i])} == old(Footprint()) && Sound(old(Footprint()), objSize)
      ensures State() == old(State()).(half := old(State()).half[..i] + old(State()).half[i + 1..])
      ensures i == 0 ==> State() == old(State()).(half := old(State()).half[1..])
    {
      hide Vals, Elems, Sound;
      ghost var slabs, s := Footprint(), halfFullSlabs[i];
      ElemsAt(halfFullSlabs, i);
      halfFullSlabs := halfFullSlabs[..i] + halfFullSlabs[i + 1..];
      assert Footprint() + {s} == slabs;
    }

    method PushFull(s: KSlab)
      requires Sound(Footprint() + {s}, objSize)
      modifies this`fullSlabs
      ensures Listed() && Footprint() == old(Footprint()) + {s}
      ensures State() == old(State()).(full := [s.Val()] + old(State()).full)
    {
      hide Sound, Vals, Elems;
      ghost var slabs := Footprint();
      ElemsCons(s, fullSlabs);
      ValsCons(s, fullSlabs);
      fullSlabs := [s] + fullSlabs;
      assert Footprint() == slabs + {s};
    }

    /** Puts a slab that has just given out a slot on the list its occupancy asks for. */
    method FileSlab(s: KSlab)
      requires Sound(Footprint() + {s}, objSize) && (s.Full() <==> IsFull(s.Val()))
      modifies this`fullSlabs, this`halfFullSlabs
      ensures Listed() && Footprint() == old(Footprint()) + {s}
      ensures State() == File(old(State()), s.Val())
    {
      hide Sound, Vals, IsFull, Elems;
      ghost var slabs := Footprint();
      ElemsCons(s, fullSlabs);
      ElemsCons(s, halfFullSlabs);
      ValsCons(s, halfFullSlabs);
      ValsCons(s, fullSlabs);
      if !s.Full() {
        halfFullSlabs := [s] + halfFullSlabs;
      } else {
        fullSlabs := [s] + fullSlabs;
      }
      assert Footprint() == slabs + {s};
    }

    /** alloc with only an empty slab at hand. */
    method AllocFromEmpty() returns (ret: Option<int>)
      requires Listed() && Differ(Slabs(State())) && halfFullSlabs == [] && emptySlabs != [] && !IsFull(Source(State()))
      modifies this, emptySlabs[0], emptySlabs[0].freeSlots
      ensures Listed() && Footprint() == old(Footprint())
      ensures State() == AllocSpec(old(State()))
      ensures ret == Some(AllocObject(Source(old(State())), objSize))
    {
      hide Slabs, Sound, Vals, TakeSlot, IsFull, AllocObject, Elems, File;
      ghost var slabs := Footprint();
      Elsewhere(0);
      ElemsHead(emptySlabs);
      var s := emptySlabs[0];
      ghost var v := State();
      assert slabs + {s} == slabs;
      ret := TakeFrom(s);
      emptySlabs := emptySlabs[1..];
      assert State() == v.(empty := v.empty[1..]);
      assert Footprint() + {s} == slabs;
      FileSlab(s);
    }

    /** alloc with a slab made for the purpose. */
    method AllocFromNew(s: KSlab) returns (ret: Option<int>)
      requires Listed() && s !in Footprint() && s.freeSlots !in Flags() && s.Valid() && s.slotSize == objSize
      requires !IsFull(s.Val())
      modifies this, s, s.freeSlots
      ensures Listed() && Footprint() == old(Footprint()) + {s}
      ensures State() == AdoptSpec(old(State()), old(s.Val()))
      ensures ret == Some(AllocObject(old(s.Val()), objSize))
    {
      NewAlone(s);
      hide Sound, Vals, TakeSlot, IsFull, AllocObject, Elems, File;
      ghost var v := State();
      ret := TakeFrom(s);
      assert State() == v;
      FileSlab(s);
    }

    lemma NewAlone(s: KSlab)
      requires Listed() && s !in Footprint() && s.freeSlots !in Flags() && s.Valid() && s.slotSize == objSize
      ensures Sound(Footprint() + {s}, objSize)
      ensures s !in fullSlabs && s !in halfFullSlabs && s !in emptySlabs
    {
      assert forall t :: t in Footprint() ==> t.freeSlots in Flags();
    }

    lemma HeadsListed()
      ensures halfFullSlabs != [] ==> halfFullSlabs[0] in Footprint() && halfFullSlabs[0].freeSlots in Flags()
      ensures emptySlabs != [] ==> emptySlabs[0] in Footprint() && emptySlabs[0].freeSlots in Flags()
    {
    }

    lemma SystemFacts()
      requires Valid()
      ensures Ready(buddy) && objSize > 0 && Optimal(objSize, order) && Differ(Slabs(State())) && |emptySlabs| <= 1
      ensures Chunks(State()) <= multiset(buddy.live)
      ensures HasRoom(State()) ==> !IsFull(Source(State()))
      ensures SlotsFor(objSize, order) > 0 && objSize <= Pow2(MAX_SLAB_ORDER)
    {
      var n, size := SlotsFor(objSize, order), Pow2(order);
      PooledDiffer(State(), n, size);
      Pow2Monotone(MAX_SLAB_ORDER, order);
      if HasRoom(State()) {
        SourceKind(State(), n, size);
      }
    }

    method AllocListed() returns (ret: Option<int>)
      requires Listed() && Differ(Slabs(State())) && HasRoom(State()) && !IsFull(Source(State()))
      modifies this, Footprint(), Flags()
      ensures Listed() && Footprint() == old(Footprint())
      ensures State() == AllocSpec(old(State())) && ret == Some(AllocObject(Source(old(State())), objSize))
    {
      hide Slabs, Sound, Vals, IsFull, TakeSlot, AllocSpec, AllocObject, Elems;
      HeadsListed();
      if halfFullSlabs != [] {
        ret := AllocFromHalf();
      } else {
        ret := AllocFromEmpty();
      }
    }

    method OptimalSlots() returns (n: nat)
      requires objSize > 0 && Optimal(objSize, order) && objSize <= Pow2(MAX_SLAB_ORDER)
      ensures n == SlotsFor(objSize, order)
    {
      var size := FindOptimalSlabSize(objSize);
      ghost var k: nat :| size == Pow2(k) && Optimal(objSize, k);
      OptimalUnique(objSize, k, order);
      SlotsAre(objSize, order);
      hide Pow2, Optimal, SlotsFor;
      n := size / objSize;
    }

    /** kSlab::createSlab(objSize, findOptimalSlabSize(objSize) / objSize); no listed slab changes. */
    method MakeSlab() returns (s: KSlab?)
      requires Listed() && Ready(buddy) && objSize > 0 && Optimal(objSize, order) && objSize <= Pow2(MAX_SLAB_ORDER)
      modifies buddy, buddy.freeChunks, buddy.memory
      ensures Listed() && Ready(buddy) && State() == old(State())
      ensures var (r, m) := CreateSlab(old(Mem(buddy)), objSize, SlotsFor(objSize, order));
        Mem(buddy) == m && (s == null <==> r.None?) && (s != null ==> r == Some(s.Val()))
      ensures s == null ==> Mem(buddy) == old(Mem(buddy))
      ensures s != null ==> fresh(s) && fresh(s.freeSlots) && s.Valid() && s.slotSize == objSize
      ensures s != null ==> s !in Footprint() && s.freeSlots !in Flags()
      ensures s != null && SlotsFor(objSize, order) > 0 ==> !IsFull(s.Val())
    {
      hide IsFull, Elems, Arena.Inv, Optimal, SlotsFor, Pow2, CreateSlab, Sound, Vals, Ready, Mem;
      NewFlags();
      OldSlabs();
      var n := OptimalSlots();
      ghost var slabs := Footprint();
      s := KSlab.CreateSlab(buddy, objSize, n);
      assert Footprint() == slabs;
      assert Sound(slabs, objSize);
    }

    method AllocNew() returns (ret: Option<int>)
      requires Listed() && Ready(buddy) && objSize > 0 && Optimal(objSize, order) && objSize <= Pow2(MAX_SLAB_ORDER)
      requires SlotsFor(objSize, order) > 0 && !HasRoom(State())
      modifies this, buddy, buddy.freeChunks, buddy.memory
      ensures Listed() && Ready(buddy) && fresh(Footprint() - old(Footprint())) && fresh(Flags() - old(Flags()))
      ensures (ret, Current()) == AllocOne(old(Current()), SlotsFor(objSize, order))
    {
      hide Sound, Vals, IsFull, AdoptSpec, AllocObject, Elems, Arena.Inv, CreateSlab, Optimal, SlotsFor, Pow2;
      ghost var slabs := Footprint();
      var s := MakeSlab();
      if s == null {
        return None;
      }
      ret := AllocFromNew(s);
      assert Footprint() == slabs + {s};
      FlagsOf(slabs, s);
    }

    lemma OldSlabs()
      ensures forall t :: t in Footprint() ==> allocated(t) && allocated(t.freeSlots)
      ensures forall f :: f in Flags() ==> allocated(f)
    {
    }

    lemma NewFlags()
      requires Ready(buddy) && objSize > 0
      ensures var (r, m) := CreateSlab(Mem(buddy), objSize, SlotsFor(objSize, order));
        (r.None? ==> m == Mem(buddy)) && (r.Some? && SlotsFor(objSize, order) > 0 ==> !IsFull(r.value))
    {
      CreateSlabKeeps(Mem(buddy), objSize, SlotsFor(objSize, order));
      var (r, m) := CreateSlab(Mem(buddy), objSize, SlotsFor(objSize, order));
      if r.Some? && SlotsFor(objSize, order) > 0 {
        NewNotFull(r.value);
      }
    }

    lemma FlagsOf(slabs: set<KSlab>, s: KSlab)
      requires Footprint() == slabs + {s}
      ensures Flags() == (set t | t in slabs :: t.freeSlots) + {s.freeSlots}
    {
    }

    lemma InList()
      requires Valid()
      ensures Listed() && buddy.Valid()
    {
    }

    /** A slot of a half-full slab if there is one, else of the empty slab, else of a new slab. Fails exactly when every
        slot is in use and no slab can be made; asks the buddy allocator for nothing while a slot is free. */
    method Alloc() returns (ret: Option<int>)
      requires Valid()
      modifies this, buddy, buddy.freeChunks, buddy.memory, Footprint(), Flags()
      ensures Valid() && fresh(Footprint() - old(Footprint())) && fresh(Flags() - old(Flags()))
      ensures (ret, Current()) == AllocOne(old(Current()), SlotsFor(objSize, order))
      ensures ret.None? <==> NoFreeSlot(old(State())) && !RoomForSlab(old(Mem(buddy)), objSize, SlotsFor(objSize, order))
      ensures !NoFreeSlot(old(State())) ==> Mem(buddy) == old(Mem(buddy))
    {
      hide Slabs, Sound, Vals, IsFull, AllocSpec, AllocObject, Elems, SysOk, Arena.Inv, Optimal, SlotsFor, CreateSlab, Chunks,
           Differ, AdoptSpec, Live, Source, Pow2, NoFreeSlot, RoomForSlab;
      SystemFacts();
      AllocOneKeeps(Current(), order);
      AllocOneExactly(Current(), order);
      if |halfFullSlabs| > 0 || |emptySlabs| > 0 {
        ret := AllocListed();
      } else {
        ret := AllocNew();
      }
    }

    // -------------------------------------------------------------- shrink

    /** Takes apart all empty slabs but the first. */
    method Shrink()
      requires Listed() && Ready(buddy) && Chunks(State()) <= multiset(buddy.live)
      modifies this`emptySlabs, this`discarded, buddy, buddy.freeChunks, buddy.memory
      ensures Listed() && Ready(buddy) && Current() == ShrinkSys(old(Current()))
      ensures Footprint() <= old(Footprint())
    {
      hide Sound, Vals, Elems, Arena.Inv, Chunks, ShrinkSys, ShrinkOnce, DropSlab;
      ghost var s0, slabs := Current(), Footprint();
      while |emptySlabs| > 1
        invariant Listed() && Ready(buddy) && Footprint() <= slabs
        invariant Chunks(State()) <= multiset(buddy.live)
        invariant ShrinkSys(Current()) == ShrinkSys(s0)
      {
        ShrinkTurnOf();
      }
      ShrunkAlready(Current());
    }

    method ShrinkTurnOf()
      requires Listed() && Ready(buddy) && Chunks(State()) <= multiset(buddy.live) && |emptySlabs| > 1
      modifies this`emptySlabs, this`discarded, buddy, buddy.freeChunks, buddy.memory
      ensures Listed() && Ready(buddy) && Footprint() <= old(Footprint()) && |emptySlabs| == old(|emptySlabs|) - 1
      ensures Current() == ShrinkOnce(old(Current()))
      ensures ShrinkSys(Current()) == ShrinkSys(old(Current())) && Chunks(State()) <= multiset(buddy.live)
    {
      hide Vals, Elems, Arena.Inv, Chunks, ShrinkSys, DropSlab, Sound, SlabBody;
      TurnRefines(Current());
      TurnKeeps(Current());
      var tmp := UnlistSecond();
      TakeApart(tmp);
      Discard(tmp);
    }

    ghost method Discard(tmp: KSlab)
      requires Listed()
      modifies this`discarded
      ensures Listed() && Footprint() == old(Footprint())
      ensures State() == old(State()).(discarded := old(discarded) + [tmp.addr])
    {
      hide Vals, Elems, Sound;
      ghost var slabs := Footprint();
      discarded := discarded + [tmp.addr];
      assert Footprint() == slabs;
    }

    /** destroySlab of a slab; the listed ones do not change. */
    method TakeApart(tmp: KSlab)
      requires Listed() && Ready(buddy) && tmp.Valid() && tmp.slotSize == objSize
      requires SlabBody(tmp.Val(), objSize) <= multiset(buddy.live)
      modifies buddy, buddy.freeChunks, buddy.memory
      ensures Listed() && Ready(buddy) && State() == old(State()) && tmp.Valid() && tmp.Val() == old(tmp.Val())
      ensures Mem(buddy) == DropSlab(old(Mem(buddy)), tmp.Val(), objSize)
    {
      hide Vals, Elems, Arena.Inv, DropSlab, Sound, SlabBody;
      OldSlabs();
      ghost var slabs := Footprint();
      tmp.DestroySlab(buddy);
      assert Footprint() == slabs;
      assert Sound(slabs, objSize);
    }

    method UnlistSecond() returns (tmp: KSlab)
      requires Listed() && |emptySlabs| > 1
      modifies this`emptySlabs
      ensures Listed() && Footprint() <= old(Footprint()) && |emptySlabs| == old(|emptySlabs|) - 1
      ensures tmp.Valid() && tmp.slotSize == objSize && tmp.Val() == old(State()).empty[1]
      ensures var v := old(State()); State() == v.(empty := [v.empty[0]] + v.empty[2..])
    {
      hide Vals, Elems, Sound;
      SecondEmpty();
      ghost var l, slabs := emptySlabs, Footprint();
      tmp := emptySlabs[1];
      emptySlabs := [emptySlabs[0]] + emptySlabs[2..];
      DropValue(l);
      SubSound(slabs);
    }

    lemma SecondEmpty()
      requires Listed() && |emptySlabs| > 1
      ensures emptySlabs[1].Valid() && emptySlabs[1].slotSize == objSize && emptySlabs[1] in Footprint()
      ensures Elems([emptySlabs[0]] + emptySlabs[2..]) <= Elems(emptySlabs)
    {
    }

    lemma SubSound(slabs: set<KSlab>)
      requires Sound(slabs, objSize) && Footprint() <= slabs
      ensures Listed()
    {
    }

    // -------------------------------------------------------------- free

    method GiveAlone(s: KSlab, ptr: int) returns (status: int)
      requires Sound(Footprint() + {s}, objSize) && IsHere(s.Val(), objSize, ptr) && !EndsAt(s.Val(), objSize, ptr)
      modifies s, s.freeSlots
      ensures Sound(Footprint() + {s}, objSize) && s.Val() == Freed(old(s.Val()), objSize, ptr) && (s.Empty() <==> IsEmpty(s.Val()))
      ensures forall t :: t in Footprint() && t != s ==> t.Val() == old(t.Val())
      ensures status == StatusAt(old(s.Val()), objSize, ptr)
    {
      status := s.Free(Some(ptr));
      s.Occupancy();
    }

    /** A slab takes a slot back; the others stay as they are. */
    method GiveTo(s: KSlab, ptr: int) returns (status: int)
      requires Sound(Footprint() + {s}, objSize) && IsHere(s.Val(), objSize, ptr) && !EndsAt(s.Val(), objSize, ptr)
      modifies s, s.freeSlots
      ensures Sound(Footprint() + {s}, objSize) && s.Val() == Freed(old(s.Val()), objSize, ptr) && (s.Empty() <==> IsEmpty(s.Val()))
      ensures ListUpdated(fullSlabs, old(Vals(fullSlabs)), s)
      ensures ListUpdated(halfFullSlabs, old(Vals(halfFullSlabs)), s)
      ensures ListUpdated(emptySlabs, old(Vals(emptySlabs)), s)
      ensures status == StatusAt(old(s.Val()), objSize, ptr)
    {
      ghost var v := State();
      hide Freed, ListUpdated, Sound, IsEmpty, IsHere, EndsAt, StatusAt;
      status := GiveAlone(s, ptr);
      ListAfter(fullSlabs, v.full, s);
      ListAfter(halfFullSlabs, v.half, s);
      ListAfter(emptySlabs, v.empty, s);
    }

    method PushHalf(s: KSlab)
      requires Sound(Footprint() + {s}, objSize)
      modifies this`halfFullSlabs
      ensures Listed() && Footprint() == old(Footprint()) + {s}
      ensures State() == old(State()).(half := [s.Val()] + old(State()).half)
    {
      hide Sound, Vals, Elems;
      ghost var slabs := Footprint();
      ElemsCons(s, halfFullSlabs);
      ValsCons(s, halfFullSlabs);
      halfFullSlabs := [s] + halfFullSlabs;
      assert Footprint() == slabs + {s};
    }

    method PushEmpty(s: KSlab)
      requires Sound(Footprint() + {s}, objSize)
      modifies this`emptySlabs
      ensures Listed() && Footprint() == old(Footprint()) + {s}
      ensures State() == old(State()).(empty := [s.Val()] + old(State()).empty)
    {
      hide Sound, Vals, Elems;
      ghost var slabs := Footprint();
      ElemsCons(s, emptySlabs);
      ValsCons(s, emptySlabs);
      emptySlabs := [s] + emptySlabs;
      assert Footprint() == slabs + {s};
    }

    /** Takes a slab off the list of full ones. */
    method UnlistFull(i: nat)
      requires i < |fullSlabs| && Listed()
      modifies this`fullSlabs
      ensures Footprint() + {old(fullSlabs[i])} == old(Footprint()) && Sound(old(Footprint()), objSize)
      ensures State() == old(State()).(full := RemoveAt(old(State()).full, i))
    {
      hide Vals, Elems, Sound;
      ghost var slabs, s := Footprint(), fullSlabs[i];
      ElemsAt(fullSlabs, i);
      fullSlabs := fullSlabs[..i] + fullSlabs[i + 1..];
      assert Footprint() + {s} == slabs;
    }

    method RefileFromFull(i: nat, ptr: int) returns (status: int, emptied: bool)
      requires Listed() && Differ(Slabs(State())) && i < |fullSlabs|
      requires IsHere(fullSlabs[i].Val(), objSize, ptr) && !EndsAt(fullSlabs[i].Val(), objSize, ptr)
      modifies this`fullSlabs, this`halfFullSlabs, this`emptySlabs, fullSlabs[i], fullSlabs[i].freeSlots
      ensures Listed() && Footprint() == old(Footprint())
      ensures State() == RefileFull(old(State()), i, Freed(old(State()).full[i], objSize, ptr))
      ensures status == StatusAt(old(State()).full[i], objSize, ptr)
      ensures !emptied ==> emptySlabs == old(emptySlabs)
    {
      hide Slabs, Sound, Vals, IsEmpty, Elems, IsHere, EndsAt, StatusAt, Freed;
      ghost var slabs := Footprint();
      Elsewhere(i);
      ElemsAt(fullSlabs, i);
      var s := fullSlabs[i];
      assert slabs + {s} == slabs;
      status := GiveTo(s, ptr);
      emptied := s.Empty();
      hide RemoveAt;
      UnlistFull(i);
      assert Footprint() + {s} == slabs;
      if !emptied {
        PushHalf(s);
      } else {
        PushEmpty(s);
      }
    }

    method RefileFromHalf(i: nat, ptr: int) returns (status: int, emptied: bool)
      requires Listed() && Differ(Slabs(State())) && i < |halfFullSlabs|
      requires IsHere(halfFullSlabs[i].Val(), objSize, ptr) && !EndsAt(halfFullSlabs[i].Val(), objSize, ptr)
      modifies this`fullSlabs, this`halfFullSlabs, this`emptySlabs, halfFullSlabs[i], halfFullSlabs[i].freeSlots
      ensures Listed() && Footprint() == old(Footprint())
      ensures State() == RefileHalf(old(State()), i, Freed(old(State()).half[i], objSize, ptr))
      ensures status == StatusAt(old(State()).half[i], objSize, ptr)
      ensures !emptied ==> emptySlabs == old(emptySlabs)
    {
      hide Slabs, Sound, Vals, IsEmpty, Elems, IsHere, EndsAt, StatusAt, Freed;
      ghost var slabs := Footprint();
      Elsewhere(i);
      ElemsAt(halfFullSlabs, i);
      var s := halfFullSlabs[i];
      assert slabs + {s} == slabs;
      status := GiveTo(s, ptr);
      emptied := s.Empty();
      if emptied {
        UnlistHalf(i);
        assert Footprint() + {s} == slabs;
        PushEmpty(s);
      }
    }

    /** The first slab of a list that claims ptr; the length when none does. */
    method Search(l: seq<KSlab>, ptr: int) returns (i: nat)
      requires objSize > 0 && forall s :: s in l ==> s.Valid() && s.slotSize == objSize
      ensures i == Find(Vals(l), objSize, ptr)
    {
      hide Vals, Find;
      i := 0;
      while i < |l| && !l[i].Here(Some(ptr))
        invariant 0 <= i <= |l|
        invariant forall j :: 0 <= j < i ==> !IsHere(Vals(l)[j], objSize, ptr)
        decreases |l| - i
      {
        i := i + 1;
      }
      FindIs(Vals(l), objSize, ptr, i);
    }

    lemma ListedSlabs()
      requires Listed()
      ensures forall s :: s in fullSlabs || s in halfFullSlabs || s in emptySlabs ==> s.Valid() && s.slotSize == objSize
    {
    }

    /** What free does before shrink. */
    method Refile(ptr: int) returns (status: int, emptied: bool)
      requires Listed() && Differ(Slabs(State())) && objSize > 0 && InSlot(State(), ptr)
      modifies this`fullSlabs, this`halfFullSlabs, this`emptySlabs, Footprint(), Flags()
      ensures Listed() && Footprint() == old(Footprint())
      ensures State() == Refiled(old(State()), ptr) && status == FreeStatus(old(State()), ptr)
      ensures !emptied ==> emptySlabs == old(emptySlabs)
    {
      hide Slabs, Sound, Vals, Elems, StatusAt, Freed, RefileFull, RefileHalf, Find;
      ClaimLists(State(), ptr);
      var i, j := SearchBoth(ptr);
      if i < |fullSlabs| {
        Place(fullSlabs, i);
        status, emptied := RefileFromFull(i, ptr);
      } else if j < |halfFullSlabs| {
        Place(halfFullSlabs, j);
        status, emptied := RefileFromHalf(j, ptr);
      } else {
        status, emptied := -1, false;
      }
    }

    /** Searches the full slabs, then the half-full ones. */
    method SearchBoth(ptr: int) returns (i: nat, j: nat)
      requires Listed() && Differ(Slabs(State())) && objSize > 0
      ensures Listed() && Differ(Slabs(State())) && Footprint() == old(Footprint())
      ensures i == Find(State().full, objSize, ptr) && (i == |fullSlabs| ==> j == Find(State().half, objSize, ptr))
      ensures Vals(fullSlabs) == old(Vals(fullSlabs)) && Vals(halfFullSlabs) == old(Vals(halfFullSlabs)) && Vals(emptySlabs) == old(Vals(emptySlabs))
    {
      hide Slabs, Sound, Vals, Elems, Find;
      ListedSlabs();
      OldSlabs();
      ghost var slabs := Footprint();
      i := Search(fullSlabs, ptr);
      assert Footprint() == slabs;
      j := 0;
      if i == |fullSlabs| {
        ListedSlabs();
        j := Search(halfFullSlabs, ptr);
        assert Footprint() == slabs;
      }
    }

    lemma Place(l: seq<KSlab>, i: nat)
      requires i < |l| && Elems(l) <= Footprint()
      ensures l[i] in Footprint() && l[i].freeSlots in Flags()
    {
    }

    method FreeSlot(ptr: int) returns (status: int)
      requires Listed() && Ready(buddy) && Differ(Slabs(State())) && objSize > 0 && |emptySlabs| <= 1
      requires InSlot(State(), ptr) && Chunks(State()) <= multiset(buddy.live)
      modifies this, buddy, buddy.freeChunks, buddy.memory, Footprint(), Flags()
      ensures Listed() && Ready(buddy) && Footprint() <= old(Footprint())
      ensures Current() == FreeOne(old(Current()), ptr) && status == FreeStatus(old(State()), ptr)
    {
      hide Slabs, Sound, Vals, Elems, Arena.Inv, Chunks, Differ, Refiled, InSlot, FreeStatus, ShrinkSys;
      RefiledChunks(State(), ptr);
      var emptied;
      status, emptied := Refile(ptr);
      if emptied {
        Shrink();
      } else {
        ShrunkAlready(Current());
      }
    }

    /** Some slab of the cache owns ptr, and no slab searched before it ends there. */
    ghost predicate Reaches(ptr: int)
      reads this, Flags()
    {
      exists j :: Routed(State(), ptr, j)
    }

    /** Callers may free what they hold, if it routes to its owner. */
    lemma MayFree(ptr: int)
      requires Valid() && Reaches(ptr)
      ensures InSlot(State(), ptr) && Live(State(), ptr)
    {
      RoutedFree(Current(), order, ptr);
    }

    /** Puts the slot ptr lies in back; shrinks when that leaves a slab empty. -1 when no slab searched claims ptr, 1 when
        its slot was free already. A live object that routes to its owner is gone afterwards, and nothing else. */
    method Free(ptr: Option<int>) returns (status: int)
      requires Valid() && (ptr.Some? ==> InSlot(State(), ptr.value))
      modifies this, buddy, buddy.freeChunks, buddy.memory, Footprint(), Flags()
      ensures Valid() && Footprint() <= old(Footprint())
      ensures ptr.None? ==> status == -1 && Current() == old(Current())
      ensures ptr.Some? ==> Current() == FreeOne(old(Current()), ptr.value) && status == FreeStatus(old(State()), ptr.value)
      ensures ptr.Some? && old(Reaches(ptr.value)) ==>
                status == 0 && forall q :: Live(State(), q) <==> Live(old(State()), q) && q != ptr.value
      ensures status == -1 <==> ptr.None? || forall s :: s in Searched(old(State())) ==> !IsHere(s, objSize, ptr.value)
      ensures status == -1 ==> Current() == old(Current())
    {
      hide Slabs, Sound, Vals, Elems, SysOk, Arena.Inv, Optimal, SlotsFor, Chunks, Differ, Live, Source, Pow2, FreeOne, InSlot,
           FreeStatus, HasRoom, Rest;
      if ptr == None {
        return -1;
      }
      SystemFacts();
      FreeOneOrderly(Current(), order, ptr.value);
      hide Routed;
      if Reaches(ptr.value) {
        RoutedFree(Current(), order, ptr.value);
      }
      StatusCases(State(), ptr.value);
      NotClaimed(Current(), ptr.value);
      status := FreeSlot(ptr.value);
    }

    /** Whether a full or half-full slab claims ptr. */
    method IsInCache(ptr: Option<int>) returns (b: bool)
      requires Listed() && Differ(Slabs(State())) && objSize > 0
      ensures b <==> ptr.Some? && exists s :: s in Searched(State()) && IsHere(s, objSize, ptr.value)
    {
      if ptr == None {
        return false;
      }
      ghost var l := Searched(State());
      hide Slabs, Sound, Vals, Elems, IsHere;
      ClaimLists(State(), ptr.value);
      var i, j := SearchBoth(ptr.value);
      ClaimedBySome(l, objSize, ptr.value);
      b := i < |fullSlabs| || j < |halfFullSlabs|;
    }

    // -------------------------------------------------------------- creation and destruction

    /** Takes a header from the buddy allocator, and a first slab exactly when there is room for one. */
    static method CreateCache(buddy: BuddyAllocator, objSize: int) returns (c: KCache?)
      requires Ready(buddy) && 0 < objSize <= Pow2(MAX_SLAB_ORDER)
      modifies buddy, buddy.freeChunks, buddy.memory
      ensures Ready(buddy) && (c == null ==> Mem(buddy) == old(Mem(buddy)))
      ensures var (h, m) := Request(old(Mem(buddy)), CACHE_HEADER);
        && (c == null <==> h.None?)
        && (c != null ==> c.addr == h.value && c.Current() == NewCache(m, objSize, SlotsFor(objSize, c.order)))
      ensures c != null ==> c.Valid() && c.buddy == buddy && c.objSize == objSize && Optimal(objSize, c.order)
      ensures c == null <==> !Fits(old(Mem(buddy)), CACHE_HEADER)
      ensures var m := Request(old(Mem(buddy)), CACHE_HEADER).1;
        c != null ==> |c.emptySlabs| == if RoomForSlab(m, objSize, SlotsFor(objSize, c.order)) then 1 else 0
      ensures c != null ==> fresh(c) && fresh(c.Footprint()) && fresh(c.Flags())
    {
      hide Arena.Inv, Request, SlotsFor, Pow2, CreateSlab, Sound, SysOk, Optimal, Fits, RoomForSlab;
      RequestKeeps(Mem(buddy), CACHE_HEADER);
      RequestFits(Mem(buddy), CACHE_HEADER);
      var h := Get(buddy, CACHE_HEADER);
      if h == None {
        return null;
      }
      var size := FindOptimalSlabSize(objSize);
      ghost var k: nat :| size == Pow2(k) && Optimal(objSize, k);
      c := new KCache(buddy, h.value, objSize, k);
      SlabRuns.NewCacheKeeps(Mem(buddy), objSize, k);
      NewCacheServed(Mem(buddy), objSize, SlotsFor(objSize, k));
      c.FirstSlab();
    }

    method FirstSlab()
      requires Ready(buddy) && 0 < objSize <= Pow2(MAX_SLAB_ORDER) && Optimal(objSize, order)
      requires fullSlabs == halfFullSlabs == emptySlabs == [] && discarded == []
      modifies this`emptySlabs, buddy, buddy.freeChunks, buddy.memory
      ensures Listed() && Ready(buddy) && Current() == NewCache(old(Mem(buddy)), objSize, SlotsFor(objSize, order))
      ensures fresh(Footprint()) && fresh(Flags())
    {
      hide Arena.Inv, SlotsFor, Pow2, CreateSlab, Optimal;
      assert Footprint() == {};
      var s := MakeSlab();
      if s != null {
        emptySlabs := [s];
        assert Footprint() == {s};
      }
    }

    /** Gives back slots, flags and header of every slab of a list. */
    method DestroyList(l: seq<KSlab>)
      requires Ready(buddy) && (forall s :: s in l ==> s.Valid() && s.slotSize == objSize)
      requires ListChunks(Vals(l), objSize) <= multiset(buddy.live)
      modifies buddy, buddy.freeChunks, buddy.memory
      ensures Ready(buddy) && Mem(buddy) == DestroyAll(old(Mem(buddy)), Vals(l), objSize)
    {
      hide Arena.Inv, ListChunks, DestroyAll, Vals, DropSlab, SlabChunks;
      ghost var v, m := Vals(l), Mem(buddy);
      assert v[0..] == v;
      for i := 0 to |l|
        invariant Ready(buddy) && forall s :: s in l ==> s.Valid() && s.slotSize == objSize
        invariant Vals(l) == v && ListChunks(v[i..], objSize) <= multiset(buddy.live)
        invariant DestroyAll(Mem(buddy), v[i..], objSize) == DestroyAll(m, v, objSize)
      {
        DestroyTurn(Mem(buddy), v, i, objSize);
        DestroyOne(l[i]);
      }
      DestroyNone(Mem(buddy), v[|l|..], objSize);
    }

    method DestroyOne(s: KSlab)
      requires s.Valid() && s.slotSize == objSize && Ready(buddy) && SlabChunks(s.Val(), objSize) <= multiset(buddy.live)
      modifies buddy, buddy.freeChunks, buddy.memory
      ensures Ready(buddy) && Mem(buddy) == Release(DropSlab(old(Mem(buddy)), s.Val(), objSize), ChunkFor(s.addr, SLAB_HEADER))
    {
      hide Arena.Inv, DropSlab, Release, BuddySpec.OrderOf;
      DestroyOneKeeps(Mem(buddy), s.Val(), objSize);
      s.DestroySlab(buddy);
      Put(buddy, s.addr, SLAB_HEADER);
    }

    /** Gives back everything the cache holds but its own header and the headers shrink has dropped. */
    method DestroyCache()
      requires Valid()
      modifies this, buddy, buddy.freeChunks, buddy.memory
      ensures Ready(buddy) && fullSlabs == halfFullSlabs == emptySlabs == []
      ensures Mem(buddy) == DestroySys(old(Current()))
      ensures multiset(buddy.live) == old(Rest(Current())) + HeaderChunks(old(discarded))
    {
      hide Arena.Inv, ListChunks, DestroyAll, Vals, SysOk, Sound, HeaderChunks, Elems, Rest, DestroySys, Chunks;
      SlabRuns.SystemOk(Current(), order);
      SlabRuns.DestroyKeeps(Current());
      DestroyLists();
    }

    method DestroyLists()
      requires Listed() && Ready(buddy) && Chunks(State()) <= multiset(buddy.live)
      modifies this, buddy, buddy.freeChunks, buddy.memory
      ensures Ready(buddy) && fullSlabs == halfFullSlabs == emptySlabs == []
      ensures Mem(buddy) == DestroySys(old(Current()))
    {
      hide Arena.Inv, ListChunks, DestroyAll, Vals, Sound, Elems, Chunks, Ready, Mem, InOrder;
      ghost var s0 := Current();
      DestroyableInOrder();
      ghost var half, full := halfFullSlabs, fullSlabs;
      DestroyPart(emptySlabs, half, full);
      emptySlabs := [];
      DestroyPart(halfFullSlabs, full, []);
      halfFullSlabs := [];
      DestroyPart(fullSlabs, [], []);
      fullSlabs := [];
    }

    ghost predicate InOrder(l: seq<KSlab>)
      reads l, set s | s in l :: s.freeSlots
    {
      forall s :: s in l ==> s.Valid() && s.slotSize == objSize
    }

    lemma DestroyableInOrder()
      requires Listed() && Ready(buddy) && Chunks(State()) <= multiset(buddy.live)
      ensures InOrder(fullSlabs) && InOrder(halfFullSlabs) && InOrder(emptySlabs) && InOrder([])
      ensures var s := Current();
        var m := DestroyAll(s.mem, s.cache.empty, objSize);
        && ListChunks(s.cache.empty, objSize) <= multiset(s.mem.live)
        && ListChunks(s.cache.half, objSize) <= multiset(m.live)
        && ListChunks(s.cache.full, objSize) <= multiset(DestroyAll(m, s.cache.half, objSize).live)
    {
      DestroyOrder(Current());
    }

    /** Destroys list l; the slabs of a and b do not change. */
    method DestroyPart(l: seq<KSlab>, ghost a: seq<KSlab>, ghost b: seq<KSlab>)
      requires Ready(buddy) && InOrder(l) && InOrder(a) && InOrder(b)
      requires ListChunks(Vals(l), objSize) <= multiset(Mem(buddy).live)
      modifies buddy, buddy.freeChunks, buddy.memory
      ensures Ready(buddy) && Mem(buddy) == DestroyAll(old(Mem(buddy)), Vals(l), objSize)
      ensures InOrder(a) && InOrder(b) && Vals(a) == old(Vals(a)) && Vals(b) == old(Vals(b))
      ensures Vals(l) == old(Vals(l))
    {
      hide Arena.Inv, ListChunks, DestroyAll, Vals;
      DestroyList(l);
    }
  }

  ghost function Elems(l: seq<KSlab>): set<KSlab> {
    set s | s in l
  }

  lemma ElemsHead(l: seq<KSlab>)
    requires l != []
    ensures Elems(l) == {l[0]} + Elems(l[1..]) && l[0] in Elems(l)
  {
    assert l == [l[0]] + l[1..];
  }

  lemma ElemsAt(l: seq<KSlab>, i: nat)
    requires i < |l|
    ensures Elems(l) == {l[i]} + Elems(l[..i] + l[i + 1..]) && l[i] in Elems(l)
  {
    assert l == l[..i] + [l[i]] + l[i + 1..];
  }

  /** Taking the second slab off a list takes its value off. */
  lemma DropValue(l: seq<KSlab>)
    requires |l| > 1
    ensures Vals([l[0]] + l[2..]) == [Vals(l)[0]] + Vals(l)[2..]
  {
  }

  lemma ShrunkAlready(s: Sys)
    requires |s.cache.empty| <= 1
    ensures ShrinkSys(s) == s
  {
  }

  lemma NotClaimed(s: Sys, ptr: int)
    requires s.cache.objSize > 0 && |s.cache.empty| <= 1
    ensures FreeStatus(s.cache, ptr) == -1 ==> FreeOne(s, ptr) == s
  {
    StatusCases(s.cache, ptr);
    ShrunkAlready(s);
  }

  lemma ElemsCons(s: KSlab, l: seq<KSlab>)
    ensures Elems([s] + l) == {s} + Elems(l)
  {
  }

  /** The values of a list that had the values v before slab s changed. */
  ghost predicate ListUpdated(l: seq<KSlab>, v: seq<Slab>, s: KSlab)
    reads s.freeSlots, set t | t in l :: t.freeSlots
  {
    && |v| == |l|
    && (s !in l ==> Vals(l) == v)
    && forall i :: 0 <= i < |l| && l[i] == s && s !in l[..i] && s !in l[i + 1..] ==> Vals(l) == v[i := s.Val()]
  }

  /** What a change of slab s alone does to a list of slabs whose values were v. */
  lemma ListAfter(l: seq<KSlab>, v: seq<Slab>, s: KSlab)
    requires |v| == |l| && forall i :: 0 <= i < |l| && l[i] != s ==> l[i].Val() == v[i]
    ensures ListUpdated(l, v, s)
  {
    forall i | 0 <= i < |l| && l[i] == s && s !in l[..i] && s !in l[i + 1..]
      ensures Vals(l) == v[i := s.Val()]
    {
      assert forall j :: 0 <= j < i ==> l[j] in l[..i];
      assert forall j :: i < j < |l| ==> l[j] == l[i + 1..][j - i - 1];
    }
  }

  lemma ValsCons(s: KSlab, l: seq<KSlab>)
    ensures Vals([s] + l) == [s.Val()] + Vals(l)
  {
  }

  lemma Spread(a: seq<KSlab>, b: seq<KSlab>, c: seq<KSlab>)
    requires forall i, j :: 0 <= i < |a + b + c| && 0 <= j < |a + b + c| && i != j ==> (a + b + c)[i] != (a + b + c)[j]
    ensures forall i, j :: 0 <= i < |a| && 0 <= j < |a| && i != j ==> a[i] != a[j]
    ensures forall i, j :: 0 <= i < |b| && 0 <= j < |b| && i != j ==> b[i] != b[j]
    ensures forall i, j :: 0 <= i < |c| && 0 <= j < |c| && i != j ==> c[i] != c[j]
    ensures forall s :: s in a ==> s !in b && s !in c
    ensures forall s :: s in b ==> s !in c
  {
    var l := a + b + c;
    assert forall i :: 0 <= i < |a| ==> l[i] == a[i];
    assert forall i :: 0 <= i < |b| ==> l[|a| + i] == b[i];
    assert forall i :: 0 <= i < |c| ==> l[|a| + |b| + i] == c[i];
  }

  lemma WasteIs(objSize: int, k: nat)
    requires objSize > 0
    ensures Waste(objSize, k) == Pow2(k) % objSize
  {
  }

  lemma FindIs(l: seq<Slab>, objSize: int, ptr: int, i: nat)
    requires i <= |l| && (i < |l| ==> IsHere(l[i], objSize, ptr)) && forall j :: 0 <= j < i ==> !IsHere(l[j], objSize, ptr)
    ensures i == Find(l, objSize, ptr)
  {
  }

  lemma ClaimLists(c: Cache, ptr: int)
    requires c.objSize > 0
    ensures Find(Searched(c), c.objSize, ptr) ==
            if Find(c.full, c.objSize, ptr) < |c.full| then Find(c.full, c.objSize, ptr)
            else |c.full| + Find(c.half, c.objSize, ptr)
  {
    FindConcat(c.full, c.half, c.objSize, ptr);
  }

  /** destroyCache finds the chunks of each list live when it comes to it. */
  lemma DestroyOrder(s: Sys)
    requires Arena.Inv(s.mem) && Chunks(s.cache) <= multiset(s.mem.live)
    ensures ListChunks(s.cache.empty, s.cache.objSize) <= multiset(s.mem.live)
    ensures var m := DestroyAll(s.mem, s.cache.empty, s.cache.objSize);
      && ListChunks(s.cache.half, s.cache.objSize) <= multiset(m.live)
      && ListChunks(s.cache.full, s.cache.objSize) <=
         multiset(DestroyAll(m, s.cache.half, s.cache.objSize).live)
  {
    hide Arena.Inv, ListChunks, HeaderChunks, DestroyAll;
    var c := s.cache;
    DestroyAllKeeps(s.mem, c.empty, c.objSize);
    DestroyAllKeeps(DestroyAll(s.mem, c.empty, c.objSize), c.half, c.objSize);
  }

  lemma DestroyTurn(m: Arena.State, v: seq<Slab>, i: nat, objSize: int)
    requires i < |v| && Arena.Inv(m) && ListChunks(v[i..], objSize) <= multiset(m.live)
    ensures SlabChunks(v[i], objSize) <= multiset(m.live)
    ensures var m' := Release(DropSlab(m, v[i], objSize), ChunkFor(v[i].addr, SLAB_HEADER));
      && DestroyAll(m', v[i + 1..], objSize) == DestroyAll(m, v[i..], objSize)
      && ListChunks(v[i + 1..], objSize) <= multiset(m'.live)
  {
    hide Arena.Inv, SlabChunks, DropSlab, Release;
    assert v[i..][1..] == v[i + 1..];
    DestroyOneKeeps(m, v[i], objSize);
  }

  lemma DestroyNone(m: Arena.State, v: seq<Slab>, objSize: int)
    requires v == []
    ensures DestroyAll(m, v, objSize) == m
  {
  }

  lemma ClaimedBySome(l: seq<Slab>, objSize: int, ptr: int)
    ensures Find(l, objSize, ptr) < |l| <==> exists s :: s in l && IsHere(s, objSize, ptr)
  {
  }

  lemma NewNotFull(s: Slab)
    requires s.flags != [] && forall i :: 0 <= i < |s.flags| ==> s.flags[i]
    ensures !IsFull(s)
  {
    CountBounds(s.flags);
  }

  lemma SlotsAre(objSize: int, k: nat)
    requires objSize > 0
    ensures SlotsFor(objSize, k) == Pow2(k) / objSize
  {
  }

  lemma PooledDiffer(c: Cache, n: nat, size: int)
    requires PoolOk(Pool(c), n, size)
    ensures Differ(Slabs(c))
  {
    forall i, j | 0 <= i < j < |Slabs(c)|
      ensures Slabs(c)[i] != Slabs(c)[j]
    {
      PooledOnce(c, n, size, i, j);
    }
  }

  lemma PooledOnce(c: Cache, n: nat, size: int, i: nat, j: nat)
    requires PoolOk(Pool(c), n, size) && i < j < |Slabs(c)|
    ensures Slabs(c)[i] != Slabs(c)[j]
  {
    var l := Slabs(c);
    assert l == l[..j] + [l[j]] + l[j + 1..];
    assert l[i] in l[..j];
    assert multiset(l)[l[j]] == multiset(l[..j])[l[j]] + 1 + multiset(l[j + 1..])[l[j]];
    assert multiset(l[..j])[l[i]] > 0;
  }
}
