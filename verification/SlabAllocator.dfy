/** src/kSlab.cpp: slabs that take their memory from the buddy allocator and mark slots in place. */
module SlabAllocation {
  import opened Wrappers
  import opened PowersOfTwo
  import opened Blocks
  import BuddySpec
  import Arena = BuddyTheorems
  import opened BuddyAllocation
  import opened SlabSpec
  import opened SlabTheorems
  import opened SlabPages
  import SlabSystem
  import SlabServes

  /** The buddy allocator's lists and live chunks. */
  ghost function Mem(buddy: BuddyAllocator): Arena.State
    reads buddy
  {
    Arena.State(buddy.lists, buddy.live)
  }

  ghost predicate Ready(buddy: BuddyAllocator)
    reads buddy, buddy.freeChunks, buddy.memory
  {
    buddy.Valid() && Arena.Inv(Mem(buddy))
  }

  /** kbuddyAllocator::alloc, seen as a step of the arena. */
  method Get(buddy: BuddyAllocator, size: int) returns (r: Option<int>)
    requires Ready(buddy)
    modifies buddy, buddy.freeChunks, buddy.memory
    ensures Ready(buddy) && (r, Mem(buddy)) == SlabSystem.Request(old(Mem(buddy)), size)
  {
    SlabSystem.RequestKeeps(Mem(buddy), size);
    hide BuddySpec.OrderOf, BuddySpec.AllocSpec, BuddySpec.WellFormed, BuddySpec.Coalesced;
    ghost var old_live := buddy.live;
    r := buddy.Alloc(size);
    assert old_live + {} == old_live;
  }

  /** kbuddyAllocator::free of a live chunk. */
  method Put(buddy: BuddyAllocator, off: int, size: int)
    requires Ready(buddy) && SlabSystem.ChunkFor(off, size) in buddy.live
    modifies buddy, buddy.freeChunks, buddy.memory
    ensures Ready(buddy) && Mem(buddy) == SlabSystem.Release(old(Mem(buddy)), SlabSystem.ChunkFor(off, size))
  {
    SlabSystem.ReleaseKeeps(Mem(buddy), SlabSystem.ChunkFor(off, size));
    LiveInArena(Mem(buddy), SlabSystem.ChunkFor(off, size));
    hide BuddySpec.OrderOf, BuddySpec.FreeSpec, BuddySpec.WellFormed, BuddySpec.Coalesced;
    buddy.Free(Some(off), size);
  }

  lemma LiveInArena(m: Arena.State, c: Chunk)
    requires Arena.Inv(m) && c in m.live
    ensures 0 <= c.off <= ARENA
  {
    assert Block(c);
  }

  lemma AllTaken(flags: seq<bool>)
    requires forall i :: 0 <= i < |flags| ==> flags[i]
    ensures FreeCount(flags) == |flags|
  {
    CountBounds(flags);
  }

  class KSlab {
    /** Offsets of the header, the flag array and the slots in the arena. */
    const addr: int
    const flagsAddr: int
    const slots: int
    const slotSize: int
    const numOfSlots: int
    const freeSlots: array<bool>
    var numOfFreeSlots: int

    ghost function Val(): Slab
      reads freeSlots
    {
      Slab(addr, flagsAddr, slots, freeSlots[..])
    }

    ghost predicate Valid()
      reads this, freeSlots
    {
      slotSize > 0 && numOfSlots == freeSlots.Length && numOfFreeSlots == FreeCount(freeSlots[..])
    }

    constructor (addr: int, flagsAddr: int, slots: int, slotSize: int, numOfSlots: nat)
      requires slotSize > 0
      ensures Valid() && fresh(freeSlots) && this.slotSize == slotSize
      ensures Val() == Slab(addr, flagsAddr, slots, seq(numOfSlots, _ => true))
    {
      this.addr, this.flagsAddr, this.slots := addr, flagsAddr, slots;
      this.slotSize, this.numOfSlots, numOfFreeSlots := slotSize, numOfSlots, numOfSlots;
      freeSlots := new bool[numOfSlots];
      new;
      for i := 0 to numOfSlots
        invariant numOfFreeSlots == this.numOfSlots == numOfSlots
        invariant forall j :: 0 <= j < i ==> freeSlots[j]
      {
        freeSlots[i] := true;
      }
      ghost var flags := freeSlots[..];
      assert flags == seq(numOfSlots, _ => true);
      AllTaken(flags);
    }

    /** Takes header, flags and slots from the buddy allocator; gives back what it got if one of them is refused, which
        happens exactly when one of the three requests finds no room. */
    static method CreateSlab(buddy: BuddyAllocator, slotSize: int, numOfSlots: nat) returns (slab: KSlab?)
      requires Ready(buddy) && slotSize > 0
      modifies buddy, buddy.freeChunks, buddy.memory
      ensures Ready(buddy)
      ensures var (r, m) := SlabSystem.CreateSlab(old(Mem(buddy)), slotSize, numOfSlots);
        && Mem(buddy) == m
        && (slab == null <==> r.None?)
        && (r.Some? ==> slab != null && slab.Val() == r.value)
      ensures slab == null <==> !SlabServes.RoomForSlab(old(Mem(buddy)), slotSize, numOfSlots)
      ensures slab != null ==> fresh(slab) && fresh(slab.freeSlots) && slab.Valid() && slab.slotSize == slotSize
    {
      hide SlabSystem.Request, SlabSystem.Release, Arena.Inv, BuddySpec.OrderOf, SlabServes.RoomForSlab;
      SlabServes.CreateSlabExactly(Mem(buddy), slotSize, numOfSlots);
      SlabSystem.RequestKeeps(Mem(buddy), SLAB_HEADER);
      var header := Get(buddy, SLAB_HEADER);
      if header == None {
        return null;
      }
      SlabSystem.RequestKeeps(Mem(buddy), numOfSlots * 4);
      var flags := Get(buddy, numOfSlots * 4);
      if flags == None {
        Put(buddy, header.value, SLAB_HEADER);
        return null;
      }
      SlabSystem.RequestKeeps(Mem(buddy), numOfSlots * slotSize);
      var area := Get(buddy, numOfSlots * slotSize);
      if area == None {
        Put(buddy, flags.value, numOfSlots * 4);
        Put(buddy, header.value, SLAB_HEADER);
        return null;
      }
      slab := new KSlab(header.value, flags.value, area.value, slotSize, numOfSlots);
    }

    /** Gives back slots and flags. The header stays allocated. */
    method DestroySlab(buddy: BuddyAllocator)
      requires Valid() && Ready(buddy) && SlabSystem.SlabBody(Val(), slotSize) <= multiset(buddy.live)
      modifies buddy, buddy.freeChunks, buddy.memory
      ensures Ready(buddy) && Mem(buddy) == SlabSystem.DropSlab(old(Mem(buddy)), Val(), slotSize)
    {
      hide SlabSystem.Release, Arena.Inv, BuddySpec.OrderOf;
      SlabSystem.DropSlabKeeps(Mem(buddy), Val(), slotSize);
      Put(buddy, slots, numOfSlots * slotSize);
      Put(buddy, flagsAddr, numOfSlots * 4);
    }

    predicate Full()
      reads this
    {
      numOfFreeSlots == 0
    }

    predicate Empty()
      reads this
    {
      numOfFreeSlots == numOfSlots
    }

    lemma Occupancy()
      requires Valid()
      ensures Full() <==> IsFull(Val())
      ensures Empty() <==> IsEmpty(Val())
    {
    }

    predicate Here(ptr: Option<int>) {
      ptr.Some? && slots <= ptr.value <= slots + numOfSlots * slotSize
    }

    /** Marks the first free slot used and returns its address; nothing when the slab is full. */
    method Alloc() returns (ret: Option<int>)
      requires Valid()
      modifies this, freeSlots
      ensures Valid() && Val() == TakeSlot(old(Val()))
      ensures ret == if IsFull(old(Val())) then None else Some(AllocObject(old(Val()), slotSize))
    {
      CountBounds(freeSlots[..]);
      if numOfFreeSlots == 0 {
        return None;
      }
      ghost var flags := freeSlots[..];
      var i := 0;
      while i < numOfSlots && !freeSlots[i]
        invariant 0 <= i <= numOfSlots
        invariant forall j :: 0 <= j < i ==> !flags[j]
        decreases numOfSlots - i
      {
        i := i + 1;
      }
      FirstIs(flags, i);
      CountUpdate(flags, i, false);
      freeSlots[i] := false;
      assert freeSlots[..] == flags[i := false];
      numOfFreeSlots := numOfFreeSlots - 1;
      ret := Some(slots + i * slotSize);
    }

    lemma FirstIs(flags: seq<bool>, i: int)
      requires FirstFree(flags) < |flags| && 0 <= i <= |flags|
      requires (forall j :: 0 <= j < i ==> !flags[j]) && (i < |flags| ==> flags[i])
      ensures i == FirstFree(flags)
    {
    }

    /** Marks the slot ptr lies in free: -1 when the slab does not claim ptr, 1 when the slot was free already.
        The address just past the last slot is claimed but lies in no slot; callers must not pass it. */
    method Free(ptr: Option<int>) returns (status: int)
      requires Valid() && (ptr.Some? ==> !EndsAt(Val(), slotSize, ptr.value))
      modifies this, freeSlots
      ensures Valid()
      ensures !Here(ptr) ==> status == -1 && Val() == old(Val())
      ensures Here(ptr) ==>
                var i := SlotOf(old(Val()), slotSize, ptr.value);
                && 0 <= i < numOfSlots
                && status == (if old(Val()).flags[i] then 1 else 0)
                && Val() == Freed(old(Val()), slotSize, ptr.value)
    {
      if !Here(ptr) {
        return -1;
      }
      SlotInside(Val(), slotSize, ptr.value);
      ghost var flags := freeSlots[..];
      var i := (ptr.value - slots) / slotSize;
      if freeSlots[i] {
        assert flags[i := true] == flags;
        return 1;
      }
      CountUpdate(flags, i, true);
      freeSlots[i] := true;
      assert freeSlots[..] == flags[i := true];
      numOfFreeSlots := numOfFreeSlots + 1;
      return 0;
    }
  }
}
