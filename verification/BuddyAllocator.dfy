/** src/kbuddyAllocator.cpp: the allocator over freeChunks and the link words in free memory. */
module BuddyAllocation {
  import opened Wrappers
  import opened PowersOfTwo
  import opened Blocks
  import opened BuddySpec
  import opened BuddyInvariant
  import opened BuddyTheorems
  import opened BuddyLinks

  class BuddyAllocator {
    /** Head of the free list of each order, or -1. */
    const freeChunks: array<int>
    /** memory[a] is the int word at offset a from HEAP_START_ADDR. */
    const memory: array<int>

    ghost var lists: Lists
    ghost var live: set<Chunk>

    ghost predicate Valid()
      reads this, freeChunks, memory
    {
      && freeChunks != memory
      && Linked(freeChunks[..], memory[..], lists)
      && WellFormed(lists, live)
    }

    constructor ()
      ensures Valid() && fresh(freeChunks) && fresh(memory)
      ensures lists == InitLists() && live == {} && Coalesced(lists)
    {
      freeChunks := new int[MAX_ORDER + 1](i => if i == MAX_ORDER then 0 else -1);
      memory := new int[ARENA];
      lists, live := InitLists(), {};
      new;
      memory[0] := -1;
      InitKeeps();
    }

    /** The loop that rounds a request up to a power of two. */
    static method Round(size: int) returns (pow: nat, tmp: int)
      ensures pow == OrderOf(size) && tmp == Pow2(pow)
    {
      var n := if size < 4096 then 4096 else size;
      tmp, pow := 1, 0;
      while tmp < n
        invariant tmp == Pow2(pow) && OrderFrom(n, pow) == OrderFrom(n, 0)
        decreases n - tmp
      {
        pow := pow + 1;
        tmp := tmp * 2;
      }
    }

    /** No word inside a chunk that is live before and stays live is written. */
    twostate predicate LiveWordsKept(kept: set<Chunk>)
      reads memory
    {
      forall d, a :: d in kept && 0 <= a < memory.Length && Covers(d, a) ==> memory[a] == old(memory[a])
    }

    lemma HeadsMatch()
      requires Valid()
      ensures freeChunks.Length == MAX_ORDER + 1
      ensures forall k :: 0 <= k <= MAX_ORDER ==> freeChunks[k] == BuddyLinks.Link(lists[k], 0)
      ensures forall k, i :: 0 <= k <= MAX_ORDER && 0 <= i < |lists[k]| ==> -1 < lists[k][i] < memory.Length
    {
    }

    /** The word at element i of a list is the next element, or -1. */
    lemma NextLink(k: nat, i: nat)
      requires Valid() && k <= MAX_ORDER && i < |lists[k]|
      ensures 0 <= lists[k][i] < memory.Length && memory[lists[k][i]] == BuddyLinks.Link(lists[k], i + 1)
    {
    }

    /** Takes the head off list pow. */
    method Pop(pow: nat) returns (off: int)
      requires Valid() && pow <= MAX_ORDER && lists[pow] != []
      modifies this, freeChunks
      ensures Valid() && off == old(lists)[pow][0]
      ensures lists == old(lists)[pow := old(lists)[pow][1..]] && live == old(live) + {Chunk(off, pow)}
    {
      LinkPop(freeChunks[..], memory[..], lists, pow);
      PopKeeps(lists, live, pow);
      ghost var heads := freeChunks[..];
      off := freeChunks[pow];
      freeChunks[pow] := memory[off];
      assert freeChunks[..] == heads[pow := memory[..][off]];
      live := live + {Chunk(off, pow)};
      lists := lists[pow := lists[pow][1..]];
    }

    /** Replaces the head of list i by its halves on list i - 1. */
    method Split(i: nat)
      requires Valid() && MIN_ORDER < i <= MAX_ORDER && lists[i] != []
      modifies this`lists, freeChunks, memory
      ensures Valid() && lists == SplitHead(old(lists), i)
      ensures LiveWordsKept(live)
    {
      LinkSplit(freeChunks[..], memory[..], lists, live, i);
      SplitKeeps(lists, live, i);
      ghost var heads, mem := freeChunks[..], memory[..];
      var seg1 := freeChunks[i];
      var seg2 := seg1 + Pow2(i - 1);
      freeChunks[i] := memory[seg1];
      memory[seg2] := freeChunks[i - 1];
      memory[seg1] := seg2;
      freeChunks[i - 1] := seg1;
      assert freeChunks[..] == heads[i := mem[seg1]][i - 1 := seg1];
      assert memory[..] == mem[seg2 := heads[i - 1]][seg1 := seg2];
      lists := SplitHead(lists, i);
    }

    /** Splits recursively until the requested order has a free chunk, then pops it. */
    method Alloc(size: int) returns (ret: Option<int>)
      requires Valid()
      modifies this, freeChunks, memory
      ensures Valid()
      ensures if size > ARENA then ret == None && lists == old(lists)
              else OrderOf(size) <= MAX_ORDER && (ret, lists) == AllocSpec(old(lists), OrderOf(size))
      ensures live == old(live) + if ret.Some? then {Chunk(ret.value, OrderOf(size))} else {}
      ensures Coalesced(old(lists)) ==> Coalesced(lists) && (ret == None <==>
                size > ARENA || forall c :: Block(c) && c.ord == OrderOf(size) ==> !WhollyFree(c, old(live)))
      ensures LiveWordsKept(old(live))
      decreases if OrderOf(size) > MAX_ORDER then 0 else FirstFree(lists, OrderOf(size))
    {
      hide WellFormed, Tiles, Linked, AllocSpec, SplitHead, FirstFree, OrderOf, Pow2, Coalesced, WhollyFree, Block;
      OrderIsLeast(size);
      if size > ARENA {
        return None;
      }
      AllocOutcome(lists, live, OrderOf(size));
      var pow, tmp := Round(size);
      HeadsMatch();
      if freeChunks[pow] != -1 {
        AllocHit(lists, pow);
        var off := Pop(pow);
        return Some(off);
      }
      for i := pow + 1 to MAX_ORDER + 1
        invariant lists[pow] == [] && forall j :: pow < j < i ==> lists[j] == []
      {
        var seg1 := freeChunks[i];
        if seg1 > -1 {
          AllocStep(lists, pow, i);
          Split(i);
          ret := Alloc(size);
          return;
        }
      }
      AllocFails(lists, pow);
      return None;
    }

    /** Unlinks element i of list c.ord, whose predecessor is prev (-1 for the head). */
    method Unlink(pow: nat, ghost i: nat, segy: int, prev: int, ghost c: Chunk)
      requires Valid() && c in live && c.ord == pow < MAX_ORDER && Buddy(c).off == segy
      requires i < |lists[pow]| && lists[pow][i] == segy && prev == if i == 0 then -1 else lists[pow][i - 1]
      modifies this, freeChunks, memory
      ensures Valid() && lists == Unlist(old(lists), Buddy(c)) && live == old(live) - {c} + {Parent(c)}
      ensures Parent(c) !in old(live)
      ensures LiveWordsKept(old(live))
    {
      hide WellFormed, Linked, Unlist;
      HeadsMatch();
      assert segy in lists[pow];
      MergeKeeps(lists, live, c);
      LinkUnlist(freeChunks[..], memory[..], lists, live, pow, i);
      ghost var heads, mem := freeChunks[..], memory[..];
      if prev == -1 {
        freeChunks[pow] := memory[segy];
        assert freeChunks[..] == heads[pow := mem[segy]];
      } else {
        memory[prev] := memory[segy];
        assert memory[..] == mem[prev := mem[segy]];
        FreeWordNotLive(lists, live, pow, i - 1);
      }
      lists := Unlist(lists, Buddy(c));
      live := live - {c} + {Parent(c)};
    }

    /** Puts a chunk at the head of its list. */
    method Link(pow: nat, segx: int)
      requires Valid() && Chunk(segx, pow) in live
      modifies this, freeChunks, memory
      ensures Valid() && lists == Push(old(lists), Chunk(segx, pow)) && live == old(live) - {Chunk(segx, pow)}
      ensures LiveWordsKept(live)
    {
      ghost var c := Chunk(segx, pow);
      LinkPushLive(freeChunks[..], memory[..], lists, live, c);
      PushKeeps(lists, live, c);
      ghost var heads, mem := freeChunks[..], memory[..];
      memory[segx] := freeChunks[pow];
      freeChunks[pow] := segx;
      assert freeChunks[..] == heads[pow := segx];
      assert memory[..] == mem[segx := heads[pow]];
      lists := Push(lists, c);
      live := live - {c};
    }

    /** Walks list pow for segy, keeping the element before the one looked at. */
    method Find(pow: nat, segy: int) returns (found: bool, prev: int, ghost i: nat)
      requires Valid() && pow <= MAX_ORDER
      ensures found <==> segy in lists[pow]
      ensures found ==> i < |lists[pow]| && lists[pow][i] == segy && prev == if i == 0 then -1 else lists[pow][i - 1]
    {
      hide WellFormed, Linked;
      HeadsMatch();
      var num := freeChunks[pow];
      prev, i := -1, 0;
      while num > -1
        invariant 0 <= i <= |lists[pow]|
        invariant num == BuddyLinks.Link(lists[pow], i)
        invariant prev == (if i == 0 then -1 else lists[pow][i - 1])
        invariant segy !in lists[pow][..i]
        decreases |lists[pow]| - i
      {
        if num == segy {
          return true, prev, i;
        }
        NextLink(pow, i);
        prev := num;
        num := memory[num];
        i := i + 1;
      }
      assert lists[pow][..i] == lists[pow];
      found := false;
    }

    /** Looks for the chunk's buddy on its list; merges and goes on one order up, or links the chunk in.
        A null address, and one outside the arena, is ignored. */
    method Free(addr: Option<int>, size: int)
      requires Valid()
      requires addr.Some? && 0 <= addr.value <= ARENA ==> Chunk(addr.value, OrderOf(size)) in live
      modifies this, freeChunks, memory
      ensures Valid()
      ensures if addr == None || addr.value < 0 || addr.value > ARENA
              then lists == old(lists) && live == old(live)
              else var c := Chunk(addr.value, OrderOf(size));
                c.ord <= MAX_ORDER && lists == FreeSpec(old(lists), c) && live == old(live) - {c}
      ensures LiveWordsKept(live)
      decreases MAX_ORDER + 1 - OrderOf(size)
    {
      hide WellFormed, Tiles, Linked, FreeSpec, OrderOf, Pow2, Unlist, Push, Aligned;
      if addr == None || addr.value < 0 || addr.value > ARENA {
        return;
      }
      var pow, tmp := Round(size);
      var segx := addr.value;
      ghost var c := Chunk(segx, pow);
      LiveIsBlock(lists, live, c);
      AlignedIsMultiple(segx, pow + 1);
      Pow2Double(pow);
      var segy := if segx % (tmp * 2) == 0 then segx + tmp else segx - tmp;
      var found, prev, i := Find(pow, segy);
      if found {
        TopHasNoBuddy(lists, live, c);
        FreeMerges(lists, c);
        ghost var p := Parent(c);
        assert p == Chunk(if segx < segy then segx else segy, pow + 1);
        Unlink(pow, i, segy, prev, c);
        OrderOfPow2(pow + 1);
        LiveIsBlock(lists, live, p);
        Free(Some(if segx < segy then segx else segy), Pow2(pow + 1));
      } else {
        FreeStops(lists, c);
        Link(pow, segx);
      }
    }
  }
}
