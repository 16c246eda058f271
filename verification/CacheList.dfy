/** src/slabAllocator.cpp: the list of caches, and requests served by size class. */
module CacheListAllocation {
  import opened Wrappers
  import opened PowersOfTwo
  import opened Blocks
  import BuddySpec
  import Arena = BuddyTheorems
  import opened BuddyAllocation
  import opened SlabSpec
  import opened SlabTheorems
  import opened SlabPages
  import opened SlabSystem
  import opened SlabCaches
  import opened SlabAllocation
  import opened KallocServes
  import opened SlabServes
  import opened CacheAllocation
  import SlabRuns

  /** Two caches that share no slab and no flag array. */
  ghost predicate NothingShared(c: KCache, d: KCache)
    reads c, d
  {
    c != d && c.Footprint() !! d.Footprint() && c.Flags() !! d.Flags()
  }

  lemma Old(ds: set<KCache>)
    ensures forall d, s :: d in ds && s in d.Footprint() ==> allocated(s) && allocated(s.freeSlots)
    ensures forall d, f :: d in ds && f in d.Flags() ==> allocated(f)
  {
    forall d | d in ds
      ensures forall s :: s in d.Footprint() ==> allocated(s) && allocated(s.freeSlots)
      ensures forall f :: f in d.Flags() ==> allocated(f)
    {
      d.OldSlabs();
    }
  }

  /** What a cache had: its slabs, its flag arrays and its value. */
  datatype Past = Past(slabs: set<KSlab>, arrays: set<array<bool>>, value: Cache)

  ghost function Present(d: KCache): Past
    reads d, d.Flags()
  {
    Past(d.Footprint(), d.Flags(), d.State())
  }

  ghost function Presents(ds: set<KCache>): map<KCache, Past>
    reads ds, set d, f | d in ds && f in d.Flags() :: f
  {
    map d | d in ds :: Present(d)
  }

  /** The caches of past are in order, apart from c, and as they were. */
  ghost predicate Bystanders(c: KCache, past: map<KCache, Past>)
    reads c, past.Keys, set d, s | d in past && s in d.Footprint() :: s, set d, f | d in past && f in d.Flags() :: f
  {
    forall d :: d in past ==> NothingShared(c, d) && d.Listed() && Present(d) == past[d]
  }

  /** The caches of past are in order and as they were. */
  ghost predicate Kept(past: map<KCache, Past>)
    reads past.Keys, set d, s | d in past && s in d.Footprint() :: s, set d, f | d in past && f in d.Flags() :: f
  {
    forall d :: d in past ==> d.Listed() && Present(d) == past[d]
  }

  /** alloc of a cache changes nothing in caches apart from it. */
  method AllocBeside(c: KCache, ghost past: map<KCache, Past>) returns (ret: Option<int>)
    requires c.Valid() && Bystanders(c, past)
    modifies c, c.Footprint(), c.Flags(), c.buddy, c.buddy.freeChunks, c.buddy.memory
    ensures c.Valid() && (ret, c.Current()) == AllocOne(old(c.Current()), SlotsFor(c.objSize, c.order))
    ensures Bystanders(c, past)
  {
    hide Sound, Elems, SysOk, Vals, AllocOne, SlotsFor, BuddyAllocator.Valid, KCache.Valid, KCache.Current, NoFreeSlot, RoomForSlab;
    Old(past.Keys);
    ret := c.Alloc();
    forall d | d in past
      ensures NothingShared(c, d) && d.Listed() && Present(d) == past[d]
    {
      assert d.Footprint() == old(d.Footprint());
      assert d.Flags() == old(d.Flags());
      assert NothingShared(c, d);
      assert d.Listed();
      assert d.State() == old(d.State());
    }
  }

  /** free likewise. */
  method FreeBeside(c: KCache, ptr: Option<int>, ghost past: map<KCache, Past>) returns (status: int)
    requires c.Valid() && (ptr.Some? ==> InSlot(c.State(), ptr.value)) && Bystanders(c, past)
    modifies c, c.Footprint(), c.Flags(), c.buddy, c.buddy.freeChunks, c.buddy.memory
    ensures c.Valid() && Bystanders(c, past)
    ensures ptr.None? ==> status == -1 && c.Current() == old(c.Current())
    ensures ptr.Some? ==> c.Current() == FreeOne(old(c.Current()), ptr.value) && status == FreeStatus(old(c.State()), ptr.value)
  {
    hide Sound, Elems, SysOk, Vals, FreeOne, FreeStatus, InSlot, IsHere, Searched;
    Old(past.Keys);
    status := c.Free(ptr);
    forall d | d in past
      ensures NothingShared(c, d) && d.Listed() && Present(d) == past[d]
    {
      assert d.Footprint() == old(d.Footprint());
      assert d.Flags() == old(d.Flags());
      assert c.Flags() <= old(c.Flags());
      assert NothingShared(c, d);
      assert d.Listed();
      assert d.State() == old(d.State());
    }
  }

  /** createCache leaves all caches there are alone and shares nothing with them. */
  method CreateBeside(buddy: BuddyAllocator, objSize: int, ghost past: map<KCache, Past>) returns (c: KCache?)
    requires Ready(buddy) && 0 < objSize <= Pow2(MAX_SLAB_ORDER) && Kept(past)
    modifies buddy, buddy.freeChunks, buddy.memory
    ensures Ready(buddy) && Kept(past) && (c == null ==> Mem(buddy) == old(Mem(buddy)))
    ensures var (h, m) := Request(old(Mem(buddy)), CACHE_HEADER);
      && (c == null <==> h.None?)
      && (c != null ==> c.addr == h.value && c.Current() == NewCache(m, objSize, SlotsFor(objSize, c.order)))
    ensures c != null ==> c.Valid() && c.buddy == buddy && c.objSize == objSize && Optimal(objSize, c.order)
    ensures c != null ==> c.Listed() && fresh(c) && c !in past && Bystanders(c, past)
    ensures c != null ==> fresh(c.Footprint()) && fresh(c.Flags())
  {
    hide Sound, Elems, SysOk, Vals, Request, NewCache, SlotsFor, Pow2, Arena.Inv, RoomForSlab, Fits;
    Old(past.Keys);
    c := KCache.CreateCache(buddy, objSize);
    forall d | d in past
      ensures d.Listed() && Present(d) == past[d] && (c != null ==> NothingShared(c, d))
    {
      assert d.Footprint() == old(d.Footprint());
      assert d.Flags() == old(d.Flags());
      assert d.Listed();
      assert d.State() == old(d.State());
    }
  }

  /** destroyCache and the release of the header, which leave the other caches alone. */
  method DestroyBeside(c: KCache, ghost past: map<KCache, Past>)
    requires c.Valid() && Kept(past) && c !in past
    requires ChunkFor(c.addr, CACHE_HEADER) in DestroySys(c.Current()).live
    modifies c, c.buddy, c.buddy.freeChunks, c.buddy.memory
    ensures Ready(c.buddy) && Kept(past)
    ensures Mem(c.buddy) == Release(DestroySys(old(c.Current())), ChunkFor(c.addr, CACHE_HEADER))
  {
    hide Sound, Elems, SysOk, Vals, DestroySys, Release, Arena.Inv, BuddySpec.OrderOf, Rest, HeaderChunks;
    Old(past.Keys);
    c.DestroyCache();
    Put(c.buddy, c.addr, CACHE_HEADER);
    forall d | d in past
      ensures d.Listed() && Present(d) == past[d]
    {
      assert d.Footprint() == old(d.Footprint());
      assert d.Flags() == old(d.Flags());
      assert d.Listed();
      assert d.State() == old(d.State());
    }
  }

  /** isHere of a cache; nothing changes. */
  method ClaimsBeside(c: KCache, ptr: int, ghost past: map<KCache, Past>) returns (b: bool)
    requires c in past && Kept(past) && Ready(c.buddy) && c.objSize > 0 && Differ(Slabs(past[c].value))
    ensures Kept(past) && Ready(c.buddy) && Mem(c.buddy) == old(Mem(c.buddy))
    ensures var l := Searched(past[c].value); b <==> Find(l, c.objSize, ptr) < |l|
  {
    hide Sound, Elems, Vals, Differ, Slabs, IsHere, BuddyAllocator.Valid, Arena.Inv;
    assert c.Listed() && Present(c) == past[c];
    Old(past.Keys);
    b := c.IsInCache(Some(ptr));
    ClaimedBySome(Searched(past[c].value), c.objSize, ptr);
    forall d | d in past
      ensures d.Listed() && Present(d) == past[d]
    {
      assert d.Footprint() == old(d.Footprint());
      assert d.Flags() == old(d.Flags());
      assert d.Listed();
      assert d.State() == old(d.State());
    }
  }

  /** past tells of the caches cs, all different, over one buddy allocator, sharing nothing. */
  ghost predicate AllOf(cs: seq<KCache>, buddy: BuddyAllocator, past: map<KCache, Past>) {
    && past.Keys == (set c | c in cs)
    && (forall a, b :: 0 <= a < b < |cs| ==> cs[a] != cs[b])
    && (forall d :: d in past ==> d.buddy == buddy)
    && forall d, e :: d in past && e in past && d != e ==> past[d].slabs !! past[e].slabs && past[d].arrays !! past[e].arrays
  }

  class SlabAllocator {
    const buddy: BuddyAllocator
    /** The caches from head on. */
    var caches: seq<KCache>

    ghost function Everything(): set<KSlab>
      reads this, caches
    {
      set c, s | c in caches && s in c.Footprint() :: s
    }

    ghost function Arrays(): set<array<bool>>
      reads this, caches
    {
      set c, f | c in caches && f in c.Flags() :: f
    }

    ghost function Members(): (ms: seq<Member>)
      reads this, caches, Arrays()
      ensures |ms| == |caches| && forall i :: 0 <= i < |caches| ==> ms[i] == Member(caches[i].addr, caches[i].State(), caches[i].order)
    {
      seq(|caches|, i requires 0 <= i < |caches| reads this, caches, Arrays() =>
        Member(caches[i].addr, caches[i].State(), caches[i].order))
    }

    /** Different places of the list hold caches that share nothing. */
    ghost predicate Separate()
      reads this, caches
    {
      && (forall i, j :: 0 <= i < j < |caches| ==> caches[i] != caches[j])
      && (forall c, d :: c in caches && d in caches && c != d ==> NothingShared(c, d))
    }

    ghost predicate Valid()
      reads this, caches, Everything(), Arrays(), buddy, buddy.freeChunks, buddy.memory
    {
      && buddy.Valid() && Separate()
      && (forall c :: c in caches ==> c.buddy == buddy && c.Listed())
      && AllOk(Mem(buddy), Members())
    }

    constructor (buddy: BuddyAllocator)
      requires Ready(buddy)
      ensures Valid() && this.buddy == buddy && caches == []
    {
      this.buddy, caches := buddy, [];
      new;
      assert Members() == [];
    }

    ghost function Others(i: nat): (ds: set<KCache>)
      reads this
      requires i < |caches|
    {
      set c | c in caches && c != caches[i]
    }

    lemma CacheValid(i: nat)
      requires Valid() && i < |caches|
      ensures caches[i].Valid() && caches[i].buddy == buddy
      ensures Members()[i] == Member(caches[i].addr, caches[i].State(), caches[i].order)
    {
    }

    /** The caches but the i-th share nothing with each other. */
    ghost predicate Aside(i: nat, past: map<KCache, Past>)
      reads this
    {
      && i < |caches| && past.Keys == Others(i)
      && (forall a, b :: 0 <= a < b < |caches| ==> caches[a] != caches[b])
      && caches[i].buddy == buddy && (forall d :: d in past ==> d.buddy == buddy)
      && forall d, e :: d in past && e in past && d != e ==> past[d].slabs !! past[e].slabs && past[d].arrays !! past[e].arrays
    }

    lemma Before(i: nat) returns (past: map<KCache, Past>)
      requires Valid() && i < |caches|
      ensures Aside(i, past) && Bystanders(caches[i], past)
      ensures forall j :: 0 <= j < |caches| && j != i ==> caches[j] in past && Members()[j].cache == past[caches[j]].value
    {
      hide AllOk, Sound, Vals, Elems, BuddyAllocator.Valid, KCache.Footprint, KCache.Flags, KCache.State, KCache.Listed;
      var all := Now();
      past := all - {caches[i]};
      forall d | d in past
        ensures NothingShared(caches[i], d)
      {
        assert d in caches;
      }
      assert caches[i] in caches;
      forall j | 0 <= j < |caches| && j != i
        ensures caches[j] in past && Members()[j].cache == past[caches[j]].value
      {
        Apart(i, j, all);
        assert Members()[j] == Recalled(all, j);
      }
    }

    /** After work on the i-th cache the list is in order again. */
    lemma Together(i: nat, ms: seq<Member>, past: map<KCache, Past>)
      requires Aside(i, past) && caches[i].Listed() && buddy.Valid() && Bystanders(caches[i], past)
      requires |ms| == |caches| && ms[i] == Member(caches[i].addr, caches[i].State(), caches[i].order)
      requires forall j :: 0 <= j < |caches| && j != i ==>
                 (caches[j] in past && ms[j] == Member(caches[j].addr, past[caches[j]].value, caches[j].order))
      requires AllOk(Mem(buddy), ms)
      ensures Valid() && Members() == ms
    {
      hide AllOk, Sound, SysOk, Vals;
      assert forall c :: c in caches ==> c == caches[i] || c in past;
      forall d, e | d in caches && e in caches && d != e
        ensures NothingShared(d, e)
      {
        if d != caches[i] && e != caches[i] {
          assert past[d].slabs !! past[e].slabs && past[d].arrays !! past[e].arrays;
        }
      }
      assert Members() == ms;
    }

    /** alloc of the i-th cache. */
    method AllocAt(i: nat) returns (ret: Option<int>)
      requires Valid() && i < |caches|
      modifies caches[i], caches[i].Footprint(), caches[i].Flags(), buddy, buddy.freeChunks, buddy.memory
      ensures Valid()
      ensures var mb := old(Members()[i]);
        var (r, s') := AllocOne(Sys(old(Mem(buddy)), mb.cache), SlotsFor(mb.cache.objSize, mb.order));
        ret == r && Mem(buddy) == s'.mem && Members() == old(Members())[i := mb.(cache := s'.cache)]
    {
      hide Arena.Inv, SysOk, AllOk, AllocOne, SlotsFor, KCache.Valid, Bystanders, Aside;
      CacheValid(i);
      WorkSpec(i);
      ghost var past := Before(i);
      ghost var ms := Members();
      ret := AllocBeside(caches[i], past);
      caches[i].InList();
      Together(i, ms[i := ms[i].(cache := caches[i].State())], past);
    }

    lemma WorkSpec(i: nat)
      requires Valid() && i < |caches|
      ensures var c := caches[i];
        var s' := AllocOne(c.Current(), SlotsFor(c.objSize, c.order)).1;
        AllOk(s'.mem, Members()[i := Members()[i].(cache := s'.cache)])
    {
      hide AllocOne;
      var c := caches[i];
      assert Members()[i].cache == c.State();
      AllocOneKeeps(c.Current(), c.order);
      WorkKeepsAll(Mem(buddy), Members(), i, AllocOne(c.Current(), SlotsFor(c.objSize, c.order)).1);
    }

    // -------------------------------------------------------------- the list of caches

    lemma ArenaReady()
      requires Valid()
      ensures Ready(buddy) && AllOk(Mem(buddy), Members())
    {
    }

    ghost function Elements(): set<KCache>
      reads this
    {
      set c | c in caches
    }

    lemma NowKept()
      requires Valid()
      ensures Kept(Presents(Elements()))
    {
      hide AllOk, Sound, Vals;
    }

    lemma NowApart()
      requires Valid()
      ensures AllOf(caches, buddy, Presents(Elements()))
    {
      hide AllOk, Sound, Vals, KCache.Footprint, KCache.Flags, KCache.State, KCache.Listed;
    }

    lemma NowRecalled()
      requires Valid()
      ensures Recalls(Members(), Presents(Elements()))
    {
      hide AllOk, Sound, Vals;
    }

    /** What all caches have. */
    lemma Now() returns (past: map<KCache, Past>)
      requires Valid()
      ensures AllOf(caches, buddy, past) && Kept(past) && Recalls(Members(), past)
    {
      past := Presents(Elements());
      NowKept();
      NowApart();
      NowRecalled();
    }

    /** ms is the list's caches as past tells of them. */
    ghost predicate Recalls(ms: seq<Member>, past: map<KCache, Past>)
      reads this
    {
      |ms| == |caches| && forall j :: 0 <= j < |caches| ==> caches[j] in past && ms[j] == Recalled(past, j)
    }

    ghost function Recalled(past: map<KCache, Past>, j: nat): Member
      reads this
      requires j < |caches| && caches[j] in past
    {
      Member(caches[j].addr, past[caches[j]].value, caches[j].order)
    }

    /** When all caches are as they were, the list is in order. */
    lemma Again(ms: seq<Member>, past: map<KCache, Past>)
      requires AllOf(caches, buddy, past) && Kept(past) && Ready(buddy)
      requires Recalls(ms, past) && AllOk(Mem(buddy), ms)
      ensures Valid() && Members() == ms
    {
      hide AllOk, Sound, SysOk, Vals, Arena.Inv;
      forall d, e | d in caches && e in caches && d != e
        ensures NothingShared(d, e)
      {
        assert past[d].slabs !! past[e].slabs && past[d].arrays !! past[e].arrays;
      }
      assert Members() == ms;
    }

    /** A new cache at the head of the list. */
    lemma Headed(cs: seq<KCache>, past: map<KCache, Past>)
      requires caches != [] && caches[1..] == cs && AllOf(cs, buddy, past) && caches[0] !in past && caches[0].buddy == buddy
      ensures Aside(0, past)
    {
      assert caches == [caches[0]] + cs;
    }

    /** A new cache goes to the head of the list. */
    method CreateCache(objSize: int) returns (c: KCache?)
      requires Valid() && 0 < objSize <= Pow2(MAX_SLAB_ORDER)
      modifies this`caches, buddy, buddy.freeChunks, buddy.memory
      ensures Valid()
      ensures c == null ==> caches == old(caches) && Mem(buddy) == old(Mem(buddy)) && Members() == old(Members())
      ensures var (h, m) := Request(old(Mem(buddy)), CACHE_HEADER);
        && (c == null <==> h.None?)
        && (c != null ==>
              var s := NewCache(m, objSize, SlotsFor(objSize, c.order));
              fresh(c) && caches == [c] + old(caches) && Mem(buddy) == s.mem && Optimal(objSize, c.order)
              && Members() == [Member(h.value, s.cache, c.order)] + old(Members()))
      ensures c != null ==> c.objSize == objSize && fresh(c.Footprint()) && fresh(c.Flags())
    {
      hide Arena.Inv, SysOk, AllOk, SlotsFor, Pow2, KCache.Valid, Bystanders, AllOf, Kept, Request, NewCache, Optimal, Recalls,
           Sound, Vals, Elems, BuddyAllocator.Valid;
      ghost var past := Now();
      ghost var ms := Members();
      ghost var m0 := Mem(buddy);
      ArenaReady();
      c := CreateBeside(buddy, objSize, past);
      if c == null {
        Again(ms, past);
      } else {
        CreateKeepsAll(m0, ms, objSize, c.order);
        PutHead(c, ms, past);
      }
    }

    method PutHead(c: KCache, ghost ms: seq<Member>, ghost past: map<KCache, Past>)
      requires AllOf(caches, buddy, past) && Recalls(ms, past) && Bystanders(c, past) && c !in past
      requires c.Listed() && c.buddy == buddy && Ready(buddy)
      requires AllOk(Mem(buddy), [Member(c.addr, c.State(), c.order)] + ms)
      modifies this`caches
      ensures Valid() && caches == [c] + old(caches) && Members() == [Member(c.addr, c.State(), c.order)] + ms
      ensures c.Footprint() == old(c.Footprint()) && c.Flags() == old(c.Flags()) && c.State() == old(c.State())
    {
      hide AllOk, AllOf, Bystanders, Arena.Inv, Sound, Vals, Elems, BuddyAllocator.Valid, Aside, KCache.Flags;
      ghost var slabs, cs := c.Footprint(), caches;
      ghost var mb := Member(c.addr, c.State(), c.order);
      assert forall j :: 0 <= j < |cs| ==> cs[j] in past && ms[j] == Recalled(past, j);
      caches := [c] + caches;
      assert c.Footprint() == slabs;
      Headed(cs, past);
      forall j | 0 <= j < |caches| && j != 0
        ensures caches[j] in past && ([mb] + ms)[j] == Member(caches[j].addr, past[caches[j]].value, caches[j].order)
      {
        assert caches[j] == cs[j - 1] && ([mb] + ms)[j] == ms[j - 1];
      }
      Together(0, [mb] + ms, past);
    }

    /** destroyCache of a cache outside the list, and the release of its header. */
    method Demolish(c: KCache, ghost ms: seq<Member>, ghost past: map<KCache, Past>)
      requires AllOf(caches, buddy, past) && Recalls(ms, past) && Kept(past) && c !in past
      requires c.Valid() && c.buddy == buddy
      requires AllOk(Mem(buddy), [Member(c.addr, c.State(), c.order)] + ms)
      modifies c, buddy, buddy.freeChunks, buddy.memory
      ensures Valid() && Members() == ms
      ensures Mem(buddy) == Release(DestroySys(old(c.Current())), ChunkFor(c.addr, CACHE_HEADER))
      ensures multiset(buddy.live) == old(multiset(buddy.live) - Holds(Member(c.addr, c.State(), c.order))) + HeaderChunks(old(c.discarded))
    {
      hide AllOk, AllOf, Arena.Inv, Sound, Vals, Elems, KCache.Valid, BuddyAllocator.Valid, Recalls, Kept, DestroySys, Release,
           HeaderChunks, Holds, BuddySpec.OrderOf;
      DestroyFront(Mem(buddy), Member(c.addr, c.State(), c.order), ms);
      DestroyBeside(c, past);
      Again(ms, past);
    }

    /** What is known of the i-th cache and the others before it is taken off the list. */
    lemma Parted(i: nat) returns (ms: seq<Member>, past: map<KCache, Past>)
      requires Valid() && i < |caches|
      ensures var c := caches[i];
        var cs := caches[..i] + caches[i + 1..];
        && ms == Without(Members(), i) && |ms| == |cs|
        && c !in past && AllOf(cs, buddy, past) && Kept(past)
        && (forall j :: 0 <= j < |cs| ==> cs[j] in past && ms[j] == Member(cs[j].addr, past[cs[j]].value, cs[j].order))
        && c.Valid() && c.buddy == buddy && AllOk(Mem(buddy), [Member(c.addr, c.State(), c.order)] + ms)
    {
      hide AllOk, AllOf, Arena.Inv, Sound, Vals, Elems, KCache.Valid, BuddyAllocator.Valid, Kept;
      CacheValid(i);
      var all := Now();
      var ms0, cs := Members(), caches[..i] + caches[i + 1..];
      ToFront(Mem(buddy), ms0, i);
      past := all - {caches[i]};
      ms := Without(ms0, i);
      AllOfWithout(caches, i, buddy, all);
      KeptPart(all, caches[i]);
      forall j | 0 <= j < |cs|
        ensures cs[j] in past && ms[j] == Member(cs[j].addr, past[cs[j]].value, cs[j].order)
      {
        var j' := if j < i then j else j + 1;
        assert cs[j] == caches[j'] && ms[j] == ms0[j'] && ms0[j'] == Recalled(all, j');
        Apart(i, j', all);
      }
    }

    lemma Apart(i: nat, j: nat, all: map<KCache, Past>)
      requires i < |caches| && j < |caches| && i != j && AllOf(caches, buddy, all)
      ensures caches[i] != caches[j]
    {
      assert i < j || j < i;
    }

    method Unlink(i: nat, ghost ms: seq<Member>, ghost past: map<KCache, Past>)
      requires i < |caches| && caches[i].Valid() && Kept(past) && |ms| == |caches| - 1
      requires var cs := caches[..i] + caches[i + 1..];
        forall j :: 0 <= j < |cs| ==> cs[j] in past && ms[j] == Member(cs[j].addr, past[cs[j]].value, cs[j].order)
      modifies this`caches
      ensures caches == old(caches[..i] + caches[i + 1..])
      ensures Recalls(ms, past) && Kept(past) && Mem(buddy) == old(Mem(buddy))
      ensures var c := old(caches[i]); c.Valid() && c.Current() == old(caches[i].Current())
    {
      hide Sound, Vals, Elems, Kept, SysOk, BuddyAllocator.Valid;
      ghost var c, slabs, arrays := caches[i], caches[i].Footprint(), caches[i].Flags();
      caches := caches[..i] + caches[i + 1..];
      assert c.Footprint() == slabs && c.Flags() == arrays;
    }

    /** destroyCache: takes the cache off the list if it is there, and gives back all its chunks but the headers of
        slabs shrink has dropped. A cache outside the list must share nothing with the listed ones. */
    method DestroyCache(cache: KCache?)
      requires Valid()
      requires cache != null && cache !in caches ==>
        && cache.Valid() && cache.buddy == buddy
        && AllOk(Mem(buddy), [Member(cache.addr, cache.State(), cache.order)] + Members())
      modifies this`caches, cache, buddy, buddy.freeChunks, buddy.memory
      ensures Valid()
      ensures cache == null ==> caches == old(caches) && Mem(buddy) == old(Mem(buddy)) && Members() == old(Members())
      ensures cache != null ==>
        && Mem(buddy) == Release(DestroySys(old(cache.Current())), ChunkFor(cache.addr, CACHE_HEADER))
        && multiset(buddy.live) == old(multiset(buddy.live) - Holds(Member(cache.addr, cache.State(), cache.order)))
                                   + HeaderChunks(old(cache.discarded))
        && if cache in old(caches) then
             exists i :: 0 <= i < |old(caches)| && old(caches)[i] == cache && Members() == Without(old(Members()), i)
           else Members() == old(Members())
    {
      hide AllOk, AllOf, Arena.Inv, Sound, Vals, Elems, KCache.Valid, BuddyAllocator.Valid, Kept, Recalls, DestroySys, Release,
           HeaderChunks, Holds, Separate, BuddySpec.OrderOf;
      if cache == null {
        return;
      }
      var i := 0;
      while i < |caches| && caches[i] != cache
        invariant 0 <= i <= |caches| && cache !in caches[..i]
        decreases |caches| - i
      {
        i := i + 1;
      }
      ghost var ms, past;
      if i < |caches| {
        ms, past := Parted(i);
        Unlink(i, ms, past);
      } else {
        ms := Members();
        past := Now();
      }
      Demolish(cache, ms, past);
    }

    // -------------------------------------------------------------- kalloc and kfree

    /** free of an address in a slot of the i-th cache. */
    method FreeAt(i: nat, ptr: int)
      requires Valid() && i < |caches| && InSlot(Members()[i].cache, ptr)
      modifies caches[i], caches[i].Footprint(), caches[i].Flags(), buddy, buddy.freeChunks, buddy.memory
      ensures Valid() && old(Members()[i]).cache.objSize > 0
      ensures var mb := old(Members()[i]);
        var s' := FreeOne(Sys(old(Mem(buddy)), mb.cache), ptr);
        Mem(buddy) == s'.mem && Members() == old(Members())[i := mb.(cache := s'.cache)]
    {
      hide Arena.Inv, SysOk, AllOk, FreeOne, FreeStatus, InSlot, KCache.Valid, Bystanders, Aside;
      CacheValid(i);
      FreeSpecAt(i, ptr);
      ghost var past := Before(i);
      ghost var ms := Members();
      var status := FreeBeside(caches[i], Some(ptr), past);
      caches[i].InList();
      Together(i, ms[i := ms[i].(cache := caches[i].State())], past);
    }

    lemma FreeSpecAt(i: nat, ptr: int)
      requires Valid() && i < |caches| && InSlot(Members()[i].cache, ptr)
      ensures caches[i].objSize > 0
      ensures var s' := FreeOne(caches[i].Current(), ptr);
        AllOk(s'.mem, Members()[i := Members()[i].(cache := s'.cache)])
    {
      var c := caches[i];
      assert Members()[i].cache == c.State();
      SlabRuns.SystemOk(c.Current(), c.order);
      hide FreeOne, InSlot;
      FreeOneOrderly(c.Current(), c.order, ptr);
      WorkKeepsAll(Mem(buddy), Members(), i, FreeOne(c.Current(), ptr));
    }

    /** Some cache owns ptr, and no slab searched before the owner ends there. */
    ghost predicate Reaches(ptr: int)
      reads this, caches, Arrays()
    {
      exists k :: RoutedIn(Members(), ptr, k)
    }

    /** Callers may free what they hold, if it routes to its owner. */
    lemma MayFree(ptr: int)
      requires Valid() && Reaches(ptr)
      ensures Claiming(Members(), ptr) < |caches| && InSlot(Members()[Claiming(Members(), ptr)].cache, ptr)
      ensures LiveAny(Members(), ptr)
    {
      SizesPositive(Mem(buddy), Members());
      hide AllOk, RoutedIn, Claiming, InSlot, LiveAny;
      KfreeReaches(Mem(buddy), Members(), ptr);
    }

    /** Gives ptr to the first cache of the list that claims it. 0 when there is one, -1 otherwise. A live object that
        routes to its owner is gone afterwards, and nothing else. */
    method KfreeRequest(ptr: Option<int>) returns (status: int)
      requires Valid()
      requires ptr.Some? ==> var k := Claiming(Members(), ptr.value);
        k < |caches| ==> InSlot(Members()[k].cache, ptr.value)
      modifies caches, Everything(), Arrays(), buddy, buddy.freeChunks, buddy.memory
      ensures Valid() && forall i :: 0 <= i < |old(Members())| ==> old(Members())[i].cache.objSize > 0
      ensures ptr.None? ==> status == -1 && Mem(buddy) == old(Mem(buddy)) && Members() == old(Members())
      ensures ptr.Some? ==>
                && (Mem(buddy), Members()) == Kfree(old(Mem(buddy)), old(Members()), ptr.value)
                && status == if Claiming(old(Members()), ptr.value) < |old(Members())| then 0 else -1
      ensures ptr.Some? && old(Reaches(ptr.value)) ==>
                status == 0 && forall q :: LiveAny(Members(), q) <==> LiveAny(old(Members()), q) && q != ptr.value
    {
      hide AllOk, Sound, Vals, Elems, BuddyAllocator.Valid, Separate, FreeOne, Claiming, InSlot, Find, KCache.Footprint, KCache.Flags,
           RoutedIn, LiveAny;
      SizesPositive(Mem(buddy), Members());
      if ptr == None {
        return -1;
      }
      if Reaches(ptr.value) {
        KfreeReaches(Mem(buddy), Members(), ptr.value);
      }
      ghost var all, arrays := Everything(), Arrays();
      OldAll();
      var i := FindClaiming(ptr.value);
      if i == |caches| {
        return -1;
      }
      InReach(i);
      FreeAt(i, ptr.value);
      return 0;
    }

    lemma OldAll()
      ensures forall s :: s in Everything() ==> allocated(s)
      ensures forall f :: f in Arrays() ==> allocated(f)
    {
      Old(Elements());
    }

    /** The first cache of the list with a slab that claims ptr. */
    method FindClaiming(ptr: int) returns (i: nat)
      requires Valid()
      ensures Valid() && i == Claiming(Members(), ptr)
      ensures Mem(buddy) == old(Mem(buddy)) && Members() == old(Members())
      ensures Everything() == old(Everything()) && Arrays() == old(Arrays())
    {
      hide AllOk, Sound, Vals, Elems, BuddyAllocator.Valid, Separate, Claiming, Kept, AllOf, Find;
      SizesPositive(Mem(buddy), Members());
      ghost var past := Now();
      ghost var ms, m := Members(), Mem(buddy);
      ArenaReady();
      AllDiffer();
      SameReach(past);
      i := 0;
      var found := false;
      while i < |caches| && !found
        invariant 0 <= i <= |caches|
        invariant Kept(past) && Ready(buddy) && Mem(buddy) == m
        invariant forall j :: 0 <= j < i ==> !Claims(ms[j].cache, ptr)
        invariant found ==> i < |caches| && Claims(ms[i].cache, ptr)
        decreases |caches| - i, !found
      {
        found := ClaimsBeside(caches[i], ptr, past);
        if !found {
          i := i + 1;
        }
      }
      ClaimingIs(ms, ptr, i);
      Again(ms, past);
      SameReach(past);
    }

    /** The slabs and arrays of the list, as past tells of them. */
    lemma SameReach(past: map<KCache, Past>)
      requires past.Keys == Elements() && Kept(past)
      ensures Everything() == set c, s | c in past && s in past[c].slabs :: s
      ensures Arrays() == set c, f | c in past && f in past[c].arrays :: f
    {
      hide KCache.Footprint, KCache.Flags, KCache.Listed, KCache.State;
      assert forall c :: c in past <==> c in caches;
      forall c | c in past
        ensures c.Footprint() == past[c].slabs && c.Flags() == past[c].arrays
      {
        assert Present(c) == past[c];
      }
    }

    lemma AllDiffer()
      requires Valid()
      ensures forall i :: 0 <= i < |caches| ==> Differ(Slabs(Members()[i].cache))
    {
      forall i | 0 <= i < |caches|
        ensures Differ(Slabs(Members()[i].cache))
      {
        CacheValid(i);
        caches[i].SystemFacts();
      }
    }

    /** Serves a request of up to 2^17 bytes from the first cache of its size class, or from a new one. */
    method KallocRequest(size: int) returns (ret: Option<int>)
      requires Valid()
      modifies this`caches, caches, Everything(), Arrays(), buddy, buddy.freeChunks, buddy.memory
      ensures Valid()
      ensures (ret, Mem(buddy), Members()) == Kalloc(old(Mem(buddy)), old(Members()), size)
      ensures ret.None? <==> size > 131072 || !Serves(old(Mem(buddy)), old(Members()), Class(size))
      ensures size <= 131072 ==> OnlyClassChanges(old(Mem(buddy)), old(Members()), Members(), Class(size))
      ensures GainsAny(old(Members()), ret, Members())
    {
      hide AllOk, Class, Kalloc, Sound, Vals, Elems, BuddyAllocator.Valid, Separate, Serves, OnlyClassChanges, GainsAny;
      ArenaReady();
      KallocExactly(Mem(buddy), Members(), size);
      KallocRefines(Mem(buddy), Members(), size);
      SmallLimit();
      if size > 131072 {
        KallocRefused(Mem(buddy), Members(), size);
        return None;
      }
      var n := if size < 32 then 32 else size;
      ghost var j := 5;
      var tmp := 32;
      ThirtyTwo();
      while tmp < n
        invariant j >= 5 && tmp == Pow2(j) && ClassFrom(n, j) == ClassFrom(n, 5)
        decreases n - tmp
      {
        tmp, j := tmp * 2, j + 1;
      }
      hide Pow2;
      ClassIs(size, j);
      ret := Serve(tmp, j);
      KallocWithin(old(Mem(buddy)), old(Members()), size);
    }

    /** Serves a request of size class 2^j. */
    method Serve(tmp: int, ghost j: nat) returns (ret: Option<int>)
      requires Valid() && 5 <= j <= 17 && tmp == Pow2(j)
      modifies this`caches, caches, Everything(), Arrays(), buddy, buddy.freeChunks, buddy.memory
      ensures Valid()
      ensures (ret, Mem(buddy), Members()) == KallocClass(old(Mem(buddy)), old(Members()), j)
    {
      hide AllOk, Pow2, Sound, Vals, Elems, BuddyAllocator.Valid, Separate, AllocOne, SlotsFor, KallocNew;
      var i := 0;
      while i < |caches| && caches[i].objSize != tmp
        invariant 0 <= i <= |caches| && forall k :: 0 <= k < i ==> Members()[k].cache.objSize != tmp
        decreases |caches| - i
      {
        i := i + 1;
      }
      FirstOfSizeIs(Members(), tmp, i);
      if i < |caches| {
        InReach(i);
        ret := AllocAt(i);
      } else {
        ret := ServeNew(tmp, j);
      }
    }

    lemma InReach(i: nat)
      requires i < |caches|
      ensures caches[i].Footprint() <= Everything() && caches[i].Flags() <= Arrays()
    {
    }

    /** Makes a cache for size class 2^j and takes an object from it. */
    method ServeNew(tmp: int, ghost j: nat) returns (ret: Option<int>)
      requires Valid() && 5 <= j <= 17 && tmp == Pow2(j)
      modifies this`caches, buddy, buddy.freeChunks, buddy.memory
      ensures Valid()
      ensures (ret, Mem(buddy), Members()) == KallocNew(old(Mem(buddy)), old(Members()), j)
    {
      hide AllOk, Pow2, Sound, Vals, Elems, BuddyAllocator.Valid, Separate, AllocOne, SlotsFor, NewCache, Request, Optimal;
      ClassFitsSlab(j);
      var c := CreateCache(tmp);
      if c == null {
        return None;
      }
      ClassOptimal(j);
      OptimalUnique(tmp, c.order, ClassOrder(j));
      NewSizes(tmp, ClassOrder(j));
      ret := AllocHead();
    }

    lemma NewSizes(objSize: int, k: nat)
      requires objSize > 0
      ensures forall m: Arena.State :: NewCache(m, objSize, SlotsFor(objSize, k)).cache.objSize == objSize
    {
    }

    method AllocHead() returns (ret: Option<int>)
      requires Valid() && caches != []
      modifies caches[0], caches[0].Footprint(), caches[0].Flags(), buddy, buddy.freeChunks, buddy.memory
      ensures Valid()
      ensures var mb := old(Members()[0]);
        var (r, s') := AllocOne(Sys(old(Mem(buddy)), mb.cache), SlotsFor(mb.cache.objSize, mb.order));
        ret == r && Mem(buddy) == s'.mem && Members() == [mb.(cache := s'.cache)] + old(Members())[1..]
    {
      hide AllOk, Sound, Vals, Elems, BuddyAllocator.Valid, Separate, AllocOne, SlotsFor, Mem;
      ret := AllocAt(0);
    }
  }

  /** Some slab of the cache that is searched claims ptr. */
  predicate Claims(c: Cache, ptr: int) {
    Find(Searched(c), c.objSize, ptr) < |Searched(c)|
  }

  lemma {:induction false} ClaimingIs(ms: seq<Member>, ptr: int, i: nat)
    requires i <= |ms| && (i < |ms| ==> Claims(ms[i].cache, ptr)) && forall j :: 0 <= j < i ==> !Claims(ms[j].cache, ptr)
    ensures i == Claiming(ms, ptr)
    decreases i
  {
    hide Find;
    if i > 0 {
      assert forall j :: 0 <= j < i - 1 ==> ms[1..][j] == ms[j + 1];
      ClaimingIs(ms[1..], ptr, i - 1);
    }
  }

  lemma AllOfWithout(cs: seq<KCache>, i: nat, buddy: BuddyAllocator, all: map<KCache, Past>)
    requires i < |cs| && AllOf(cs, buddy, all)
    ensures AllOf(cs[..i] + cs[i + 1..], buddy, all - {cs[i]})
  {
    var l, c := cs[..i] + cs[i + 1..], cs[i];
    forall d
      ensures d in l <==> d in cs && d != c
    {
      WithoutElements(cs, i, d);
    }
    forall a, b | 0 <= a < b < |l|
      ensures l[a] != l[b]
    {
      var a', b' := if a < i then a else a + 1, if b < i then b else b + 1;
      assert l[a] == cs[a'] && l[b] == cs[b'] && a' < b';
    }
  }

  lemma WithoutElements(cs: seq<KCache>, i: nat, d: KCache)
    requires i < |cs| && forall a, b :: 0 <= a < b < |cs| ==> cs[a] != cs[b]
    ensures d in cs[..i] + cs[i + 1..] <==> d in cs && d != cs[i]
  {
    var l := cs[..i] + cs[i + 1..];
    if d in l {
      var a :| 0 <= a < |l| && l[a] == d;
      assert l[a] == cs[if a < i then a else a + 1];
    }
    if d in cs && d != cs[i] {
      var a :| 0 <= a < |cs| && cs[a] == d;
      assert l[if a < i then a else a - 1] == d;
    }
  }

  lemma KeptPart(all: map<KCache, Past>, c: KCache)
    requires Kept(all)
    ensures Kept(all - {c})
  {
  }

  lemma KallocRefused(m: Arena.State, ms: seq<Member>, size: int)
    requires size > Pow2(17)
    ensures Kalloc(m, ms, size) == (None, m, ms)
  {
  }

  lemma KallocWithin(m: Arena.State, ms: seq<Member>, size: int)
    requires size <= Pow2(17)
    ensures Kalloc(m, ms, size) == KallocClass(m, ms, Class(size))
  {
  }

  lemma ThirtyTwo()
    ensures Pow2(5) == 32
  {
  }

  lemma ClassFitsSlab(j: nat)
    requires 5 <= j <= 17
    ensures 0 < Pow2(j) <= Pow2(MAX_SLAB_ORDER)
  {
    Pow2Monotone(MAX_SLAB_ORDER, j);
  }

  /** Where the rounding loop stops. */
  lemma ClassIs(size: int, j: nat)
    requires size <= Pow2(17) && j >= 5
    requires var n := if size < 32 then 32 else size; Pow2(j) >= n && ClassFrom(n, j) == ClassFrom(n, 5)
    ensures j == Class(size) && 5 <= j <= 17
  {
    ClassIsLeast(size);
  }

  lemma FirstOfSizeIs(ms: seq<Member>, objSize: int, i: nat)
    requires i <= |ms| && (i < |ms| ==> ms[i].cache.objSize == objSize)
    requires forall k :: 0 <= k < i ==> ms[k].cache.objSize != objSize
    ensures i == FirstOfSize(ms, objSize)
  {
  }
}
