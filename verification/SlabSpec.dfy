/** Slabs and caches (src/kSlab.cpp, src/kCache.cpp) as values: flags, occupancy lists and live objects. */
module SlabSpec {
  import opened Wrappers

  /** A slab: offsets of its header, its flag array and its slots in the buddy arena, and its free flags. */
  datatype Slab = Slab(addr: int, flagsAddr: int, slots: int, flags: seq<bool>)

  /** A cache. discarded is history: headers of slabs shrink has taken apart without freeing them. */
  datatype Cache = Cache(objSize: int, full: seq<Slab>, half: seq<Slab>, empty: seq<Slab>, discarded: seq<int>)

  // ---------------------------------------------------------------- one slab

  /** numOfFreeSlots. */
  function FreeCount(flags: seq<bool>): nat {
    if flags == [] then 0 else (if flags[0] then 1 else 0) + FreeCount(flags[1..])
  }

  /** The first free slot; |flags| when there is none. */
  function FirstFree(flags: seq<bool>): (i: nat)
    ensures i <= |flags|
    ensures forall j :: 0 <= j < i ==> !flags[j]
    ensures i < |flags| ==> flags[i]
  {
    if flags == [] || flags[0] then 0 else 1 + FirstFree(flags[1..])
  }

  predicate IsFull(s: Slab) {
    FreeCount(s.flags) == 0
  }

  predicate IsEmpty(s: Slab) {
    FreeCount(s.flags) == |s.flags|
  }

  function Object(s: Slab, objSize: int, i: int): int {
    s.slots + i * objSize
  }

  /** isHere, whose upper bound takes in the address just past the last slot (src/kSlab.cpp:56). */
  predicate IsHere(s: Slab, objSize: int, ptr: int) {
    s.slots <= ptr <= s.slots + |s.flags| * objSize
  }

  function TakeSlot(s: Slab): Slab {
    var i := FirstFree(s.flags);
    if i < |s.flags| then s.(flags := s.flags[i := false]) else s
  }

  /** The slot an address belongs to, as src/kSlab.cpp:39 computes it. */
  function SlotOf(s: Slab, objSize: int, ptr: int): int
    requires objSize > 0
  {
    (ptr - s.slots) / objSize
  }

  function GiveSlot(s: Slab, i: int): Slab {
    if 0 <= i < |s.flags| then s.(flags := s.flags[i := true]) else s
  }

  /** The addresses of the slots in use. */
  ghost predicate InUse(s: Slab, objSize: int, p: int) {
    exists i :: 0 <= i < |s.flags| && !s.flags[i] && p == Object(s, objSize, i)
  }

  lemma {:induction false} CountUpdate(flags: seq<bool>, i: nat, b: bool)
    requires i < |flags|
    ensures FreeCount(flags[i := b]) == FreeCount(flags) - (if flags[i] then 1 else 0) + (if b then 1 else 0)
    decreases |flags|
  {
    if i == 0 {
      assert flags[0 := b][1..] == flags[1..];
    } else {
      assert flags[i := b][1..] == flags[1..][i - 1 := b];
      CountUpdate(flags[1..], i - 1, b);
    }
  }

  lemma {:induction false} CountBounds(flags: seq<bool>)
    ensures FreeCount(flags) <= |flags|
    ensures FreeCount(flags) == 0 <==> forall i :: 0 <= i < |flags| ==> !flags[i]
    ensures FreeCount(flags) == |flags| <==> forall i :: 0 <= i < |flags| ==> flags[i]
    ensures FirstFree(flags) < |flags| <==> FreeCount(flags) > 0
    decreases |flags|
  {
    if flags != [] {
      CountBounds(flags[1..]);
      assert flags == [flags[0]] + flags[1..];
    }
  }

  // ---------------------------------------------------------------- the lists of a cache

  function RemoveAt(l: seq<Slab>, i: nat): seq<Slab>
    requires i < |l|
  {
    l[..i] + l[i + 1..]
  }

  /** A slab that has just given out a slot goes to the front of the list its occupancy asks for. */
  function File(c: Cache, s: Slab): Cache {
    if IsFull(s) then c.(full := [s] + c.full) else c.(half := [s] + c.half)
  }

  /** alloc from the slabs at hand: the first half-full one, else the first empty one. */
  predicate HasRoom(c: Cache) {
    c.half != [] || c.empty != []
  }

  /** The slab alloc takes a slot from. */
  function Source(c: Cache): Slab
    requires HasRoom(c)
  {
    if c.half != [] then c.half[0] else c.empty[0]
  }

  function AllocSpec(c: Cache): Cache
    requires HasRoom(c)
  {
    if c.half != [] then
      var s := TakeSlot(c.half[0]);
      if IsFull(s) then c.(half := c.half[1..], full := [s] + c.full) else c.(half := c.half[0 := s])
    else File(c.(empty := c.empty[1..]), TakeSlot(c.empty[0]))
  }

  /** alloc with a slab made for the purpose. */
  function AdoptSpec(c: Cache, s: Slab): Cache {
    File(c, TakeSlot(s))
  }

  function AllocObject(s: Slab, objSize: int): int {
    Object(s, objSize, FirstFree(s.flags))
  }

  /** The first slab of a list that claims an address; |l| when none does. */
  function Find(l: seq<Slab>, objSize: int, ptr: int): (i: nat)
    ensures i <= |l|
    ensures i < |l| ==> IsHere(l[i], objSize, ptr)
    ensures forall j :: 0 <= j < i ==> !IsHere(l[j], objSize, ptr)
  {
    if l == [] || IsHere(l[0], objSize, ptr) then 0 else 1 + Find(l[1..], objSize, ptr)
  }

  function Headers(l: seq<Slab>): (r: seq<int>)
    ensures |r| == |l| && forall i :: 0 <= i < |l| ==> r[i] == l[i].addr
  {
    if l == [] then [] else [l[0].addr] + Headers(l[1..])
  }

  /** shrink: all but the first empty slab are taken apart; their headers stay allocated. */
  function ShrinkSpec(c: Cache): Cache {
    if |c.empty| <= 1 then c
    else c.(empty := c.empty[..1], discarded := c.discarded + Headers(c.empty[1..]))
  }

  /** A slab after free has put its slot at ptr back. */
  function Freed(s: Slab, objSize: int, ptr: int): Slab
    requires objSize > 0
  {
    GiveSlot(s, SlotOf(s, objSize, ptr))
  }

  /** A full slab that gets a slot back moves to the front of the list its occupancy asks for. */
  function RefileFull(c: Cache, i: nat, s: Slab): Cache
    requires i < |c.full|
  {
    var c1 := c.(full := RemoveAt(c.full, i));
    if IsEmpty(s) then c1.(empty := [s] + c1.empty) else c1.(half := [s] + c1.half)
  }

  /** A half-full one moves only when it becomes empty. */
  function RefileHalf(c: Cache, j: nat, s: Slab): Cache
    requires j < |c.half|
  {
    if IsEmpty(s) then c.(half := RemoveAt(c.half, j), empty := [s] + c.empty) else c.(half := c.half[j := s])
  }

  /** What free does before shrink: the full slabs are searched first, then the half-full ones. */
  function Refiled(c: Cache, ptr: int): Cache
    requires c.objSize > 0
  {
    var i := Find(c.full, c.objSize, ptr);
    if i < |c.full| then RefileFull(c, i, Freed(c.full[i], c.objSize, ptr))
    else
      var j := Find(c.half, c.objSize, ptr);
      if j < |c.half| then RefileHalf(c, j, Freed(c.half[j], c.objSize, ptr)) else c
  }

  /** free. The source calls shrink only when a slab becomes empty; with at most one empty slab before, shrink does
      nothing in the other cases. */
  function FreeSpec(c: Cache, ptr: int): Cache
    requires c.objSize > 0
  {
    ShrinkSpec(Refiled(c, ptr))
  }

  // ---------------------------------------------------------------- what a cache is

  function Slabs(c: Cache): seq<Slab> {
    c.full + c.half + c.empty
  }

  function Pool(c: Cache): multiset<Slab> {
    multiset(Slabs(c))
  }

  /** The slot areas of two slabs, of size bytes each, share no byte. */
  ghost predicate Disjoint(s: Slab, t: Slab, size: int) {
    s.slots + size <= t.slots || t.slots + size <= s.slots
  }

  /** Every slab is there once, has n slots, and has its slot area for itself. */
  ghost predicate PoolOk(m: multiset<Slab>, n: nat, size: int) {
    && (forall s :: s in m ==> |s.flags| == n && m[s] == 1)
    && (forall s, t :: s in m && t in m && s != t ==> Disjoint(s, t, size))
  }

  /** Every slab is on the list its occupancy asks for, and at most one is empty. */
  ghost predicate Sorted(c: Cache) {
    && (forall s :: s in c.full ==> IsFull(s))
    && (forall s :: s in c.half ==> !IsFull(s) && !IsEmpty(s))
    && (forall s :: s in c.empty ==> IsEmpty(s))
    && |c.empty| <= 1
  }

  /** A cache of slabs with n slots of objSize bytes each in a slot area of size bytes. */
  ghost predicate CacheOk(c: Cache, n: nat, size: int) {
    c.objSize > 0 && n > 0 && n * c.objSize <= size && PoolOk(Pool(c), n, size) && Sorted(c)
  }

  ghost predicate LiveIn(m: multiset<Slab>, objSize: int, p: int) {
    exists s :: s in m && InUse(s, objSize, p)
  }

  /** p is the address of a live object of the cache. */
  ghost predicate Live(c: Cache, p: int) {
    LiveIn(Pool(c), c.objSize, p)
  }
}
