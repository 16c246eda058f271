/** A cache refines a set of live objects, and frees reach the slab that owns the object. */
module SlabTheorems {
  import opened Wrappers
  import opened PowersOfTwo
  import opened SlabSpec

  // ---------------------------------------------------------------- slots

  lemma ObjectsDiffer(s: Slab, objSize: int, i: int, j: int)
    requires objSize > 0 && i < j
    ensures Object(s, objSize, i) + objSize <= Object(s, objSize, j)
  {
    MulMonotone(i + 1, j, objSize);
  }

  lemma ObjectInside(s: Slab, objSize: int, i: int, size: int)
    requires objSize > 0 && 0 <= i < |s.flags| && |s.flags| * objSize <= size
    ensures s.slots <= Object(s, objSize, i) && Object(s, objSize, i) + objSize <= s.slots + size
    ensures IsHere(s, objSize, Object(s, objSize, i))
  {
    MulMonotone(0, i, objSize);
    MulMonotone(i + 1, |s.flags|, objSize);
  }

  lemma SlotOfObject(s: Slab, objSize: int, i: int)
    requires objSize > 0
    ensures SlotOf(s, objSize, Object(s, objSize, i)) == i
  {
    DivModUnique(i * objSize, objSize, i, 0);
  }

  /** Taking a slot makes exactly its address live. */
  lemma TakeUses(s: Slab, objSize: int, p: int)
    requires objSize > 0 && !IsFull(s)
    ensures InUse(TakeSlot(s), objSize, p) <==> InUse(s, objSize, p) || p == AllocObject(s, objSize)
    ensures !InUse(s, objSize, AllocObject(s, objSize))
    ensures FreeCount(TakeSlot(s).flags) == FreeCount(s.flags) - 1
  {
    CountBounds(s.flags);
    var f := FirstFree(s.flags);
    CountUpdate(s.flags, f, false);
    var t := TakeSlot(s);
    if InUse(s, objSize, p) {
      var i :| 0 <= i < |s.flags| && !s.flags[i] && p == Object(s, objSize, i);
      assert !t.flags[i];
    }
    if InUse(t, objSize, p) {
      var i :| 0 <= i < |t.flags| && !t.flags[i] && p == Object(t, objSize, i);
      assert i != f ==> !s.flags[i];
    }
    if InUse(s, objSize, AllocObject(s, objSize)) {
      var i :| 0 <= i < |s.flags| && !s.flags[i] && AllocObject(s, objSize) == Object(s, objSize, i);
      if i < f { ObjectsDiffer(s, objSize, i, f); } else if f < i { ObjectsDiffer(s, objSize, f, i); }
    }
    assert !t.flags[f] && AllocObject(s, objSize) == Object(t, objSize, f);
  }

  /** Giving a slot back makes exactly its address not live. */
  lemma GiveFrees(s: Slab, objSize: int, i: int, p: int)
    requires objSize > 0 && 0 <= i < |s.flags| && !s.flags[i]
    ensures InUse(GiveSlot(s, i), objSize, p) <==> InUse(s, objSize, p) && p != Object(s, objSize, i)
    ensures FreeCount(GiveSlot(s, i).flags) == FreeCount(s.flags) + 1
  {
    CountUpdate(s.flags, i, true);
    var t := GiveSlot(s, i);
    if InUse(s, objSize, p) && p != Object(s, objSize, i) {
      var j :| 0 <= j < |s.flags| && !s.flags[j] && p == Object(s, objSize, j);
      assert !t.flags[j];
    }
    if InUse(t, objSize, p) {
      var j :| 0 <= j < |t.flags| && !t.flags[j] && p == Object(t, objSize, j);
      if i < j { ObjectsDiffer(s, objSize, i, j); } else if j < i { ObjectsDiffer(s, objSize, j, i); }
      assert !s.flags[j];
    }
  }

  /** Objects of different slabs have different addresses. */
  lemma SlabsApart(m: multiset<Slab>, n: nat, size: int, objSize: int, s: Slab, t: Slab, p: int)
    requires PoolOk(m, n, size) && objSize > 0 && n * objSize <= size && s in m && t in m
    requires InUse(s, objSize, p) && InUse(t, objSize, p)
    ensures s == t
  {
    var i :| 0 <= i < |s.flags| && !s.flags[i] && p == Object(s, objSize, i);
    var j :| 0 <= j < |t.flags| && !t.flags[j] && p == Object(t, objSize, j);
    ObjectInside(s, objSize, i, size);
    ObjectInside(t, objSize, j, size);
  }

  // ---------------------------------------------------------------- pools

  /** Replacing a slab by one with the same slot area. */
  lemma ReplaceOk(m: multiset<Slab>, n: nat, size: int, s: Slab, t: Slab)
    requires PoolOk(m, n, size) && s in m && size > 0 && t.slots == s.slots && |t.flags| == n
    ensures PoolOk(m - multiset{s} + multiset{t}, n, size)
    ensures t in m ==> t == s
  {
    assert forall u :: u in m - multiset{s} ==> u in m && u != s;
  }

  lemma AddOk(m: multiset<Slab>, n: nat, size: int, t: Slab)
    requires PoolOk(m, n, size) && |t.flags| == n && forall s :: s in m ==> Disjoint(s, t, size)
    requires t !in m
    ensures PoolOk(m + multiset{t}, n, size)
  {
  }

  lemma ReplaceLive(m: multiset<Slab>, n: nat, size: int, objSize: int, s: Slab, t: Slab, p: int)
    requires PoolOk(m, n, size) && s in m
    ensures LiveIn(m - multiset{s} + multiset{t}, objSize, p) <==>
            InUse(t, objSize, p) || exists u :: u in m && u != s && InUse(u, objSize, p)
  {
    var m' := m - multiset{s} + multiset{t};
    assert t in m';
    assert forall u :: u in m && u != s ==> u in m';
    assert forall u :: u in m' ==> u == t || (u in m && u != s);
  }

  /** An empty slab has no live objects. */
  lemma EmptyUnused(s: Slab, objSize: int, p: int)
    requires IsEmpty(s)
    ensures !InUse(s, objSize, p)
  {
    CountBounds(s.flags);
  }

  // ---------------------------------------------------------------- alloc

  lemma HeadMultiset(l: seq<Slab>)
    requires l != []
    ensures l[0] in multiset(l) && multiset(l[1..]) == multiset(l) - multiset{l[0]}
  {
    assert l == [l[0]] + l[1..];
  }

  lemma PoolParts(c: Cache)
    ensures Pool(c) == multiset(c.full) + multiset(c.half) + multiset(c.empty)
  {
  }

  /** One slab leaves a list for another, changed on the way. */
  lemma MoveSlab(a: multiset<Slab>, b: multiset<Slab>, d: multiset<Slab>, s: Slab, t: Slab)
    requires s in b
    ensures (multiset{t} + a) + (b - multiset{s}) + d == (a + b + d) - multiset{s} + multiset{t}
    ensures a + (b - multiset{s} + multiset{t}) + d == (a + b + d) - multiset{s} + multiset{t}
  {
  }

  lemma ConsMultiset(s: Slab, l: seq<Slab>)
    ensures multiset([s] + l) == multiset{s} + multiset(l)
  {
  }

  lemma AllocPoolHalf(c: Cache, t: Slab)
    requires c.half != []
    ensures Pool(c.(half := c.half[1..], full := [t] + c.full)) == Pool(c) - multiset{c.half[0]} + multiset{t}
    ensures Pool(c.(half := c.half[0 := t])) == Pool(c) - multiset{c.half[0]} + multiset{t}
  {
    var s := c.half[0];
    HeadMultiset(c.half);
    ConsMultiset(t, c.full);
    ConsMultiset(t, c.half[1..]);
    assert c.half[0 := t] == [t] + c.half[1..];
    PoolParts(c);
    PoolParts(c.(half := c.half[1..], full := [t] + c.full));
    PoolParts(c.(half := c.half[0 := t]));
    hide Pool;
    MoveSlab(multiset(c.full), multiset(c.half), multiset(c.empty), s, t);
    assert multiset{t} + (multiset(c.half) - multiset{s}) == multiset(c.half) - multiset{s} + multiset{t};
  }

  lemma FilePool(c: Cache, t: Slab)
    ensures Pool(File(c, t)) == Pool(c) + multiset{t}
  {
    ConsMultiset(t, c.full);
    ConsMultiset(t, c.half);
    PoolParts(c);
    PoolParts(File(c, t));
    hide Pool, IsFull;
  }

  lemma PopEmptyPool(c: Cache)
    requires c.empty != []
    ensures Pool(c.(empty := c.empty[1..])) == Pool(c) - multiset{c.empty[0]}
  {
    HeadMultiset(c.empty);
    PoolParts(c);
    PoolParts(c.(empty := c.empty[1..]));
    hide Pool;
  }

  lemma SourceListed(c: Cache)
    requires HasRoom(c)
    ensures Source(c) in Pool(c)
  {
    if c.half != [] { HeadMultiset(c.half); } else { HeadMultiset(c.empty); }
    PoolParts(c);
  }

  lemma AllocPool(c: Cache)
    requires HasRoom(c)
    ensures Source(c) in Pool(c)
    ensures Pool(AllocSpec(c)) == Pool(c) - multiset{Source(c)} + multiset{TakeSlot(Source(c))}
  {
    hide TakeSlot, IsFull, Pool, File;
    SourceListed(c);
    var t := TakeSlot(Source(c));
    if c.half != [] {
      AllocPoolHalf(c, t);
    } else {
      PopEmptyPool(c);
      FilePool(c.(empty := c.empty[1..]), t);
    }
  }

  /** alloc from the slabs at hand gives out an address that was not live, and makes exactly that one live. */
  lemma AllocRefines(c: Cache, n: nat, size: int)
    requires CacheOk(c, n, size) && HasRoom(c)
    ensures CacheOk(AllocSpec(c), n, size)
    ensures var p := AllocObject(Source(c), c.objSize);
      !Live(c, p) && forall q :: Live(AllocSpec(c), q) <==> Live(c, q) || q == p
  {
    var s := Source(c);
    AllocSorted(c, n, size);
    AllocPool(c);
    AreaPositive(c, n, size);
    ReplaceOk(Pool(c), n, size, s, TakeSlot(s));
    TakenInPool(c, n, size, s);
    hide Sorted, Pool, AllocSpec, Source, Disjoint, AllocObject;
    AllocSize(c);
    forall q
      ensures Live(AllocSpec(c), q) <==> Live(c, q) || q == AllocObject(s, c.objSize)
    {
      TakeLive(Pool(c), n, size, c.objSize, s, q);
    }
  }

  lemma AllocSize(c: Cache)
    requires HasRoom(c)
    ensures AllocSpec(c).objSize == c.objSize
  {
  }

  lemma TakeLive(m: multiset<Slab>, n: nat, size: int, objSize: int, s: Slab, q: int)
    requires PoolOk(m, n, size) && s in m && objSize > 0 && !IsFull(s)
    ensures LiveIn(m - multiset{s} + multiset{TakeSlot(s)}, objSize, q) <==>
            LiveIn(m, objSize, q) || q == AllocObject(s, objSize)
  {
    ReplaceLive(m, n, size, objSize, s, TakeSlot(s), q);
    TakeUses(s, objSize, q);
    hide PoolOk, InUse, TakeSlot, AllocObject;
  }

  /** A slab of the half-full list, or the empty slab, gives out a slot and goes where its occupancy asks. */
  lemma TakenSorted(c: Cache, t: Slab)
    requires Sorted(c) && !IsEmpty(t)
    ensures c.half != [] && IsFull(t) ==> Sorted(c.(half := c.half[1..], full := [t] + c.full))
    ensures c.half != [] && !IsFull(t) ==> Sorted(c.(half := c.half[0 := t]))
    ensures c.empty != [] ==> Sorted(c.(empty := c.empty[1..]))
  {
  }

  lemma SourceKind(c: Cache, n: nat, size: int)
    requires CacheOk(c, n, size) && HasRoom(c)
    ensures !IsFull(Source(c)) && |Source(c).flags| == n && !IsEmpty(TakeSlot(Source(c)))
  {
    var s := Source(c);
    SourceListed(c);
    assert s in c.half || s in c.empty;
    CountBounds(s.flags);
    TakeUses(s, c.objSize, 0);
    hide Pool, InUse;
  }

  lemma AllocSorted(c: Cache, n: nat, size: int)
    requires CacheOk(c, n, size) && HasRoom(c)
    ensures Sorted(AllocSpec(c)) && !IsFull(Source(c)) && |Source(c).flags| == n
  {
    SourceKind(c, n, size);
    var t := TakeSlot(Source(c));
    TakenSorted(c, t);
    hide Pool, TakeSlot, PoolOk, IsFull, IsEmpty, File;
    if c.half == [] {
      FileSorted(c.(empty := c.empty[1..]), t);
    }
    AllocCases(c);
    hide Sorted, AllocSpec;
  }

  lemma AllocCases(c: Cache)
    requires HasRoom(c)
    ensures var t := TakeSlot(Source(c));
      AllocSpec(c) == if c.half == [] then File(c.(empty := c.empty[1..]), t)
                      else if IsFull(t) then c.(half := c.half[1..], full := [t] + c.full)
                      else c.(half := c.half[0 := t])
  {
  }

  /** The address a slab is about to give out is live in no slab of the pool. */
  lemma TakenInPool(c: Cache, n: nat, size: int, s: Slab)
    requires CacheOk(c, n, size) && s in Pool(c) && !IsFull(s)
    ensures !Live(c, AllocObject(s, c.objSize))
  {
    var p := AllocObject(s, c.objSize);
    CountBounds(s.flags);
    TakeUses(s, c.objSize, p);
    ObjectInside(s, c.objSize, FirstFree(s.flags), size);
    hide Pool, Sorted, Object;
    if Live(c, p) {
      var u :| u in Pool(c) && InUse(u, c.objSize, p);
      InUseInside(u, c.objSize, p, size);
    }
  }

  lemma InUseInside(u: Slab, objSize: int, p: int, size: int)
    requires objSize > 0 && |u.flags| * objSize <= size && InUse(u, objSize, p)
    ensures u.slots <= p && p + objSize <= u.slots + size
  {
    var i :| 0 <= i < |u.flags| && !u.flags[i] && p == Object(u, objSize, i);
    ObjectInside(u, objSize, i, size);
  }

  lemma TakenSlab(s: Slab, n: nat)
    requires IsEmpty(s) && |s.flags| == n > 0
    ensures var t := TakeSlot(s); |t.flags| == n && t.slots == s.slots && !IsEmpty(t)
  {
    CountBounds(s.flags);
    TakeUses(s, 1, 0);
  }

  lemma AdoptOk(c: Cache, s: Slab, n: nat, size: int)
    requires CacheOk(c, n, size) && IsEmpty(s) && |s.flags| == n && s !in Pool(c)
    requires forall t :: t in Pool(c) ==> Disjoint(t, s, size)
    ensures CacheOk(AdoptSpec(c, s), n, size)
    ensures Pool(AdoptSpec(c, s)) == Pool(c) + multiset{s} - multiset{s} + multiset{TakeSlot(s)}
    ensures PoolOk(Pool(c) + multiset{s}, n, size)
  {
    var t, m := TakeSlot(s), Pool(c) + multiset{s};
    AddOk(Pool(c), n, size, s);
    AreaPositive(c, n, size);
    FilePool(c, t);
    hide Pool, PoolOk, IsEmpty, IsFull, TakeSlot, Sorted, Disjoint;
    TakenSlab(s, n);
    ReplaceOk(m, n, size, s, t);
    assert m - multiset{s} + multiset{t} == Pool(c) + multiset{t};
    FileSorted(c, t);
  }

  lemma AreaPositive(c: Cache, n: nat, size: int)
    requires CacheOk(c, n, size)
    ensures size > 0
  {
    MulMonotone(1, n, c.objSize);
  }

  lemma FileSorted(c: Cache, t: Slab)
    requires Sorted(c) && !IsEmpty(t)
    ensures Sorted(File(c, t))
  {
  }

  /** alloc with a new slab whose area is apart from all others: its first slot becomes live. */
  lemma AdoptRefines(c: Cache, s: Slab, n: nat, size: int)
    requires CacheOk(c, n, size) && IsEmpty(s) && |s.flags| == n && s !in Pool(c)
    requires forall t :: t in Pool(c) ==> Disjoint(t, s, size)
    ensures CacheOk(AdoptSpec(c, s), n, size)
    ensures var p := AllocObject(s, c.objSize);
      !Live(c, p) && forall q :: Live(AdoptSpec(c, s), q) <==> Live(c, q) || q == p
  {
    var t, p := TakeSlot(s), AllocObject(s, c.objSize);
    var m := Pool(c) + multiset{s};
    AdoptOk(c, s, n, size);
    CountBounds(s.flags);
    hide PoolOk, Sorted, Pool, AdoptSpec;
    forall q
      ensures Live(AdoptSpec(c, s), q) <==> Live(c, q) || q == p
    {
      ReplaceLive(m, n, size, c.objSize, s, t, q);
      TakeUses(s, c.objSize, q);
      EmptyUnused(s, c.objSize, q);
      AddedElements(Pool(c), s);
    }
    ApartUnused(c, s, n, size);
  }

  lemma AddedElements(m: multiset<Slab>, s: Slab)
    requires s !in m
    ensures forall u :: u in m + multiset{s} && u != s <==> u in m
  {
  }

  lemma ApartUnused(c: Cache, s: Slab, n: nat, size: int)
    requires CacheOk(c, n, size) && |s.flags| == n && FirstFree(s.flags) < n
    requires forall t :: t in Pool(c) ==> Disjoint(t, s, size)
    ensures !Live(c, AllocObject(s, c.objSize))
  {
    var p := AllocObject(s, c.objSize);
    ObjectInside(s, c.objSize, FirstFree(s.flags), size);
    hide Pool, Sorted, Object;
    if Live(c, p) {
      var u :| u in Pool(c) && InUse(u, c.objSize, p);
      InUseInside(u, c.objSize, p, size);
    }
  }

  // ---------------------------------------------------------------- routing a free

  /** The slabs free looks at, in order. */
  function Searched(c: Cache): seq<Slab> {
    c.full + c.half
  }

  /** A slab whose last slot ends exactly at ptr claims ptr as well, through the <= of isHere. */
  predicate EndsAt(s: Slab, objSize: int, ptr: int) {
    s.slots + |s.flags| * objSize == ptr
  }

  /** A slab other than the owner claims a live object exactly when it ends where the object starts; and then slots
      fill the whole area. */
  lemma WrongClaim(c: Cache, n: nat, size: int, owner: Slab, t: Slab, ptr: int)
    requires CacheOk(c, n, size) && owner in Pool(c) && t in Pool(c) && t != owner && InUse(owner, c.objSize, ptr)
    ensures IsHere(owner, c.objSize, ptr)
    ensures IsHere(t, c.objSize, ptr) <==> EndsAt(t, c.objSize, ptr)
    ensures EndsAt(t, c.objSize, ptr) ==> n * c.objSize == size
  {
    var i :| 0 <= i < |owner.flags| && !owner.flags[i] && ptr == Object(owner, c.objSize, i);
    ObjectInside(owner, c.objSize, i, size);
    assert Disjoint(owner, t, size);
    MulMonotone(0, n, c.objSize);
  }

  /** The slab holding a live object is searched: it is not empty. */
  lemma OwnerSearched(c: Cache, n: nat, size: int, ptr: int) returns (k: nat)
    requires CacheOk(c, n, size) && Live(c, ptr)
    ensures k < |Searched(c)| && InUse(Searched(c)[k], c.objSize, ptr) && Searched(c)[k] in Pool(c)
  {
    var s :| s in Pool(c) && InUse(s, c.objSize, ptr);
    PoolParts(c);
    if s in c.empty { EmptyUnused(s, c.objSize, ptr); }
    assert s in Searched(c);
    k :| 0 <= k < |Searched(c)| && Searched(c)[k] == s;
  }

  lemma {:induction false} FindFirst(l: seq<Slab>, objSize: int, ptr: int, k: nat)
    requires k < |l| && IsHere(l[k], objSize, ptr)
    ensures Find(l, objSize, ptr) <= k
    ensures Find(l, objSize, ptr) == k <==> forall j :: 0 <= j < k ==> !IsHere(l[j], objSize, ptr)
    decreases |l|
  {
    if k > 0 && !IsHere(l[0], objSize, ptr) {
      FindFirst(l[1..], objSize, ptr, k - 1);
      assert forall j :: 0 < j < k ==> l[j] == l[1..][j - 1];
      assert forall j :: 0 <= j < k - 1 ==> l[1..][j] == l[j + 1];
    }
  }

  lemma SearchedOnce(c: Cache, n: nat, size: int, i: nat, j: nat)
    requires PoolOk(Pool(c), n, size) && i < j < |Searched(c)|
    ensures Searched(c)[i] != Searched(c)[j] && Searched(c)[i] in Pool(c) && Searched(c)[j] in Pool(c)
  {
    var l := Searched(c);
    assert l == l[..j] + [l[j]] + l[j + 1..];
    assert l[i] in l[..j];
    assert multiset(l)[l[j]] == multiset(l[..j])[l[j]] + 1 + multiset(l[j + 1..])[l[j]];
    assert multiset(l[..j])[l[i]] > 0;
    PoolParts(c);
    assert multiset(l) == multiset(c.full) + multiset(c.half);
  }

  /** free reaches the owner of a live object exactly when no slab searched before it ends where the object starts;
      objects that do not fill their slot area always reach it. */
  lemma FreeRoutedExactly(c: Cache, n: nat, size: int, ptr: int, k: nat)
    requires CacheOk(c, n, size) && k < |Searched(c)| && InUse(Searched(c)[k], c.objSize, ptr)
    ensures Find(Searched(c), c.objSize, ptr) == k <==>
            forall j :: 0 <= j < k ==> !EndsAt(Searched(c)[j], c.objSize, ptr)
    ensures n * c.objSize < size ==> Find(Searched(c), c.objSize, ptr) == k
  {
    var l := Searched(c);
    forall j | 0 <= j < k
      ensures IsHere(l[j], c.objSize, ptr) <==> EndsAt(l[j], c.objSize, ptr)
      ensures EndsAt(l[j], c.objSize, ptr) ==> n * c.objSize == size
    {
      SearchedOnce(c, n, size, j, k);
      WrongClaim(c, n, size, l[k], l[j], ptr);
    }
    OwnerClaims(c, n, size, k, ptr);
    FindFirst(l, c.objSize, ptr, k);
  }

  lemma OwnerClaims(c: Cache, n: nat, size: int, k: nat, ptr: int)
    requires CacheOk(c, n, size) && k < |Searched(c)| && InUse(Searched(c)[k], c.objSize, ptr)
    ensures IsHere(Searched(c)[k], c.objSize, ptr) && Searched(c)[k] in Pool(c)
  {
    var s := Searched(c)[k];
    assert s in Searched(c);
    PoolParts(c);
    assert s in multiset(c.full) + multiset(c.half);
    var i :| 0 <= i < |s.flags| && !s.flags[i] && ptr == Object(s, c.objSize, i);
    ObjectInside(s, c.objSize, i, size);
  }

  /** Searching the full slabs and then the half-full ones is searching them in one go. */
  lemma {:induction false} FindConcat(a: seq<Slab>, b: seq<Slab>, objSize: int, ptr: int)
    ensures Find(a + b, objSize, ptr) ==
            if Find(a, objSize, ptr) < |a| then Find(a, objSize, ptr) else |a| + Find(b, objSize, ptr)
    decreases |a|
  {
    if a == [] {
      assert a + b == b;
    } else if !IsHere(a[0], objSize, ptr) {
      assert (a + b)[1..] == a[1..] + b;
      FindConcat(a[1..], b, objSize, ptr);
    }
  }

  // ---------------------------------------------------------------- free

  lemma RemovedMultiset(l: seq<Slab>, i: nat)
    requires i < |l|
    ensures multiset(RemoveAt(l, i)) == multiset(l) - multiset{l[i]} && l[i] in multiset(l)
  {
    assert l == l[..i] + ([l[i]] + l[i + 1..]);
  }

  lemma UpdatedMultiset(l: seq<Slab>, i: nat, t: Slab)
    requires i < |l|
    ensures multiset(l[i := t]) == multiset(l) - multiset{l[i]} + multiset{t} && l[i] in multiset(l)
  {
    assert l == l[..i] + ([l[i]] + l[i + 1..]);
    assert l[i := t] == l[..i] + ([t] + l[i + 1..]);
  }

  /** The slabs shrink takes apart. */
  function Surplus(c: Cache): seq<Slab> {
    if |c.empty| <= 1 then [] else c.empty[1..]
  }

  lemma ShrinkPool(c: Cache)
    ensures Pool(ShrinkSpec(c)) + multiset(Surplus(c)) == Pool(c)
  {
    PoolParts(c);
    PoolParts(ShrinkSpec(c));
    if |c.empty| > 1 {
      assert c.empty == c.empty[..1] + c.empty[1..];
    }
  }

  /** Every list holds slabs of its kind, with no bound on the empty ones. */
  ghost predicate Kinds(c: Cache) {
    && (forall s :: s in c.full ==> IsFull(s))
    && (forall s :: s in c.half ==> !IsFull(s) && !IsEmpty(s))
    && (forall s :: s in c.empty ==> IsEmpty(s))
  }

  /** shrink keeps every live object and leaves only the first empty slab. */
  lemma ShrinkKeeps(c: Cache, n: nat, size: int)
    requires PoolOk(Pool(c), n, size) && Kinds(c)
    ensures PoolOk(Pool(ShrinkSpec(c)), n, size) && Sorted(ShrinkSpec(c))
    ensures forall p :: Live(ShrinkSpec(c), p) <==> Live(c, p)
    ensures ShrinkSpec(c).full == c.full && ShrinkSpec(c).half == c.half
    ensures c.empty != [] ==> ShrinkSpec(c).empty == [c.empty[0]]
  {
    ShrinkPool(c);
    ShrinkSorted(c);
    hide ShrinkSpec, Pool, Surplus, InUse, Sorted;
    SubPoolOk(Pool(ShrinkSpec(c)), multiset(Surplus(c)), n, size);
    forall p
      ensures Live(ShrinkSpec(c), p) <==> Live(c, p)
    {
      if Live(c, p) {
        var s :| s in Pool(c) && InUse(s, c.objSize, p);
        if s in Surplus(c) { EmptyUnused(s, c.objSize, p); }
        assert s in Pool(ShrinkSpec(c));
      }
      if Live(ShrinkSpec(c), p) {
        var s :| s in Pool(ShrinkSpec(c)) && InUse(s, c.objSize, p);
        assert s in Pool(c);
      }
    }
  }

  lemma ShrinkSorted(c: Cache)
    requires Kinds(c)
    ensures Sorted(ShrinkSpec(c)) && ShrinkSpec(c).objSize == c.objSize
    ensures ShrinkSpec(c).full == c.full && ShrinkSpec(c).half == c.half
    ensures c.empty != [] ==> ShrinkSpec(c).empty == [c.empty[0]]
    ensures forall s :: s in Surplus(c) ==> IsEmpty(s)
  {
  }

  lemma SubPoolOk(a: multiset<Slab>, b: multiset<Slab>, n: nat, size: int)
    requires PoolOk(a + b, n, size)
    ensures PoolOk(a, n, size)
  {
    assert forall s :: s in a ==> s in a + b;
  }

  /** c2 is c with slab s turned into t. */
  lemma ReleaseLive(c: Cache, c2: Cache, n: nat, size: int, s: Slab, i: int, ptr: int)
    requires CacheOk(c, n, size) && s in Pool(c) && 0 <= i < n && |s.flags| == n && !s.flags[i]
    requires ptr == Object(s, c.objSize, i) && c2.objSize == c.objSize
    requires Pool(c2) == Pool(c) - multiset{s} + multiset{GiveSlot(s, i)}
    ensures PoolOk(Pool(c2), n, size)
    ensures forall q :: Live(c2, q) <==> Live(c, q) && q != ptr
  {
    var t := GiveSlot(s, i);
    ReplaceOk(Pool(c), n, size, s, t);
    InUseAt(s, c.objSize, i);
    hide GiveSlot, InUse, Sorted, Object, Pool, PoolOk, LiveIn;
    forall q
      ensures Live(c2, q) <==> Live(c, q) && q != ptr
    {
      GiveFrees(s, c.objSize, i, q);
      ReleasedIn(Pool(c), n, size, c.objSize, s, t, ptr, q);
    }
  }

  lemma InUseAt(s: Slab, objSize: int, i: int)
    requires 0 <= i < |s.flags| && !s.flags[i]
    ensures InUse(s, objSize, Object(s, objSize, i))
  {
  }

  /** One address, when s has given ptr back and become t. */
  lemma ReleasedIn(m: multiset<Slab>, n: nat, size: int, objSize: int, s: Slab, t: Slab, ptr: int, q: int)
    requires PoolOk(m, n, size) && s in m && objSize > 0 && n * objSize <= size && InUse(s, objSize, ptr)
    requires InUse(t, objSize, q) <==> InUse(s, objSize, q) && q != ptr
    ensures LiveIn(m - multiset{s} + multiset{t}, objSize, q) <==> LiveIn(m, objSize, q) && q != ptr
  {
    hide PoolOk, InUse;
    ReplaceLive(m, n, size, objSize, s, t, q);
    forall u | u in m && u != s && InUse(u, objSize, q)
      ensures q != ptr
    {
      if q == ptr {
        SlabsApart(m, n, size, objSize, s, u, ptr);
      }
    }
  }

  /** What free does once it has found the slab that owns the object. */
  lemma FreeFullRefines(c: Cache, n: nat, size: int, k: nat, i: int, ptr: int)
    requires CacheOk(c, n, size) && k < |c.full| && 0 <= i < n && |c.full[k].flags| == n && !c.full[k].flags[i]
    requires ptr == Object(c.full[k], c.objSize, i)
    ensures var c' := ShrinkSpec(RefileFull(c, k, GiveSlot(c.full[k], i)));
      CacheOk(c', n, size) && forall q :: Live(c', q) <==> Live(c, q) && q != ptr
  {
    var s := c.full[k];
    var t := GiveSlot(s, i);
    var c2 := RefileFull(c, k, t);
    GiveFrees(s, c.objSize, i, ptr);
    FullToPool(c, c2, k, t);
    assert s in c.full;
    assert s in Pool(c);
    ReleaseLive(c, c2, n, size, s, i, ptr);
    FullKinds(c, c2, k, t);
    hide Pool, Kinds, Live, GiveSlot;
    ShrinkKeeps(c2, n, size);
  }

  lemma FullKinds(c: Cache, c2: Cache, k: nat, t: Slab)
    requires Sorted(c) && k < |c.full| && !IsFull(t)
    requires c2 == RefileFull(c, k, t)
    ensures Kinds(c2)
  {
    RemovedMultiset(c.full, k);
    assert forall s :: s in RemoveAt(c.full, k) ==> s in c.full;
  }

  lemma FullToPool(c: Cache, c2: Cache, k: nat, t: Slab)
    requires k < |c.full|
    requires var c1 := c.(full := RemoveAt(c.full, k));
      c2 == c1.(empty := [t] + c1.empty) || c2 == c1.(half := [t] + c1.half)
    ensures Pool(c2) == Pool(c) - multiset{c.full[k]} + multiset{t}
  {
    RemovedMultiset(c.full, k);
    ConsMultiset(t, c.empty);
    ConsMultiset(t, c.half);
    PoolParts(c);
    PoolParts(c2);
    hide Pool, RemoveAt;
  }

  lemma HalfToPool(c: Cache, c2: Cache, k: nat, t: Slab)
    requires k < |c.half|
    requires c2 == c.(half := RemoveAt(c.half, k), empty := [t] + c.empty) || c2 == c.(half := c.half[k := t])
    ensures Pool(c2) == Pool(c) - multiset{c.half[k]} + multiset{t}
  {
    RemovedMultiset(c.half, k);
    UpdatedMultiset(c.half, k, t);
    ConsMultiset(t, c.empty);
    PoolParts(c);
    PoolParts(c2);
    hide Pool, RemoveAt;
  }

  lemma HalfKinds(c: Cache, c2: Cache, k: nat, t: Slab)
    requires Sorted(c) && k < |c.half| && !IsFull(t)
    requires c2 == RefileHalf(c, k, t)
    ensures Kinds(c2)
  {
    RemovedMultiset(c.half, k);
    assert forall s :: s in RemoveAt(c.half, k) ==> s in c.half;
  }

  lemma FreeHalfRefines(c: Cache, n: nat, size: int, k: nat, i: int, ptr: int)
    requires CacheOk(c, n, size) && k < |c.half| && 0 <= i < n && |c.half[k].flags| == n && !c.half[k].flags[i]
    requires ptr == Object(c.half[k], c.objSize, i)
    ensures var c' := ShrinkSpec(RefileHalf(c, k, GiveSlot(c.half[k], i)));
      CacheOk(c', n, size) && forall q :: Live(c', q) <==> Live(c, q) && q != ptr
  {
    var s := c.half[k];
    var t := GiveSlot(s, i);
    var c2 := RefileHalf(c, k, t);
    GiveFrees(s, c.objSize, i, ptr);
    HalfToPool(c, c2, k, t);
    assert s in c.half;
    assert s in Pool(c);
    ReleaseLive(c, c2, n, size, s, i, ptr);
    HalfKinds(c, c2, k, t);
    hide Pool, Kinds, Live, GiveSlot;
    ShrinkKeeps(c2, n, size);
  }

  /** The side condition under which free reaches the owner: no slab searched before it ends where the object starts. */
  ghost predicate Routed(c: Cache, ptr: int, k: nat) {
    k < |Searched(c)| && InUse(Searched(c)[k], c.objSize, ptr)
    && forall j :: 0 <= j < k ==> !EndsAt(Searched(c)[j], c.objSize, ptr)
  }

  /** The index free finds is the owner's. */
  lemma OwnerFound(c: Cache, n: nat, size: int, ptr: int, k: nat)
    requires CacheOk(c, n, size) && Routed(c, ptr, k)
    ensures k < |c.full| ==> Find(c.full, c.objSize, ptr) == k
    ensures k >= |c.full| ==> Find(c.full, c.objSize, ptr) == |c.full| && Find(c.half, c.objSize, ptr) == k - |c.full|
  {
    FreeRoutedExactly(c, n, size, ptr, k);
    FindConcat(c.full, c.half, c.objSize, ptr);
  }

  lemma OwnerSlot(c: Cache, n: nat, size: int, s: Slab, ptr: int) returns (i: int)
    requires CacheOk(c, n, size) && s in Pool(c) && InUse(s, c.objSize, ptr)
    ensures 0 <= i < n && |s.flags| == n && !s.flags[i] && ptr == Object(s, c.objSize, i) && SlotOf(s, c.objSize, ptr) == i
    ensures Live(c, ptr)
  {
    i :| 0 <= i < |s.flags| && !s.flags[i] && ptr == Object(s, c.objSize, i);
    SlotOfObject(s, c.objSize, i);
  }

  /** free of a live object that routes to its owner removes exactly that object. */
  lemma FreeRefines(c: Cache, n: nat, size: int, ptr: int, k: nat)
    requires CacheOk(c, n, size) && Routed(c, ptr, k)
    ensures CacheOk(FreeSpec(c, ptr), n, size)
    ensures Live(c, ptr) && forall q :: Live(FreeSpec(c, ptr), q) <==> Live(c, q) && q != ptr
  {
    hide Find, ShrinkSpec, GiveSlot, CacheOk, Live, Object, SlotOf, InUse, Pool, RefileFull, RefileHalf, Routed;
    PositiveSize(c, n, size);
    var i := OwnerAt(c, n, size, ptr, k);
    if k < |c.full| {
      FreeFullRefines(c, n, size, k, i, ptr);
    } else {
      FreeHalfRefines(c, n, size, k - |c.full|, i, ptr);
    }
  }

  /** Where free finds the owner, and the slot it gives back there. */
  lemma OwnerAt(c: Cache, n: nat, size: int, ptr: int, k: nat) returns (i: int)
    requires CacheOk(c, n, size) && Routed(c, ptr, k)
    ensures c.objSize > 0 && k < |Searched(c)| && 0 <= i < n && Live(c, ptr)
    ensures var s := Searched(c)[k];
      |s.flags| == n && !s.flags[i] && ptr == Object(s, c.objSize, i) && SlotOf(s, c.objSize, ptr) == i
    ensures k < |c.full| ==> Find(c.full, c.objSize, ptr) == k && Searched(c)[k] == c.full[k]
    ensures k >= |c.full| ==> Find(c.full, c.objSize, ptr) == |c.full| && Find(c.half, c.objSize, ptr) == k - |c.full|
    ensures k >= |c.full| ==> Searched(c)[k] == c.half[k - |c.full|]
  {
    OwnerFound(c, n, size, ptr, k);
    OwnerClaims(c, n, size, k, ptr);
    hide Find, CacheOk, Live, Object, SlotOf, InUse, Pool;
    PositiveSize(c, n, size);
    i := OwnerSlot(c, n, size, Searched(c)[k], ptr);
  }

  lemma PositiveSize(c: Cache, n: nat, size: int)
    requires CacheOk(c, n, size)
    ensures c.objSize > 0 && n > 0
  {
  }

  /** The slab free comes to does not end exactly at ptr, so that ptr lies in one of its slots. */
  predicate InSlot(c: Cache, ptr: int) {
    var k := Find(Searched(c), c.objSize, ptr);
    k < |Searched(c)| ==> !EndsAt(Searched(c)[k], c.objSize, ptr)
  }

  lemma RoutedInSlot(c: Cache, n: nat, size: int, ptr: int, k: nat)
    requires CacheOk(c, n, size) && Routed(c, ptr, k)
    ensures InSlot(c, ptr)
  {
    FreeRoutedExactly(c, n, size, ptr, k);
    var s := Searched(c)[k];
    var i :| 0 <= i < |s.flags| && !s.flags[i] && ptr == Object(s, c.objSize, i);
    ObjectsDiffer(s, c.objSize, i, |s.flags|);
  }

  /** An address a slab claims, other than its end, lies in one of its slots. */
  lemma SlotInside(s: Slab, objSize: int, ptr: int)
    requires objSize > 0 && IsHere(s, objSize, ptr) && !EndsAt(s, objSize, ptr)
    ensures 0 <= SlotOf(s, objSize, ptr) < |s.flags|
    ensures Object(s, objSize, SlotOf(s, objSize, ptr)) <= ptr < Object(s, objSize, SlotOf(s, objSize, ptr)) + objSize
  {
    var d := ptr - s.slots;
    var q, r := d / objSize, d % objSize;
    assert d == q * objSize + r;
    if q >= |s.flags| {
      MulMonotone(|s.flags|, q, objSize);
    }
    if q < 0 {
      MulMonotone(q, -1, objSize);
    }
  }

  /** c' is c without the object in slot i of s, the one ptr points into; no object goes when that slot is free. */
  ghost predicate Frees(c: Cache, s: Slab, i: int, ptr: int, c': Cache) {
    && 0 <= i < |s.flags|
    && Object(s, c.objSize, i) <= ptr < Object(s, c.objSize, i) + c.objSize
    && forall q :: Live(c', q) <==> Live(c, q) && (s.flags[i] || q != Object(s, c.objSize, i))
  }

  lemma FreedFull(c: Cache, n: nat, size: int, ptr: int, k: nat)
    requires CacheOk(c, n, size) && k < |c.full| && IsHere(c.full[k], c.objSize, ptr) && !EndsAt(c.full[k], c.objSize, ptr)
    ensures var c' := ShrinkSpec(RefileFull(c, k, Freed(c.full[k], c.objSize, ptr)));
      CacheOk(c', n, size) && Frees(c, c.full[k], SlotOf(c.full[k], c.objSize, ptr), ptr, c')
  {
    var s := c.full[k];
    SlotInside(s, c.objSize, ptr);
    CountBounds(s.flags);
    assert s in c.full && s in Pool(c);
    hide SlotOf, RefileFull, ShrinkSpec, Pool, Sorted, PoolOk, Object, Live;
    FreeFullRefines(c, n, size, k, SlotOf(s, c.objSize, ptr), Object(s, c.objSize, SlotOf(s, c.objSize, ptr)));
  }

  lemma FreedHalf(c: Cache, n: nat, size: int, ptr: int, k: nat)
    requires CacheOk(c, n, size) && k < |c.half| && IsHere(c.half[k], c.objSize, ptr) && !EndsAt(c.half[k], c.objSize, ptr)
    ensures var c' := ShrinkSpec(RefileHalf(c, k, Freed(c.half[k], c.objSize, ptr)));
      CacheOk(c', n, size) && Frees(c, c.half[k], SlotOf(c.half[k], c.objSize, ptr), ptr, c')
  {
    var s := c.half[k];
    SlotInside(s, c.objSize, ptr);
    var i := SlotOf(s, c.objSize, ptr);
    hide Object, Live, SlotOf, RefileHalf, ShrinkSpec, Pool, PoolOk;
    if s.flags[i] {
      FreedAgain(c, n, size, k, i);
    } else {
      ListedHalf(c, n, size, k);
      hide CacheOk;
      FreeHalfRefines(c, n, size, k, i, Object(s, c.objSize, i));
    }
  }

  lemma ListedHalf(c: Cache, n: nat, size: int, k: nat)
    requires CacheOk(c, n, size) && k < |c.half|
    ensures |c.half[k].flags| == n
  {
    assert c.half[k] in c.half && c.half[k] in Pool(c);
  }

  /** Giving back a slot that is free already changes nothing. */
  lemma FreedAgain(c: Cache, n: nat, size: int, k: nat, i: nat)
    requires CacheOk(c, n, size) && k < |c.half| && i < |c.half[k].flags| && c.half[k].flags[i]
    ensures ShrinkSpec(RefileHalf(c, k, GiveSlot(c.half[k], i))) == c
  {
    var s := c.half[k];
    assert s.flags[i := true] == s.flags;
    assert c.half[k := s] == c.half;
  }

  /** free keeps the lists in order for any address in a slot, live or not. */
  lemma FreeOrderly(c: Cache, n: nat, size: int, ptr: int)
    requires CacheOk(c, n, size) && InSlot(c, ptr)
    ensures CacheOk(FreeSpec(c, ptr), n, size)
  {
    FindConcat(c.full, c.half, c.objSize, ptr);
    var i, j := Find(c.full, c.objSize, ptr), Find(c.half, c.objSize, ptr);
    hide RefileHalf, RefileFull, Freed, Pool, PoolOk;
    if i < |c.full| {
      FreedFull(c, n, size, ptr, i);
    } else if j < |c.half| {
      assert Searched(c)[|c.full| + j] == c.half[j];
      FreedHalf(c, n, size, ptr, j);
    }
  }

  function StatusAt(s: Slab, objSize: int, ptr: int): int
    requires objSize > 0
  {
    var i := SlotOf(s, objSize, ptr);
    if 0 <= i < |s.flags| && s.flags[i] then 1 else 0
  }

  /** What free returns: -1 when no slab searched claims the address, 1 when the slot was free already. */
  function FreeStatus(c: Cache, ptr: int): int
    requires c.objSize > 0
  {
    var k := Find(Searched(c), c.objSize, ptr);
    if k == |Searched(c)| then -1 else StatusAt(Searched(c)[k], c.objSize, ptr)
  }

  /** free reports -1 exactly when no slab it searches claims the address, and changes nothing then; else it reports
      whether the slot was free already in the first slab that does. */
  lemma StatusCases(c: Cache, ptr: int)
    requires c.objSize > 0
    ensures FreeStatus(c, ptr) == -1 <==> forall s :: s in Searched(c) ==> !IsHere(s, c.objSize, ptr)
    ensures FreeStatus(c, ptr) == -1 ==> Refiled(c, ptr) == c
    ensures FreeStatus(c, ptr) == -1 || FreeStatus(c, ptr) == 0 || FreeStatus(c, ptr) == 1
  {
    var l := Searched(c);
    var k := Find(l, c.objSize, ptr);
    assert k < |l| ==> l[k] in l;
    FindConcat(c.full, c.half, c.objSize, ptr);
  }

  /** s, at place k of the slabs searched, is the first that claims ptr. */
  ghost predicate FirstClaim(c: Cache, ptr: int, k: nat) {
    && k < |Searched(c)| && IsHere(Searched(c)[k], c.objSize, ptr)
    && forall j :: 0 <= j < k ==> !IsHere(Searched(c)[j], c.objSize, ptr)
  }

  /** free of any address in a slot, the start of a live object or not: the object that goes is the one the address points
      into in the first slab that claims it; when that slot is free already no object goes, and free reports 1. */
  lemma FreeAnywhere(c: Cache, n: nat, size: int, ptr: int)
    requires CacheOk(c, n, size) && InSlot(c, ptr)
    ensures var c', status := FreeSpec(c, ptr), FreeStatus(c, ptr);
      if status == -1 then forall q :: Live(c', q) <==> Live(c, q)
      else exists k: nat, i :: FirstClaim(c, ptr, k) && Frees(c, Searched(c)[k], i, ptr, c')
                          && status == if Searched(c)[k].flags[i] then 1 else 0
  {
    PositiveSize(c, n, size);
    StatusCases(c, ptr);
    FindConcat(c.full, c.half, c.objSize, ptr);
    if FreeStatus(c, ptr) == -1 {
      ShrinkNothing(c, n, size);
    } else {
      var k := Find(Searched(c), c.objSize, ptr);
      ClaimedFrees(c, n, size, ptr, k);
    }
  }

  lemma ShrinkNothing(c: Cache, n: nat, size: int)
    requires CacheOk(c, n, size)
    ensures ShrinkSpec(c) == c
  {
  }

  lemma ClaimedFrees(c: Cache, n: nat, size: int, ptr: int, k: nat)
    requires CacheOk(c, n, size) && c.objSize > 0 && InSlot(c, ptr) && k == Find(Searched(c), c.objSize, ptr) < |Searched(c)|
    ensures FirstClaim(c, ptr, k)
    ensures var i := SlotOf(Searched(c)[k], c.objSize, ptr);
      && Frees(c, Searched(c)[k], i, ptr, FreeSpec(c, ptr))
      && FreeStatus(c, ptr) == if Searched(c)[k].flags[i] then 1 else 0
  {
    hide RefileHalf, RefileFull, Freed, Pool, PoolOk, Sorted, SlotOf, Object, Live, ShrinkSpec, CacheOk, IsHere, EndsAt, FreeSpec;
    SlotInside(Searched(c)[k], c.objSize, ptr);
    ClaimedSpec(c, ptr, k);
    hide Frees, Find, Searched;
    if k < |c.full| {
      FreedFull(c, n, size, ptr, k);
    } else {
      FreedHalf(c, n, size, ptr, k - |c.full|);
    }
  }

  lemma ClaimedSpec(c: Cache, ptr: int, k: nat)
    requires c.objSize > 0 && k == Find(Searched(c), c.objSize, ptr) < |Searched(c)|
    ensures Searched(c)[k] == if k < |c.full| then c.full[k] else c.half[k - |c.full|]
    ensures FreeSpec(c, ptr) == ShrinkSpec(
              if k < |c.full| then RefileFull(c, k, Freed(c.full[k], c.objSize, ptr))
              else RefileHalf(c, k - |c.full|, Freed(c.half[k - |c.full|], c.objSize, ptr)))
  {
    FindConcat(c.full, c.half, c.objSize, ptr);
    hide RefileHalf, RefileFull, Freed, ShrinkSpec, IsHere;
  }

  /** free of a live object that routes to its owner reports success. */
  lemma RoutedStatus(c: Cache, n: nat, size: int, ptr: int, k: nat)
    requires CacheOk(c, n, size) && Routed(c, ptr, k)
    ensures FreeStatus(c, ptr) == 0
  {
    FreeRoutedExactly(c, n, size, ptr, k);
    OwnerClaims(c, n, size, k, ptr);
    hide Find, Pool, Sorted, PoolOk;
    var i := OwnerSlot(c, n, size, Searched(c)[k], ptr);
  }
}
