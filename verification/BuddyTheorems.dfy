/** What every reachable buddy state promises: completeness, canonical form, exact round trips. */
module BuddyTheorems {
  import opened Wrappers
  import opened PowersOfTwo
  import opened Blocks
  import opened BuddySpec
  import opened BuddyInvariant

  // ---------------------------------------------------------------- request sizes

  lemma {:induction false} OrderFromLeast(size: int, k: nat)
    requires k > 0 ==> Pow2(k - 1) < size
    ensures size <= Pow2(OrderFrom(size, k))
    ensures OrderFrom(size, k) > 0 ==> Pow2(OrderFrom(size, k) - 1) < size
    decreases size - Pow2(k)
  {
    if Pow2(k) < size {
      OrderFromLeast(size, k + 1);
    }
  }

  /** The computed order is the least one of at least a page whose blocks hold the request. */
  lemma OrderIsLeast(size: int)
    ensures MIN_ORDER <= OrderOf(size) && size <= Pow2(OrderOf(size))
    ensures forall k: nat :: MIN_ORDER <= k && size <= Pow2(k) ==> OrderOf(size) <= k
    ensures OrderOf(size) <= MAX_ORDER <==> size <= ARENA
  {
    var n, r := if size < 4096 then 4096 else size, OrderOf(size);
    OrderFromLeast(n, 0);
    assert Pow2(12) == 4096;
    ArenaSize();
    forall k: nat | MIN_ORDER <= k && size <= Pow2(k)
      ensures r <= k
    {
      Pow2Monotone(k, MIN_ORDER);
      if k < r {
        Pow2Monotone(r - 1, k);
      }
    }
    if r < MIN_ORDER {
      Pow2Monotone(MIN_ORDER, r);
    }
    if r <= MAX_ORDER {
      Pow2Monotone(MAX_ORDER, r);
    }
  }

  /** The merged request size 1 << (pow + 1) rounds to exactly the next order. */
  lemma OrderOfPow2(k: nat)
    requires k >= MIN_ORDER
    ensures OrderOf(Pow2(k)) == k
  {
    OrderIsLeast(Pow2(k));
    if OrderOf(Pow2(k)) < k {
      Pow2Monotone(k, OrderOf(Pow2(k)));
    }
  }

  // ---------------------------------------------------------------- completeness

  /** No live chunk touches the block. */
  ghost predicate WhollyFree(c: Chunk, live: set<Chunk>) {
    forall d :: d in live ==> Apart(c, d)
  }

  /** In a coalesced state every wholly free aligned block lies inside one free chunk. */
  lemma {:induction false} WhollyFreeInOneChunk(l: Lists, live: set<Chunk>, c: Chunk) returns (d: Chunk)
    requires WellFormed(l, live) && Coalesced(l) && Block(c) && WhollyFree(c, live)
    ensures OnList(l, d) && Block(d) && c.ord <= d.ord && Within(c, d)
    decreases c.ord
  {
    if c.ord == MIN_ORDER {
      assert Covered(FreeSet(l) + live, c.off);
      d :| d in FreeSet(l) + live && Covers(d, c.off);
      assert !Apart(c, d);
      Nested(c, d);
    } else {
      HalvesAreBuddies(c);
      var low := WhollyFreeInOneChunk(l, live, Low(c));
      var high := WhollyFreeInOneChunk(l, live, High(c));
      if low.ord >= c.ord {
        d := low;
        Nested(c, d);
      } else if high.ord >= c.ord {
        d := high;
        Nested(c, d);
      } else {
        Nested(Low(c), low);
        Nested(High(c), high);
        assert false;
      }
    }
  }

  /** Allocation fails exactly when no aligned block of the order is wholly free. */
  lemma AllocComplete(l: Lists, live: set<Chunk>, k: nat)
    requires WellFormed(l, live) && Coalesced(l) && MIN_ORDER <= k <= MAX_ORDER
    ensures AllocSpec(l, k).0.None? <==> forall c :: Block(c) && c.ord == k ==> !WhollyFree(c, live)
  {
    AllocKeeps(l, live, k);
    match AllocSpec(l, k).0
    case Some(o) =>
      var c := Chunk(o, k);
      assert c in live + {c};
      assert WhollyFree(c, live);
    case None =>
      forall c | Block(c) && c.ord == k
        ensures !WhollyFree(c, live)
      {
        if WhollyFree(c, live) {
          var d := WhollyFreeInOneChunk(l, live, c);
        }
      }
  }

  lemma AllocOutcome(l: Lists, live: set<Chunk>, k: nat)
    requires WellFormed(l, live) && MIN_ORDER <= k <= MAX_ORDER
    ensures Coalesced(l) ==> Coalesced(AllocSpec(l, k).1) && (AllocSpec(l, k).0.None? <==>
              forall c :: Block(c) && c.ord == k ==> !WhollyFree(c, live))
  {
    if Coalesced(l) {
      AllocCoalesced(l, k);
      AllocComplete(l, live, k);
    }
  }

  // ---------------------------------------------------------------- canonical form

  /** Wholly free, and not inside a larger wholly free block. */
  ghost predicate MaximalFree(c: Chunk, live: set<Chunk>) {
    Block(c) && WhollyFree(c, live) && (c.ord < MAX_ORDER ==> !WhollyFree(Parent(c), live))
  }

  lemma SameTile(s: set<Chunk>, c: Chunk, d: Chunk)
    requires Tiles(s) && c in s && d in s && !Apart(c, d)
    ensures c == d
  {
  }

  lemma FreeIsMaximal(l: Lists, live: set<Chunk>, c: Chunk)
    requires WellFormed(l, live) && Coalesced(l) && OnList(l, c)
    ensures MaximalFree(c, live)
  {
    assert c in FreeSet(l) && Block(c);
    if c.ord < MAX_ORDER {
      BuddyHalves(c);
      if WhollyFree(Parent(c), live) {
        var d := WhollyFreeInOneChunk(l, live, Parent(c));
        SameTile(FreeSet(l) + live, c, d);
      }
    }
  }

  lemma MaximalIsFree(l: Lists, live: set<Chunk>, c: Chunk)
    requires WellFormed(l, live) && Coalesced(l) && MaximalFree(c, live)
    ensures OnList(l, c)
  {
    var d := WhollyFreeInOneChunk(l, live, c);
    assert d in FreeSet(l);
    if d.ord > c.ord {
      BuddyHalves(c);
      Nested(Parent(c), d);
      forall e | e in live
        ensures Apart(Parent(c), e)
      {
        assert Apart(d, e);
      }
      assert false;
    } else {
      Nested(c, d);
    }
  }

  /** The free set is a function of the live set: two coalesced states with the same live chunks have the same free ones. */
  lemma FreeSetDetermined(l1: Lists, l2: Lists, live: set<Chunk>)
    requires WellFormed(l1, live) && Coalesced(l1) && WellFormed(l2, live) && Coalesced(l2)
    ensures FreeSet(l1) == FreeSet(l2)
    ensures forall c :: c in FreeSet(l1) <==> MaximalFree(c, live)
  {
    forall c
      ensures c in FreeSet(l1) <==> MaximalFree(c, live)
      ensures c in FreeSet(l2) <==> MaximalFree(c, live)
    {
      if c in FreeSet(l1) { FreeIsMaximal(l1, live, c); }
      if c in FreeSet(l2) { FreeIsMaximal(l2, live, c); }
      if MaximalFree(c, live) { MaximalIsFree(l1, live, c); MaximalIsFree(l2, live, c); }
    }
  }

  /** Two releases commute up to list order. */
  lemma FreesCommute(l: Lists, live: set<Chunk>, a: Chunk, b: Chunk)
    requires WellFormed(l, live) && Coalesced(l) && a in live && b in live && a != b
    ensures FreeSet(FreeSpec(FreeSpec(l, a), b)) == FreeSet(FreeSpec(FreeSpec(l, b), a))
  {
    FreeKeeps(l, live, a);
    FreeCoalesced(l, live, a);
    FreeKeeps(FreeSpec(l, a), live - {a}, b);
    FreeCoalesced(FreeSpec(l, a), live - {a}, b);
    FreeKeeps(l, live, b);
    FreeCoalesced(l, live, b);
    FreeKeeps(FreeSpec(l, b), live - {b}, a);
    FreeCoalesced(FreeSpec(l, b), live - {b}, a);
    assert live - {a} - {b} == live - {b} - {a};
    FreeSetDetermined(FreeSpec(FreeSpec(l, a), b), FreeSpec(FreeSpec(l, b), a), live - {a} - {b});
  }

  function FreeAll(l: Lists, cs: seq<Chunk>): Lists
    requires forall c :: c in cs ==> c.ord <= MAX_ORDER
    decreases |cs|
  {
    if cs == [] then l else FreeAll(FreeSpec(l, cs[0]), cs[1..])
  }

  lemma Head(s: seq<int>) returns (x: int)
    requires s != []
    ensures x in s && x == s[0]
  {
    x := s[0];
  }

  lemma TwoElements(s: seq<int>) returns (x: int, y: int)
    requires NoRepeats(s) && |s| > 1
    ensures x in s && y in s && x != y
  {
    x, y := s[0], s[1];
  }

  lemma OnlyZero(s: seq<int>)
    requires NoRepeats(s) && 0 in s && forall x :: x in s ==> x == 0
    ensures s == [0]
  {
    var x := Head(s);
    if |s| > 1 {
      var y, z := TwoElements(s);
    }
  }

  lemma NoElements(s: seq<int>)
    requires forall x :: x !in s
    ensures s == []
  {
    if s != [] {
      var x := Head(s);
    }
  }

  lemma NothingLive(l: Lists)
    requires WellFormed(l, {}) && Coalesced(l)
    ensures l == InitLists()
  {
    InitKeeps();
    FreeSetDetermined(l, InitLists(), {});
    forall k | 0 <= k <= MAX_ORDER
      ensures l[k] == InitLists()[k]
    {
      forall o | o in l[k]
        ensures k == MAX_ORDER && o == 0
      {
        assert Chunk(o, k) in FreeSet(l);
        assert OnList(InitLists(), Chunk(o, k));
      }
      if k == MAX_ORDER {
        assert OnList(InitLists(), Chunk(0, k));
        assert Chunk(0, k) in FreeSet(l);
        OnlyZero(l[k]);
      } else {
        NoElements(l[k]);
      }
    }
  }

  /** Releasing everything, in any order, leaves the lists exactly as the program starts with them. */
  lemma {:induction false} FreeAllRestoresInit(l: Lists, live: set<Chunk>, cs: seq<Chunk>)
    requires WellFormed(l, live) && Coalesced(l)
    requires forall i, j :: 0 <= i < j < |cs| ==> cs[i] != cs[j]
    requires forall c :: c in cs <==> c in live
    ensures forall c :: c in cs ==> c.ord <= MAX_ORDER
    ensures FreeAll(l, cs) == InitLists()
    decreases |cs|
  {
    assert forall c :: c in live ==> Block(c);
    if cs == [] {
      assert live == {};
      NothingLive(l);
    } else {
      var c := cs[0];
      assert cs == [c] + cs[1..];
      FreeKeeps(l, live, c);
      FreeCoalesced(l, live, c);
      FreeAllRestoresInit(FreeSpec(l, c), live - {c}, cs[1..]);
    }
  }

  // ---------------------------------------------------------------- exact round trip

  lemma {:induction false} ReleaseUndoesCarve(l: Lists, o: int, i: nat, k: nat)
    requires MIN_ORDER <= k <= i && Block(Chunk(o, i)) && (forall j :: k <= j < i ==> l[j] == [])
    ensures FreeSpec(Carve(l, o, i, k), Chunk(o, k)) == FreeSpec(l, Chunk(o, i))
    decreases i
  {
    if i > k {
      var c := Chunk(o, i);
      var l1 := Push(l, High(c));
      HalvesAreBuddies(c);
      ReleaseUndoesCarve(l1, o, i - 1, k);
      assert l1[i - 1] == [High(c).off];
      assert Unlist(l1, High(c)) == l;
    }
  }

  lemma ReleaseHead(l: Lists, live: set<Chunk>, i: nat)
    requires WellFormed(l, live) && Coalesced(l) && i <= MAX_ORDER && l[i] != []
    ensures Block(Chunk(l[i][0], i))
    ensures FreeSpec(l[i := l[i][1..]], Chunk(l[i][0], i)) == l
  {
    var c := Chunk(l[i][0], i);
    assert OnList(l, c) && c in FreeSet(l);
    assert c.ord < MAX_ORDER ==> !OnList(l, Buddy(c));
    assert [c.off] + l[i][1..] == l[i];
  }

  /** Releasing what was just allocated restores every list, including its order, however many splits happened. */
  lemma AllocFreeRoundTrip(l: Lists, live: set<Chunk>, k: nat)
    requires WellFormed(l, live) && Coalesced(l) && MIN_ORDER <= k <= MAX_ORDER
    ensures var (r, l') := AllocSpec(l, k); r.Some? ==> FreeSpec(l', Chunk(r.value, k)) == l
  {
    AllocIsCarve(l, k);
    var i := FirstFree(l, k);
    if i <= MAX_ORDER {
      ReleaseHead(l, live, i);
      ReleaseUndoesCarve(l[i := l[i][1..]], l[i][0], i, k);
    }
  }

  // ---------------------------------------------------------------- whole runs

  datatype Op = AllocOp(size: nat) | FreeOp(c: Chunk)

  datatype State = State(lists: Lists, live: set<Chunk>)

  /** A caller may free only what is live. */
  ghost predicate Legal(s: State, op: Op) {
    op.FreeOp? ==> op.c in s.live && op.c.ord <= MAX_ORDER
  }

  ghost function Step(s: State, op: Op): State
    requires Legal(s, op)
  {
    match op
    case AllocOp(size) =>
      if size > ARENA || OrderOf(size) > MAX_ORDER then s
      else
        var k := OrderOf(size);
        var (r, l') := AllocSpec(s.lists, k);
        State(l', if r.Some? then s.live + {Chunk(r.value, k)} else s.live)
    case FreeOp(c) => State(FreeSpec(s.lists, c), s.live - {c})
  }

  ghost predicate LegalRun(s: State, ops: seq<Op>)
    decreases |ops|
  {
    ops == [] || (Legal(s, ops[0]) && LegalRun(Step(s, ops[0]), ops[1..]))
  }

  ghost function Run(s: State, ops: seq<Op>): State
    requires LegalRun(s, ops)
    decreases |ops|
  {
    if ops == [] then s else Run(Step(s, ops[0]), ops[1..])
  }

  ghost predicate Inv(s: State) {
    WellFormed(s.lists, s.live) && Coalesced(s.lists)
  }

  lemma StepInvariant(s: State, op: Op)
    requires Inv(s) && Legal(s, op)
    ensures Inv(Step(s, op))
  {
    match op
    case AllocOp(size) =>
      OrderIsLeast(size);
      if size <= ARENA {
        AllocKeeps(s.lists, s.live, OrderOf(size));
        AllocCoalesced(s.lists, OrderOf(size));
      }
    case FreeOp(c) =>
      FreeKeeps(s.lists, s.live, c);
      FreeCoalesced(s.lists, s.live, c);
  }

  lemma {:induction false} RunInvariant(s: State, ops: seq<Op>)
    requires Inv(s) && LegalRun(s, ops)
    ensures Inv(Run(s, ops))
    decreases |ops|
  {
    if ops != [] {
      StepInvariant(s, ops[0]);
      RunInvariant(Step(s, ops[0]), ops[1..]);
    }
  }

  /** In a coalesced state a request fails exactly when it exceeds the arena or no aligned block of its
      rounded order is wholly free; a failed request changes nothing. */
  lemma RequestComplete(s: State, size: nat)
    requires Inv(s)
    ensures Step(s, AllocOp(size)) == s <==>
            size > ARENA || forall c :: Block(c) && c.ord == OrderOf(size) ==> !WhollyFree(c, s.live)
  {
    OrderIsLeast(size);
    if size <= ARENA {
      AllocComplete(s.lists, s.live, OrderOf(size));
      AllocKeeps(s.lists, s.live, OrderOf(size));
    }
  }

  /** After any run from the initial state, the free lists hold exactly the maximal wholly free blocks, and
      requests fail only for want of a wholly free block. */
  lemma RunComplete(ops: seq<Op>, size: nat)
    requires LegalRun(State(InitLists(), {}), ops)
    ensures var s := Run(State(InitLists(), {}), ops);
      && Inv(s)
      && (forall c :: OnList(s.lists, c) <==> MaximalFree(c, s.live))
      && (Step(s, AllocOp(size)) == s <==>
          size > ARENA || forall c :: Block(c) && c.ord == OrderOf(size) ==> !WhollyFree(c, s.live))
  {
    InitKeeps();
    RunInvariant(State(InitLists(), {}), ops);
    var s := Run(State(InitLists(), {}), ops);
    FreeSetDetermined(s.lists, s.lists, s.live);
    RequestComplete(s, size);
  }
}
