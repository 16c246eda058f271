/** What one allocation and one release keep: the tiling, and maximal coalescing. */
module BuddyInvariant {
  import opened Wrappers
  import opened PowersOfTwo
  import opened Blocks
  import opened BuddySpec

  // ---------------------------------------------------------------- list edits as set edits

  lemma PopFreeSet(l: Lists, k: nat)
    requires k <= MAX_ORDER && l[k] != [] && NoRepeats(l[k])
    ensures FreeSet(l[k := l[k][1..]]) == FreeSet(l) - {Chunk(l[k][0], k)}
    ensures NoRepeats(l[k][1..])
  {
    var l', c := l[k := l[k][1..]], Chunk(l[k][0], k);
    forall d
      ensures d in FreeSet(l') <==> d in FreeSet(l) - {c}
    {
      if d.ord == k {
        assert l[k] == [l[k][0]] + l'[k];
      }
    }
  }

  lemma PushFreeSet(l: Lists, c: Chunk)
    requires c.ord <= MAX_ORDER && !OnList(l, c) && NoRepeats(l[c.ord])
    ensures FreeSet(Push(l, c)) == FreeSet(l) + {c}
    ensures NoRepeats(Push(l, c)[c.ord])
  {
    forall d
      ensures d in FreeSet(Push(l, c)) <==> d in FreeSet(l) + {c}
    {
    }
  }

  lemma {:induction false} RemoveElements(s: seq<int>, x: int)
    requires NoRepeats(s)
    ensures NoRepeats(Remove(s, x))
    ensures forall y :: y in Remove(s, x) <==> y in s && y != x
  {
    if s != [] {
      assert s == [s[0]] + s[1..] && s[0] !in s[1..];
      if s[0] != x {
        RemoveElements(s[1..], x);
      }
    }
  }

  lemma UnlistFreeSet(l: Lists, c: Chunk)
    requires c.ord <= MAX_ORDER && NoRepeats(l[c.ord])
    ensures FreeSet(Unlist(l, c)) == FreeSet(l) - {c}
    ensures NoRepeats(Unlist(l, c)[c.ord])
  {
    RemoveElements(l[c.ord], c.off);
    forall d
      ensures d in FreeSet(Unlist(l, c)) <==> d in FreeSet(l) - {c}
    {
    }
  }

  // ---------------------------------------------------------------- allocation

  lemma PopKeeps(l: Lists, live: set<Chunk>, k: nat)
    requires WellFormed(l, live) && k <= MAX_ORDER && l[k] != []
    ensures WellFormed(l[k := l[k][1..]], live + {Chunk(l[k][0], k)})
    ensures Chunk(l[k][0], k) !in live
  {
    var c := Chunk(l[k][0], k);
    PopFreeSet(l, k);
    assert OnList(l, c);
    assert FreeSet(l) - {c} + (live + {c}) == FreeSet(l) + live;
  }

  lemma SplitFreeSet(l: Lists, i: nat)
    requires 0 < i <= MAX_ORDER && l[i] != [] && NoRepeats(l[i]) && NoRepeats(l[i - 1])
    requires !OnList(l, Low(Chunk(l[i][0], i))) && !OnList(l, High(Chunk(l[i][0], i)))
    ensures var c := Chunk(l[i][0], i); FreeSet(SplitHead(l, i)) == FreeSet(l) - {c} + {Low(c), High(c)}
    ensures NoRepeats(SplitHead(l, i)[i]) && NoRepeats(SplitHead(l, i)[i - 1])
  {
    var c := Chunk(l[i][0], i);
    PopFreeSet(l, i);
    var l1 := l[i := l[i][1..]];
    PushFreeSet(l1, High(c));
    var l2 := Push(l1, High(c));
    assert !OnList(l2, Low(c));
    PushFreeSet(l2, Low(c));
    assert Push(l2, Low(c)) == SplitHead(l, i) by {
      assert [c.off] + ([c.off + Pow2(i - 1)] + l[i - 1]) == [c.off, c.off + Pow2(i - 1)] + l[i - 1];
    }
  }

  /** A split keeps the tiling, though it leaves two free buddies. */
  lemma SplitKeeps(l: Lists, live: set<Chunk>, i: nat)
    requires WellFormed(l, live) && MIN_ORDER < i <= MAX_ORDER && l[i] != []
    ensures WellFormed(SplitHead(l, i), live)
  {
    var c := Chunk(l[i][0], i);
    var s := FreeSet(l) + live;
    assert OnList(l, c);
    SplitTiles(s, c);
    assert Low(c) !in FreeSet(l) && High(c) !in FreeSet(l);
    SplitFreeSet(l, i);
    assert FreeSet(SplitHead(l, i)) + live == s - {c} + {Low(c), High(c)};
  }

  /** Allocation hands out one chunk of the requested order that was not live; everything else still tiles. */
  lemma {:induction false} AllocKeeps(l: Lists, live: set<Chunk>, k: nat)
    requires WellFormed(l, live) && MIN_ORDER <= k <= MAX_ORDER
    ensures var (r, l') := AllocSpec(l, k);
      match r
      case Some(o) => Chunk(o, k) !in live && WellFormed(l', live + {Chunk(o, k)})
      case None => l' == l && FirstFree(l, k) > MAX_ORDER
    decreases FirstFree(l, k)
  {
    if l[k] != [] {
      PopKeeps(l, live, k);
    } else {
      var i := FirstFree(l, k + 1);
      if i <= MAX_ORDER {
        SplitKeeps(l, live, i);
        assert SplitHead(l, i)[i - 1] != [];
        AllocKeeps(SplitHead(l, i), live, k);
        assert FirstFree(SplitHead(l, i), k) <= i - 1;
      }
    }
  }

  /** One turn of the search loop of src/kbuddyAllocator.cpp:27-41: split the first non-empty order and retry. */
  lemma AllocStep(l: Lists, k: nat, i: nat)
    requires k < i <= MAX_ORDER && l[i] != [] && (forall j :: k <= j < i ==> l[j] == [])
    ensures AllocSpec(l, k) == AllocSpec(SplitHead(l, i), k)
    ensures FirstFree(SplitHead(l, i), k) < FirstFree(l, k) == i
  {
    assert FirstFree(l, k + 1) == i;
    assert SplitHead(l, i)[i - 1] != [];
  }

  lemma AllocHit(l: Lists, k: nat)
    requires k <= MAX_ORDER && l[k] != []
    ensures AllocSpec(l, k) == (Some(l[k][0]), l[k := l[k][1..]])
  {
  }

  lemma AllocFails(l: Lists, k: nat)
    requires k <= MAX_ORDER && forall j :: k <= j <= MAX_ORDER ==> l[j] == []
    ensures AllocSpec(l, k) == (None, l)
  {
  }

  /** All the splits of one allocation at once: what is left of the block (o, i) after carving (o, k) from it. */
  function Carve(l: Lists, o: int, i: nat, k: nat): Lists
    requires k <= i <= MAX_ORDER
    decreases i
  {
    if i == k then l else Carve(Push(l, High(Chunk(o, i))), o, i - 1, k)
  }

  lemma {:induction false} AllocFromHead(l: Lists, i: nat, k: nat)
    requires k <= i <= MAX_ORDER && l[i] != [] && (forall j :: k <= j < i ==> l[j] == [])
    ensures AllocSpec(l, k) == (Some(l[i][0]), Carve(l[i := l[i][1..]], l[i][0], i, k))
    decreases i
  {
    if i > k {
      var o, l1 := l[i][0], SplitHead(l, i);
      assert FirstFree(l, k + 1) == i;
      AllocFromHead(l1, i - 1, k);
      assert l1[i - 1] == [o] + [High(Chunk(o, i)).off];
      assert l1[i - 1][1..] == [High(Chunk(o, i)).off] + l[i - 1];
      assert l1[i - 1 := l1[i - 1][1..]] == Push(l[i := l[i][1..]], High(Chunk(o, i)));
    }
  }

  /** An allocation is a carving of the head of the first non-empty list, or fails when there is none. */
  lemma AllocIsCarve(l: Lists, k: nat)
    requires k <= MAX_ORDER
    ensures var i := FirstFree(l, k);
      AllocSpec(l, k) ==
      if i > MAX_ORDER then (None, l) else (Some(l[i][0]), Carve(l[i := l[i][1..]], l[i][0], i, k))
  {
    var i := FirstFree(l, k);
    if i <= MAX_ORDER {
      AllocFromHead(l, i, k);
    } else {
      assert l[k] == [];
    }
  }

  lemma {:induction false} CarveAt(l: Lists, o: int, i: nat, k: nat, j: nat)
    requires k <= i <= MAX_ORDER && j <= MAX_ORDER
    ensures Carve(l, o, i, k)[j] == if k <= j < i then [o + Pow2(j)] + l[j] else l[j]
    decreases i
  {
    if i > k {
      CarveAt(Push(l, High(Chunk(o, i))), o, i - 1, k, j);
    }
  }

  lemma CarveHasNoBuddies(l: Lists, o: int, i: nat, k: nat, c: Chunk)
    requires Coalesced(l) && k <= i <= MAX_ORDER && (forall j :: k <= j < i ==> l[j] == [])
    requires OnList(Carve(l, o, i, k), c) && c.ord < MAX_ORDER
    ensures !OnList(Carve(l, o, i, k), Buddy(c))
  {
    CarveAt(l, o, i, k, c.ord);
    assert Buddy(c).ord == c.ord && Buddy(c).off != c.off;
    if !(k <= c.ord < i) {
      assert OnList(l, c);
    }
  }

  /** Although every split leaves two free buddies, a completed allocation leaves none. */
  lemma AllocCoalesced(l: Lists, k: nat)
    requires Coalesced(l) && k <= MAX_ORDER
    ensures Coalesced(AllocSpec(l, k).1)
  {
    AllocIsCarve(l, k);
    var i := FirstFree(l, k);
    if i <= MAX_ORDER {
      var l1 := l[i := l[i][1..]];
      assert Coalesced(l1) by {
        assert forall c :: OnList(l1, c) ==> OnList(l, c);
      }
      forall c | OnList(Carve(l1, l[i][0], i, k), c) && c.ord < MAX_ORDER
        ensures !OnList(Carve(l1, l[i][0], i, k), Buddy(c))
      {
        CarveHasNoBuddies(l1, l[i][0], i, k, c);
      }
    }
  }

  // ---------------------------------------------------------------- release

  lemma FreeMerges(l: Lists, c: Chunk)
    requires c.ord < MAX_ORDER && Buddy(c).off in l[c.ord]
    ensures FreeSpec(l, c) == FreeSpec(Unlist(l, Buddy(c)), Parent(c))
  {
  }

  lemma FreeStops(l: Lists, c: Chunk)
    requires c.ord <= MAX_ORDER && Buddy(c).off !in l[c.ord]
    ensures FreeSpec(l, c) == Push(l, c)
  {
  }

  lemma PushKeeps(l: Lists, live: set<Chunk>, c: Chunk)
    requires WellFormed(l, live) && c in live
    ensures WellFormed(Push(l, c), live - {c})
  {
    assert c.ord <= MAX_ORDER;
    assert !OnList(l, c);
    PushFreeSet(l, c);
    assert FreeSet(l) + {c} + (live - {c}) == FreeSet(l) + live;
  }

  /** One merge: the live chunk and its free buddy become one live chunk. */
  lemma MergeKeeps(l: Lists, live: set<Chunk>, c: Chunk)
    requires WellFormed(l, live) && c in live && c.ord < MAX_ORDER && Buddy(c).off in l[c.ord]
    ensures Parent(c) !in live && Parent(c) !in FreeSet(l)
    ensures WellFormed(Unlist(l, Buddy(c)), live - {c} + {Parent(c)})
  {
    var b, p, s := Buddy(c), Parent(c), FreeSet(l) + live;
    assert Block(c);
    BuddyHalves(c);
    assert OnList(l, b);
    assert b in s && c in s;
    JoinTiles(s, p);
    UnlistFreeSet(l, b);
    assert FreeSet(l) - {b} + (live - {c} + {p}) == s - {Low(p), High(p)} + {p};
  }

  /** A release, however far it merges, takes exactly the released chunk out of the live set. */
  lemma {:induction false} FreeKeeps(l: Lists, live: set<Chunk>, c: Chunk)
    requires WellFormed(l, live) && c in live
    ensures WellFormed(FreeSpec(l, c), live - {c})
    decreases MAX_ORDER - c.ord
  {
    assert Block(c);
    if c.ord < MAX_ORDER && Buddy(c).off in l[c.ord] {
      MergeKeeps(l, live, c);
      FreeKeeps(Unlist(l, Buddy(c)), live - {c} + {Parent(c)}, Parent(c));
      assert live - {c} + {Parent(c)} - {Parent(c)} == live - {c};
    } else {
      PushKeeps(l, live, c);
    }
  }

  /** A release restores maximal coalescing. */
  lemma {:induction false} FreeCoalesced(l: Lists, live: set<Chunk>, c: Chunk)
    requires WellFormed(l, live) && c in live && Coalesced(l)
    ensures Coalesced(FreeSpec(l, c))
    decreases MAX_ORDER - c.ord
  {
    assert Block(c);
    if c.ord < MAX_ORDER && Buddy(c).off in l[c.ord] {
      MergeKeeps(l, live, c);
      UnlistFreeSet(l, Buddy(c));
      assert forall d :: OnList(Unlist(l, Buddy(c)), d) <==> d in FreeSet(l) - {Buddy(c)};
      FreeCoalesced(Unlist(l, Buddy(c)), live - {c} + {Parent(c)}, Parent(c));
    } else {
      forall d | OnList(Push(l, c), d) && d.ord < MAX_ORDER
        ensures !OnList(Push(l, c), Buddy(d))
      {
        assert d == c || d in FreeSet(l);
        BuddyHalves(d);
      }
    }
  }

  lemma InitCovers(top: Chunk)
    requires top == Chunk(0, MAX_ORDER)
    ensures Tiles({top})
  {
    ArenaSize();
    AlignedZero(MAX_ORDER);
    forall p | 0 <= p < ARENA
      ensures Covered({top}, p)
    {
      assert Covers(top, p);
    }
  }

  lemma InitKeeps()
    ensures WellFormed(InitLists(), {}) && Coalesced(InitLists())
  {
    var top := Chunk(0, MAX_ORDER);
    InitCovers(top);
    assert FreeSet(InitLists()) + {} == {top};
  }
}
