/** How freeChunks and the link words inside free memory represent the per-order lists. */
module BuddyLinks {
  import opened PowersOfTwo
  import opened Blocks
  import opened BuddySpec
  import opened BuddyInvariant
  import opened BuddyTheorems

  /** The word that points at element i of a list: its offset, or -1 past the end. */
  function Link(s: seq<int>, i: nat): int {
    if i < |s| then s[i] else -1
  }

  /** heads is freeChunks and mem[a] the link word at offset a: each list runs through its own chunks' first words. */
  ghost predicate Linked(heads: seq<int>, mem: seq<int>, l: Lists) {
    && |heads| == MAX_ORDER + 1 && |mem| == ARENA
    && (forall k :: 0 <= k <= MAX_ORDER ==> heads[k] == Link(l[k], 0))
    && (forall k, i :: 0 <= k <= MAX_ORDER && 0 <= i < |l[k]| ==>
          0 <= l[k][i] < ARENA && mem[l[k][i]] == Link(l[k], i + 1))
  }

  /** Different listed chunks start at different offsets, so no link word serves two lists. */
  lemma OffsetsDiffer(l: Lists, live: set<Chunk>, c: Chunk, d: Chunk)
    requires WellFormed(l, live) && c in FreeSet(l) + live && d in FreeSet(l) + live && c.off == d.off
    ensures c == d
  {
    assert !Apart(c, d);
  }

  lemma LinkPop(heads: seq<int>, mem: seq<int>, l: Lists, k: nat)
    requires Linked(heads, mem, l) && k <= MAX_ORDER && l[k] != []
    ensures |heads| == MAX_ORDER + 1 && |mem| == ARENA
    ensures 0 <= heads[k] < ARENA && heads[k] == l[k][0]
    ensures Linked(heads[k := mem[heads[k]]], mem, l[k := l[k][1..]])
  {
  }

  lemma LinkPush(heads: seq<int>, mem: seq<int>, l: Lists, c: Chunk)
    requires Linked(heads, mem, l) && c.ord <= MAX_ORDER && 0 <= c.off < ARENA
    requires forall k :: 0 <= k <= MAX_ORDER ==> c.off !in l[k]
    ensures Linked(heads[c.ord := c.off], mem[c.off := heads[c.ord]], Push(l, c))
  {
    var mem', l' := mem[c.off := heads[c.ord]], Push(l, c);
    forall k, i | 0 <= k <= MAX_ORDER && 0 <= i < |l'[k]|
      ensures 0 <= l'[k][i] < ARENA && mem'[l'[k][i]] == Link(l'[k], i + 1)
    {
      if k != c.ord {
        assert l[k][i] in l[k];
      } else if i > 0 {
        assert l'[k][i] == l[k][i - 1] && l[k][i - 1] in l[k];
      }
    }
  }

  lemma {:induction false} RemoveAt(s: seq<int>, i: nat)
    requires i < |s| && s[i] !in s[..i]
    ensures Remove(s, s[i]) == s[..i] + s[i + 1..]
  {
    if i > 0 {
      assert s[0] in s[..i];
      assert s[1..][..i - 1] == s[..i][1..];
      RemoveAt(s[1..], i - 1);
    }
  }

  /** Unlinking element i of list k: through the head when it is first, else through its predecessor's word. */
  lemma LinkUnlist(heads: seq<int>, mem: seq<int>, l: Lists, live: set<Chunk>, k: nat, i: nat)
    requires Linked(heads, mem, l) && WellFormed(l, live) && k <= MAX_ORDER && i < |l[k]|
    ensures |heads| == MAX_ORDER + 1 && |mem| == ARENA && 0 <= l[k][i] < ARENA
    ensures i == 0 ==> Linked(heads[k := mem[l[k][0]]], mem, Unlist(l, Chunk(l[k][i], k)))
    ensures i > 0 ==> Linked(heads, mem[l[k][i - 1] := mem[l[k][i]]], Unlist(l, Chunk(l[k][i], k)))
  {
    var s := l[k];
    ListedOnce(s, i);
    RemoveAt(s, i);
    if i > 0 {
      LinkSkip(heads, mem, l, live, k, i);
    } else {
      assert Remove(s, s[0]) == s[1..];
      LinkPop(heads, mem, l, k);
    }
  }

  lemma ListedOnce(s: seq<int>, i: nat)
    requires NoRepeats(s) && i < |s|
    ensures s[i] !in s[..i]
  {
  }

  lemma LinkSkip(heads: seq<int>, mem: seq<int>, l: Lists, live: set<Chunk>, k: nat, i: nat)
    requires Linked(heads, mem, l) && WellFormed(l, live) && k <= MAX_ORDER && 0 < i < |l[k]|
    ensures Linked(heads, mem[l[k][i - 1] := mem[l[k][i]]], l[k := l[k][..i] + l[k][i + 1..]])
  {
    hide WellFormed;
    var s, prev := l[k], l[k][i - 1];
    var mem', l' := mem[prev := mem[s[i]]], l[k := s[..i] + s[i + 1..]];
    forall j, n | 0 <= j <= MAX_ORDER && 0 <= n < |l'[j]|
      ensures 0 <= l'[j][n] < ARENA && mem'[l'[j][n]] == Link(l'[j], n + 1)
    {
      if j != k {
        OtherElement(l, live, k, i - 1, j, n);
      } else {
        var m := if n < i then n else n + 1;
        assert l'[j][n] == s[m];
        OtherElement(l, live, k, i - 1, k, m);
      }
    }
  }

  /** Two list elements at different places are different chunks at different offsets. */
  lemma OtherElement(l: Lists, live: set<Chunk>, k: nat, i: nat, j: nat, n: nat)
    requires WellFormed(l, live) && k <= MAX_ORDER && j <= MAX_ORDER && i < |l[k]| && n < |l[j]|
    ensures l[k][i] == l[j][n] ==> k == j && i == n
  {
    var c, d := Chunk(l[k][i], k), Chunk(l[j][n], j);
    assert OnList(l, c) && OnList(l, d);
    if c.off == d.off {
      OffsetsDiffer(l, live, c, d);
    }
  }

  /** Whatever clients write inside live chunks, the free lists stay intact. */
  lemma ClientWritesKeepLinks(heads: seq<int>, mem: seq<int>, mem': seq<int>, l: Lists, live: set<Chunk>)
    requires Linked(heads, mem, l) && WellFormed(l, live) && |mem'| == ARENA
    requires forall a :: 0 <= a < ARENA && mem'[a] != mem[a] ==> exists d :: d in live && Covers(d, a)
    ensures Linked(heads, mem', l)
  {
    forall k, i | 0 <= k <= MAX_ORDER && 0 <= i < |l[k]|
      ensures 0 <= l[k][i] < ARENA && mem'[l[k][i]] == Link(l[k], i + 1)
    {
      var c := Chunk(l[k][i], k);
      assert OnList(l, c) && c in FreeSet(l);
      if mem'[c.off] != mem[c.off] {
        var d :| d in live && Covers(d, c.off);
        SameTile(FreeSet(l) + live, c, d);
      }
    }
  }

  /** The halves of a split start at offsets no other listed chunk starts at, and outside every live chunk. */
  lemma SplitOffsets(l: Lists, live: set<Chunk>, i: nat)
    requires WellFormed(l, live) && MIN_ORDER < i <= MAX_ORDER && l[i] != []
    ensures var c := Chunk(l[i][0], i);
      var l1 := l[i := l[i][1..]];
      && 0 <= c.off && High(c).off < ARENA
      && (forall k :: 0 <= k <= MAX_ORDER ==> High(c).off !in l1[k])
      && (forall k :: 0 <= k <= MAX_ORDER ==> c.off !in Push(l1, High(c))[k])
      && (forall d :: d in live ==> !Covers(d, c.off) && !Covers(d, High(c).off))
  {
    var c := Chunk(l[i][0], i);
    var l1 := l[i := l[i][1..]];
    PopFreeSet(l, i);
    assert OnList(l, c) && c in FreeSet(l);
    forall d | d in FreeSet(l1) + live
      ensures !Covers(d, c.off) && !Covers(d, High(c).off) && d.off != c.off && d.off != High(c).off
    {
      assert Apart(c, d);
    }
    forall k | 0 <= k <= MAX_ORDER
      ensures High(c).off !in l1[k] && c.off !in l1[k]
    {
      assert Chunk(c.off, k) !in FreeSet(l1) && Chunk(High(c).off, k) !in FreeSet(l1);
    }
  }

  /** The four assignments of src/kbuddyAllocator.cpp:34-37. */
  lemma LinkSplit(heads: seq<int>, mem: seq<int>, l: Lists, live: set<Chunk>, i: nat)
    requires Linked(heads, mem, l) && WellFormed(l, live) && MIN_ORDER < i <= MAX_ORDER && l[i] != []
    ensures var seg1 := heads[i];
      var seg2 := seg1 + Pow2(i - 1);
      && 0 <= seg1 < seg2 < ARENA
      && (forall d :: d in live ==> !Covers(d, seg1) && !Covers(d, seg2))
      && Linked(heads[i := mem[seg1]][i - 1 := seg1], mem[seg2 := heads[i - 1]][seg1 := seg2], SplitHead(l, i))
  {
    hide WellFormed, Linked;
    var c := Chunk(l[i][0], i);
    var l1 := l[i := l[i][1..]];
    SplitOffsets(l, live, i);
    LinkPop(heads, mem, l, i);
    var heads1 := heads[i := mem[c.off]];
    LinkPush(heads1, mem, l1, High(c));
    var heads2, mem2 := heads1[i - 1 := High(c).off], mem[High(c).off := heads1[i - 1]];
    LinkPush(heads2, mem2, Push(l1, High(c)), Low(c));
    assert heads2[i - 1 := c.off] == heads1[i - 1 := c.off];
    assert [c.off] + ([High(c).off] + l1[i - 1]) == [c.off, High(c).off] + l1[i - 1];
    assert Push(Push(l1, High(c)), Low(c)) == SplitHead(l, i);
  }

  lemma FreeWordNotLive(l: Lists, live: set<Chunk>, k: nat, i: nat)
    requires WellFormed(l, live) && k <= MAX_ORDER && i < |l[k]|
    ensures forall d :: d in live ==> !Covers(d, l[k][i])
  {
    var c := Chunk(l[k][i], k);
    assert OnList(l, c) && c in FreeSet(l);
    assert forall d :: d in live ==> Apart(c, d);
  }

  lemma LinkPushLive(heads: seq<int>, mem: seq<int>, l: Lists, live: set<Chunk>, c: Chunk)
    requires Linked(heads, mem, l) && WellFormed(l, live) && c in live
    ensures c.ord <= MAX_ORDER && 0 <= c.off < ARENA
    ensures Linked(heads[c.ord := c.off], mem[c.off := heads[c.ord]], Push(l, c))
    ensures forall d :: d in live && d != c ==> !Covers(d, c.off)
  {
    assert Block(c);
    forall k | 0 <= k <= MAX_ORDER
      ensures c.off !in l[k]
    {
      if c.off in l[k] {
        assert OnList(l, Chunk(c.off, k));
        OffsetsDiffer(l, live, c, Chunk(c.off, k));
      }
    }
    LinkPush(heads, mem, l, c);
    assert forall d :: d in live && d != c ==> Apart(c, d);
  }

  lemma LiveIsBlock(l: Lists, live: set<Chunk>, c: Chunk)
    requires WellFormed(l, live) && c in live
    ensures Block(c)
  {
  }

  /** The buddy computed for the whole arena lies outside it, so a top-order release never merges. */
  lemma TopHasNoBuddy(l: Lists, live: set<Chunk>, c: Chunk)
    requires WellFormed(l, live) && c in live && c.ord <= MAX_ORDER && Buddy(c).off in l[c.ord]
    ensures c.ord < MAX_ORDER
  {
    assert OnList(l, Buddy(c)) && Buddy(c) in FreeSet(l);
    assert Block(c) && Block(Buddy(c));
    ArenaSize();
  }
}
