/**
 The buddy allocator as functions on its per-order free lists. Lists[k] is the list that
 freeChunks[k] heads, in list order, so equality of Lists is equality down to list order.
 */
module BuddySpec {
  import opened Wrappers
  import opened PowersOfTwo
  import opened Blocks

  type Lists = s: seq<seq<int>> | |s| == MAX_ORDER + 1 witness seq(MAX_ORDER + 1, _ => [])

  ghost predicate OnList(l: Lists, c: Chunk) {
    c.ord <= MAX_ORDER && c.off in l[c.ord]
  }

  /** The free chunks, forgetting list order. */
  ghost function FreeSet(l: Lists): (s: set<Chunk>)
    ensures forall c :: c in s <==> OnList(l, c)
  {
    set k, o | 0 <= k <= MAX_ORDER && o in l[k] :: Chunk(o, k)
  }

  ghost predicate NoRepeats(s: seq<int>) {
    forall i, j :: 0 <= i < j < |s| ==> s[i] != s[j]
  }

  /** Free and live chunks together tile the arena, and no chunk is listed twice. */
  ghost predicate WellFormed(l: Lists, live: set<Chunk>) {
    && (forall k :: 0 <= k <= MAX_ORDER ==> NoRepeats(l[k]))
    && FreeSet(l) !! live
    && Tiles(FreeSet(l) + live)
  }

  /** No two buddies below the top order are both free. */
  ghost predicate Coalesced(l: Lists) {
    forall c :: OnList(l, c) && c.ord < MAX_ORDER ==> !OnList(l, Buddy(c))
  }

  /** freeChunks as src/kbuddyAllocator.cpp:4-10 leaves it. */
  function InitLists(): Lists {
    seq(MAX_ORDER + 1, k => if k == MAX_ORDER then [0] else [])
  }

  // ---------------------------------------------------------------- request sizes

  /** The order the loop of src/kbuddyAllocator.cpp:15-20 stops at when it starts at k. */
  function OrderFrom(size: int, k: nat): (r: nat)
    decreases size - Pow2(k)
  {
    if Pow2(k) < size then OrderFrom(size, k + 1) else k
  }

  function OrderOf(size: int): nat {
    OrderFrom(if size < 4096 then 4096 else size, 0)
  }

  // ---------------------------------------------------------------- allocation

  /** The first non-empty list at order i or above; MAX_ORDER + 1 when there is none. */
  function FirstFree(l: Lists, i: nat): (r: nat)
    requires i <= MAX_ORDER + 1
    ensures i <= r <= MAX_ORDER + 1
    ensures r <= MAX_ORDER ==> l[r] != []
    ensures forall j :: i <= j < r ==> l[j] == []
    decreases MAX_ORDER + 1 - i
  {
    if i == MAX_ORDER + 1 || l[i] != [] then i else FirstFree(l, i + 1)
  }

  /** The head of list i is replaced by its two halves on list i - 1. */
  function SplitHead(l: Lists, i: nat): Lists
    requires 0 < i <= MAX_ORDER && l[i] != []
  {
    var o := l[i][0];
    l[i := l[i][1..]][i - 1 := [o, o + Pow2(i - 1)] + l[i - 1]]
  }

  function AllocSpec(l: Lists, k: nat): (r: (Option<int>, Lists))
    requires k <= MAX_ORDER
    decreases FirstFree(l, k)
  {
    if l[k] != [] then (Some(l[k][0]), l[k := l[k][1..]])
    else
      var i := FirstFree(l, k + 1);
      if i == MAX_ORDER + 1 then (None, l)
      else
        assert SplitHead(l, i)[i - 1] != [];
        AllocSpec(SplitHead(l, i), k)
  }

  // ---------------------------------------------------------------- release

  function Remove(s: seq<int>, x: int): seq<int> {
    if s == [] then [] else if s[0] == x then s[1..] else [s[0]] + Remove(s[1..], x)
  }

  function Unlist(l: Lists, c: Chunk): Lists
    requires c.ord <= MAX_ORDER
  {
    l[c.ord := Remove(l[c.ord], c.off)]
  }

  function Push(l: Lists, c: Chunk): Lists
    requires c.ord <= MAX_ORDER
  {
    l[c.ord := [c.off] + l[c.ord]]
  }

  function FreeSpec(l: Lists, c: Chunk): Lists
    requires c.ord <= MAX_ORDER
    decreases MAX_ORDER - c.ord
  {
    if c.ord < MAX_ORDER && Buddy(c).off in l[c.ord] then FreeSpec(Unlist(l, Buddy(c)), Parent(c))
    else Push(l, c)
  }
}
