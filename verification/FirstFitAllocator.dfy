/** src/kmemoryAllocator.cpp: the allocator over its head pointer and the headers inside the heap. */
module FirstFitAllocation {
  import opened Wrappers
  import opened FirstFitSpec
  import opened FirstFitTheorems

  /** The pointer to element i of the free list, or -1 for nullptr. */
  function Link(l: seq<Mem>, i: nat): int {
    if i < |l| then l[i].addr else -1
  }

  /** next and size are the two header words stored at each offset of the heap. */
  ghost predicate Linked(head: int, next: seq<int>, size: seq<int>, l: seq<Mem>, live: set<Mem>) {
    && |next| == |size|
    && head == Link(l, 0)
    && (forall i :: 0 <= i < |l| ==> 0 <= l[i].addr < |next|)
    && (forall i :: 0 <= i < |l| ==> next[l[i].addr] == Link(l, i + 1) && size[l[i].addr] == l[i].size)
    && (forall b :: b in live ==> 0 <= b.addr < |next| && size[b.addr] == b.size)
  }

  lemma LinkSizes(head: int, next: seq<int>, size: seq<int>, l: seq<Mem>, live: set<Mem>)
    requires Linked(head, next, size, l, live)
    ensures |next| == |size|
  {
  }

  lemma LinkedAt(head: int, next: seq<int>, size: seq<int>, l: seq<Mem>, live: set<Mem>, i: nat)
    requires Linked(head, next, size, l, live) && i < |l|
    ensures |next| == |size| && 0 <= l[i].addr < |next|
    ensures next[l[i].addr] == Link(l, i + 1) && size[l[i].addr] == l[i].size
  {
  }

  lemma LinkedEnds(head: int, next: seq<int>, size: seq<int>, l: seq<Mem>, live: set<Mem>)
    requires Linked(head, next, size, l, live)
    ensures |next| == |size| && head == Link(l, 0)
    ensures forall b :: b in live ==> 0 <= b.addr < |next| && size[b.addr] == b.size
  {
  }

  lemma NoFit(l: seq<Mem>, size: int)
    requires Fit(l, size) == |l|
    ensures AllocSpec(l, size) == (None, l)
  {
  }

  lemma FitIs(l: seq<Mem>, size: int, i: nat)
    requires i <= |l| && (forall j :: 0 <= j < i ==> l[j].size < size) && (i < |l| ==> l[i].size >= size)
    ensures Fit(l, size) == i
  {
  }

  /** Headers of listed blocks are at increasing addresses and inside no live block. */
  ghost predicate Chained(l: seq<Mem>, live: set<Mem>) {
    && (forall i, j :: 0 <= i < j < |l| ==> l[i].addr < l[j].addr)
    && (forall b, i :: b in live && 0 <= i < |l| ==> !Holds(b, l[i].addr))
    && (forall b :: b in live ==> b.size >= 0)
  }

  lemma WellFormedChained(l: seq<Mem>, live: set<Mem>, limit: int)
    requires WellFormed(l, live, limit)
    ensures Chained(l, live)
  {
    forall b, i | b in live && 0 <= i < |l|
      ensures !Holds(b, l[i].addr)
    {
      assert Holds(l[i], l[i].addr);
      assert FreeAt(l, l[i].addr);
      assert Holds(b, l[i].addr) ==> LiveAt(live, l[i].addr);
    }
  }

  /** Whatever clients write behind the headers of live blocks, list and headers stay intact. */
  lemma ClientWritesKeepHeaders(head: int, next: seq<int>, size: seq<int>, next': seq<int>, size': seq<int>,
                                l: seq<Mem>, live: set<Mem>, limit: int)
    requires Linked(head, next, size, l, live) && WellFormed(l, live, limit) && |next'| == |size'| == |next|
    requires forall a :: 0 <= a < |next| && (next'[a] != next[a] || size'[a] != size[a]) ==>
               exists b :: b in live && Holds(b, a) && b.addr + HEADER <= a
    ensures Linked(head, next', size', l, live)
  {
    WellFormedChained(l, live, limit);
    LinkSizes(head, next, size, l, live);
    forall i | 0 <= i < |l|
      ensures 0 <= l[i].addr < |next'| && next'[l[i].addr] == Link(l, i + 1) && size'[l[i].addr] == l[i].size
    {
      LinkedAt(head, next, size, l, live, i);
    }
    forall b | b in live
      ensures 0 <= b.addr < |next'| && size'[b.addr] == b.size
    {
      LinkedEnds(head, next, size, l, live);
      if size'[b.addr] != size[b.addr] {
        var c :| c in live && Holds(c, b.addr) && c.addr + HEADER <= b.addr;
        LiveApart(live, b, c);
      }
    }
    LinkedEnds(head, next, size, l, live);
  }

  lemma LiveApart(live: set<Mem>, b: Mem, c: Mem)
    requires LiveBlocks(live) && b in live && c in live && Holds(c, b.addr)
    ensures b == c
  {
  }

  /** prev->next = cur->next (or head = cur->next), then cur->next = nullptr. */
  lemma LinkRemove(head: int, next: seq<int>, size: seq<int>, l: seq<Mem>, live: set<Mem>, i: nat)
    requires Linked(head, next, size, l, live) && Chained(l, live) && i < |l|
    ensures i == 0 ==> Linked(next[l[0].addr], next[l[0].addr := -1], size, RemoveAt(l, i), live + {l[i]})
    ensures i > 0 ==>
      Linked(head, next[l[i - 1].addr := next[l[i].addr]][l[i].addr := -1], size, RemoveAt(l, i), live + {l[i]})
  {
    hide RemoveAt, Holds, Linked, Chained;
    LinkedEnds(head, next, size, l, live);
    LinkedAt(head, next, size, l, live, i);
    if i > 0 { LinkedAt(head, next, size, l, live, i - 1); }
    var m := RemoveAt(l, i);
    var head' := if i == 0 then next[l[0].addr] else head;
    var next' := if i == 0 then next[l[0].addr := -1] else next[l[i - 1].addr := next[l[i].addr]][l[i].addr := -1];
    forall j | 0 <= j < |m|
      ensures 0 <= m[j].addr < |next'| && next'[m[j].addr] == Link(m, j + 1) && size[m[j].addr] == m[j].size
    {
      RemovedAt(head, next, size, l, live, i, j);
    }
    assert head' == Link(m, 0);
    MakeLinked(head', next', size, m, live + {l[i]});
  }

  lemma RemovedAt(head: int, next: seq<int>, size: seq<int>, l: seq<Mem>, live: set<Mem>, i: nat, j: nat)
    requires Linked(head, next, size, l, live) && Chained(l, live) && i < |l| && j < |l| - 1
    requires 0 <= l[i].addr < |next| && (i > 0 ==> 0 <= l[i - 1].addr < |next|)
    ensures var m := RemoveAt(l, i);
      var next' := if i == 0 then next[l[0].addr := -1] else next[l[i - 1].addr := next[l[i].addr]][l[i].addr := -1];
      0 <= m[j].addr < |next| == |size| && next'[m[j].addr] == Link(m, j + 1) && size[m[j].addr] == m[j].size
  {
    hide RemoveAt, Linked, Chained;
    var k := if j < i then j else j + 1;
    LinkedAt(head, next, size, l, live, k);
    LinkedAt(head, next, size, l, live, i);
    AddressesDiffer(l, live, k, i);
    if i > 0 { AddressesDiffer(l, live, k, i - 1); }
  }

  lemma AddressesDiffer(l: seq<Mem>, live: set<Mem>, i: nat, j: nat)
    requires Chained(l, live) && i < |l| && j < |l|
    ensures l[i].addr == l[j].addr <==> i == j
    ensures i < j <==> l[i].addr < l[j].addr
  {
  }

  /** The remainder r of block i takes its place in the list, and the block's header shrinks to bytes. */
  lemma LinkShrink(head: int, next: seq<int>, size: seq<int>, l: seq<Mem>, live: set<Mem>, i: nat, r: Mem, bytes: int)
    requires Linked(head, next, size, l, live) && Chained(l, live) && i < |l|
    requires l[i].addr < r.addr < |next| && (i + 1 < |l| ==> r.addr < l[i + 1].addr)
    requires forall b :: b in live ==> b.addr != r.addr
    ensures
      var cur := l[i].addr;
      var next1 := next[r.addr := next[cur]];
      var size1 := size[r.addr := r.size][cur := bytes];
      && (i == 0 ==> Linked(r.addr, next1[cur := -1], size1, l[i := r], live + {Mem(cur, bytes)}))
      && (i > 0 ==> Linked(head, next1[l[i - 1].addr := r.addr][cur := -1], size1, l[i := r], live + {Mem(cur, bytes)}))
  {
    hide Holds, Chained, Linked;
    LinkedEnds(head, next, size, l, live);
    LinkedAt(head, next, size, l, live, i);
    if i > 0 { LinkedAt(head, next, size, l, live, i - 1); }
    var cur, m := l[i].addr, l[i := r];
    var next1 := next[r.addr := next[cur]];
    var size' := size[r.addr := r.size][cur := bytes];
    var next' := if i == 0 then next1[cur := -1] else next1[l[i - 1].addr := r.addr][cur := -1];
    forall j | 0 <= j < |m|
      ensures 0 <= m[j].addr < |next'| && next'[m[j].addr] == Link(m, j + 1) && size'[m[j].addr] == m[j].size
    {
      LinkedAt(head, next, size, l, live, j);
      if j != i {
        AddressesDiffer(l, live, j, i);
        if i > 0 { AddressesDiffer(l, live, j, i - 1); }
        if i + 1 < |l| && j > i + 1 { AddressesDiffer(l, live, i + 1, j); }
      } else if i > 0 {
        AddressesDiffer(l, live, i - 1, i);
      }
    }
    forall b | b in live
      ensures size'[b.addr] == b.size
    {
      LiveElsewhere(l, live, b, i);
    }
    MakeLinked(if i == 0 then r.addr else head, next', size', m, live + {Mem(cur, bytes)});
  }

  lemma LiveElsewhere(l: seq<Mem>, live: set<Mem>, b: Mem, i: nat)
    requires Chained(l, live) && b in live && i < |l|
    ensures b.addr != l[i].addr
  {
    assert !Holds(b, l[i].addr);
  }

  lemma LinkInsertFirst(head: int, next: seq<int>, size: seq<int>, l: seq<Mem>, live: set<Mem>, b: Mem)
    requires Linked(head, next, size, l, live) && Chained(l, live) && b in live
    ensures Linked(b.addr, next[b.addr := head], size, InsertAt(l, 0, b), live - {b})
  {
    hide InsertAt, Holds, Chained, Linked;
    LinkedEnds(head, next, size, l, live);
    var m, next' := InsertAt(l, 0, b), next[b.addr := head];
    forall j | 0 <= j < |m|
      ensures 0 <= m[j].addr < |next'| && next'[m[j].addr] == Link(m, j + 1) && size[m[j].addr] == m[j].size
    {
      if j > 0 {
        assert m[j] == l[j - 1] && Link(m, j + 1) == Link(l, j);
        LinkedAt(head, next, size, l, live, j - 1);
        LiveElsewhere(l, live, b, j - 1);
      } else {
        assert Link(m, 1) == Link(l, 0);
      }
    }
    MakeLinked(b.addr, next', size, m, live - {b});
  }

  /** The freed block is linked in after the k blocks below it. */
  lemma LinkInsertAfter(head: int, next: seq<int>, size: seq<int>, l: seq<Mem>, live: set<Mem>, b: Mem, k: nat)
    requires Linked(head, next, size, l, live) && Chained(l, live) && b in live && 0 < k <= |l|
    ensures
      Linked(head, next[b.addr := next[l[k - 1].addr]][l[k - 1].addr := b.addr], size, InsertAt(l, k, b), live - {b})
  {
    hide InsertAt, Holds, Chained, Linked;
    LinkedEnds(head, next, size, l, live);
    LinkedAt(head, next, size, l, live, k - 1);
    var m := InsertAt(l, k, b);
    var next' := next[b.addr := next[l[k - 1].addr]][l[k - 1].addr := b.addr];
    LiveElsewhere(l, live, b, k - 1);
    forall j | 0 <= j < |m|
      ensures 0 <= m[j].addr < |next| && next'[m[j].addr] == Link(m, j + 1) && size[m[j].addr] == m[j].size
    {
      if j != k { LinkedAt(head, next, size, l, live, if j < k then j else j - 1); }
      if j < k {
        assert m[j] == l[j];
        LiveElsewhere(l, live, b, j);
        AddressesDiffer(l, live, j, k - 1);
      } else if j > k {
        assert m[j] == l[j - 1];
        LiveElsewhere(l, live, b, j - 1);
        AddressesDiffer(l, live, j - 1, k - 1);
      }
    }
    MakeLinked(head, next', size, m, live - {b});
  }

  lemma MakeLinked(head: int, next: seq<int>, size: seq<int>, l: seq<Mem>, live: set<Mem>)
    requires |next| == |size| && head == Link(l, 0)
    requires forall j :: 0 <= j < |l| ==> 0 <= l[j].addr < |next| && next[l[j].addr] == Link(l, j + 1) && size[l[j].addr] == l[j].size
    requires forall b :: b in live ==> 0 <= b.addr < |next| && size[b.addr] == b.size
    ensures Linked(head, next, size, l, live)
  {
  }

  lemma InsertChained(l: seq<Mem>, live: set<Mem>, b: Mem, k: nat)
    requires Chained(l, live) && b in live && k <= |l|
    requires (k > 0 ==> l[k - 1].addr < b.addr) && (k < |l| ==> b.addr < l[k].addr)
    requires forall c :: c in live && c != b ==> !Holds(c, b.addr)
    ensures Chained(InsertAt(l, k, b), live - {b})
  {
    hide InsertAt, Holds;
    var m := InsertAt(l, k, b);
    forall i, j | 0 <= i < j < |m|
      ensures m[i].addr < m[j].addr
    {
      assert m[i] == if i < k then l[i] else if i == k then b else l[i - 1];
      assert m[j] == if j < k then l[j] else if j == k then b else l[j - 1];
    }
    forall c, i | c in live - {b} && 0 <= i < |m|
      ensures !Holds(c, m[i].addr)
    {
      assert m[i] == if i < k then l[i] else if i == k then b else l[i - 1];
    }
  }

  /** cur->size += next->size + header, cur->next = next->next. */
  lemma LinkJoin(head: int, next: seq<int>, size: seq<int>, l: seq<Mem>, live: set<Mem>, i: nat)
    requires Linked(head, next, size, l, live) && Chained(l, live)
    requires i + 1 < |l| && End(l[i]) == l[i + 1].addr
    ensures Linked(head, next[l[i].addr := next[l[i + 1].addr]],
                   size[l[i].addr := l[i].size + l[i + 1].size + HEADER], TryToJoin(l, i), live)
  {
    hide RemoveAt, Holds, Chained, Linked;
    LinkedEnds(head, next, size, l, live);
    LinkedAt(head, next, size, l, live, i);
    LinkedAt(head, next, size, l, live, i + 1);
    var m := TryToJoin(l, i);
    var next' := next[l[i].addr := next[l[i + 1].addr]];
    var size' := size[l[i].addr := l[i].size + l[i + 1].size + HEADER];
    forall j | 0 <= j < |m|
      ensures 0 <= m[j].addr < |next| && next'[m[j].addr] == Link(m, j + 1) && size'[m[j].addr] == m[j].size
    {
      LinkedAt(head, next, size, l, live, if j <= i then j else j + 1);
      if j < i {
        assert m[j] == l[j];
        AddressesDiffer(l, live, j, i);
      } else if j > i {
        assert m[j] == l[j + 1];
        AddressesDiffer(l, live, j + 1, i);
      } else {
        assert next'[m[j].addr] == Link(l, i + 2) == Link(m, i + 1);
      }
    }
    forall b | b in live
      ensures size'[b.addr] == b.size
    {
      LiveElsewhere(l, live, b, i);
    }
    MakeLinked(head, next', size', m, live);
  }

  lemma JoinChained(l: seq<Mem>, live: set<Mem>, i: nat)
    requires Chained(l, live)
    ensures Chained(TryToJoin(l, i), live)
  {
    hide RemoveAt, Holds;
    var m := TryToJoin(l, i);
    if m != l {
      forall j | 0 <= j < |m|
        ensures m[j].addr == l[if j <= i then j else j + 1].addr
      {
      }
    }
  }

  /** Where the search loop of mem_free stops. */
  lemma PositionIs(l: seq<Mem>, addr: int, k: nat)
    requires Separated(l) && k <= |l|
    requires (forall j :: 0 <= j < k ==> l[j].addr < addr) && (k < |l| ==> addr <= l[k].addr)
    ensures Position(l, addr) == k
  {
  }

  lemma InsertedAt(l: seq<Mem>, k: nat, b: Mem)
    requires k <= |l|
    ensures |InsertAt(l, k, b)| == |l| + 1 && InsertAt(l, k, b)[k] == b
    ensures k > 0 ==> InsertAt(l, k, b)[k - 1] == l[k - 1]
  {
  }

  lemma JoinedKeepsBelow(l: seq<Mem>, k: nat)
    requires k < |l|
    ensures k < |TryToJoin(l, k)|
    ensures k > 0 ==> TryToJoin(l, k)[k - 1] == l[k - 1]
  {
  }

  lemma NothingToJoin(l: seq<Mem>)
    ensures TryToJoin(l, |l|) == l
  {
  }

  class FirstFitAllocator {
    var head: int
    const next: array<int>
    const size: array<int>
    const limit: int

    ghost var list: seq<Mem>
    ghost var live: set<Mem>

    ghost predicate Valid()
      reads this, next, size
    {
      && next != size && next.Length == limit
      && Linked(head, next[..], size[..], list, live)
      && WellFormed(list, live, limit)
    }

    /** limit is the number of bytes from the end of the buddy arena to HEAP_END_ADDR, less one. */
    constructor (limit: int)
      requires limit >= HEADER
      ensures Valid() && fresh(next) && fresh(size)
      ensures list == InitList(limit) && live == {} && this.limit == limit
    {
      this.limit := limit;
      next, size := new int[limit], new int[limit];
      head := 0;
      list, live := InitList(limit), {};
      new;
      next[0] := -1;
      size[0] := limit - HEADER;
      InitWellFormed(limit);
    }

    /** checkSize: the free bytes, which with one header per block and the live blocks make up the heap. */
    method CheckSize() returns (sum: int)
      requires Valid()
      ensures sum == Sizes(list)
      ensures limit >= HEADER ==> sum + HEADER * |list| + LiveFootprint(live) == limit
    {
      sum := 0;
      var cur := head;
      ghost var i := 0;
      while cur != -1
        invariant 0 <= i <= |list| && cur == Link(list, i)
        invariant sum + Sizes(list[i..]) == Sizes(list)
        decreases |list| - i
      {
        sum := sum + size[cur];
        cur := next[cur];
        i := i + 1;
      }
      if limit >= HEADER {
        Conservation(list, live, limit);
      }
    }

    /** No byte handed to a client in a block of `kept` is written. */
    twostate predicate PayloadKept(kept: set<Mem>)
      reads next, size
    {
      forall b, a :: b in kept && Holds(b, a) && b.addr + HEADER <= a && 0 <= a < next.Length && a < size.Length ==>
                       next[a] == old(next[a]) && size[a] == old(size[a])
    }

    /** Element i of the list, as the loops see it. */
    lemma Element(i: nat)
      requires Valid() && i <= |list|
      ensures head == Link(list, 0) && (Link(list, i) == -1 <==> i == |list|)
      ensures i < |list| ==> 0 <= list[i].addr < limit && next.Length == size.Length == limit
      ensures i < |list| ==> next[list[i].addr] == Link(list, i + 1) && size[list[i].addr] == list[i].size
    {
    }

    /** Unlinks the whole block i. */
    method TakeWhole(ghost i: nat, cur: int, prev: int, ghost bytes: int)
      requires Valid() && Fit(list, bytes) == i < |list| && bytes >= MEM_BLOCK_SIZE && list[i].size - bytes < HEADER
      requires cur == list[i].addr && prev == if i == 0 then -1 else list[i - 1].addr
      modifies this, next
      ensures Valid() && (Some(old(list)[i]), list) == AllocSpec(old(list), bytes)
      ensures live == old(live) + {old(list)[i]}
      ensures PayloadKept(old(live))
    {
      hide WellFormed, Linked, Fit, RemoveAt, Holds;
      WellFormedChained(list, live, limit);
      AllocKeeps(list, live, limit, bytes);
      LinkRemove(head, next[..], size[..], list, live, i);
      HeaderOutside(i);
      PrevElement(i);
      Element(i);
      ghost var nexts := next[..];
      if prev != -1 {
        next[prev] := next[cur];
      } else {
        head := next[cur];
      }
      next[cur] := -1;
      assert next[..] == if i == 0 then nexts[cur := -1] else nexts[prev := nexts[cur]][cur := -1];
      live := live + {list[i]};
      list := RemoveAt(list, i);
    }

    /** The words of a listed block's header lie in no live block. */
    lemma HeaderOutside(i: nat)
      requires Valid() && i < |list|
      ensures list[i].addr >= 0 && forall b :: b in live ==> !Holds(b, list[i].addr)
    {
      WellFormedChained(list, live, limit);
    }

    lemma PrevElement(i: nat)
      requires Valid() && i < |list|
      ensures i > 0 ==> 0 <= list[i - 1].addr < limit && forall b :: b in live ==> !Holds(b, list[i - 1].addr)
    {
      if i > 0 {
        HeaderOutside(i - 1);
      }
    }

    /** The remainder of block i is a free block of its own, outside every live block and below the next one. */
    lemma RemainderInside(i: nat, bytes: int)
      requires Valid() && i < |list| && bytes >= MEM_BLOCK_SIZE && list[i].size - bytes >= HEADER
      ensures var at := list[i].addr + bytes + HEADER;
        && list[i].addr < at < limit && (i + 1 < |list| ==> at < list[i + 1].addr)
        && forall b :: b in live ==> !Holds(b, at) && b.addr != at
    {
      var at := list[i].addr + bytes + HEADER;
      assert Holds(list[i], at);
      assert FreeAt(list, at);
      forall b | b in live
        ensures !Holds(b, at) && b.addr != at
      {
        assert Holds(b, at) ==> LiveAt(live, at);
      }
    }

    /** Cuts a block of the requested bytes from the front of block i. */
    method TakePart(ghost i: nat, cur: int, prev: int, bytes: int)
      requires Valid() && Fit(list, bytes) == i < |list| && bytes >= MEM_BLOCK_SIZE && list[i].size - bytes >= HEADER
      requires cur == list[i].addr && prev == if i == 0 then -1 else list[i - 1].addr
      modifies this, next, size
      ensures Valid() && (Some(Mem(cur, bytes)), list) == AllocSpec(old(list), bytes)
      ensures live == old(live) + {Mem(cur, bytes)}
      ensures PayloadKept(old(live))
    {
      hide WellFormed, Linked, Fit, Holds;
      WellFormedChained(list, live, limit);
      AllocKeeps(list, live, limit, bytes);
      RemainderInside(i, bytes);
      HeaderOutside(i);
      PrevElement(i);
      Element(i);
      ghost var r := Mem(list[i].addr + bytes + HEADER, list[i].size - bytes - HEADER);
      ghost var nexts, sizes := next[..], size[..];
      LinkSizes(head, nexts, sizes, list, live);
      LinkShrink(head, nexts, sizes, list, live, i, r, bytes);
      var rest := cur + bytes + HEADER;
      next[rest] := next[cur];
      size[rest] := size[cur] - bytes - HEADER;
      if prev != -1 {
        next[prev] := rest;
      } else {
        head := rest;
      }
      size[cur] := bytes;
      next[cur] := -1;
      assert size[..] == sizes[rest := r.size][cur := bytes];
      assert next[..] == if i == 0 then nexts[rest := nexts[cur]][cur := -1]
                         else nexts[rest := nexts[cur]][prev := rest][cur := -1];
      live := live + {Mem(cur, bytes)};
      list := list[i := r];
    }

    /** Takes the first block that is large enough, whole or split: 64 bytes for every block asked for, at least one block,
        at the lowest address where they fit together with a 16-byte header. */
    method MemAlloc(blocks: nat) returns (address: Option<int>)
      requires Valid()
      modifies this, next, size
      ensures Valid()
      ensures var w := if blocks > 1 then blocks else 1;
        && (address.None? <==> forall a :: !FreeRun(old(live), limit, a, 64 * w))
        && (address.None? ==> live == old(live) && list == old(list))
        && (address.Some? ==> exists b ::
              && b !in old(live) && live == old(live) + {b} && address == Some(b.addr + 16)
              && 64 * w <= b.size < 64 * w + 16 && (b.size == 64 * w || MaximalGap(b, old(live), limit))
              && (forall a :: FreeRun(old(live), limit, a, 64 * w) ==> b.addr <= a))
      ensures list == AllocSpec(old(list), 64 * if blocks > 1 then blocks else 1).1
      ensures PayloadKept(old(live))
    {
      hide Linked, WellFormed, AllocSpec, Fit, FreeRun, MaximalGap;
      var w := if blocks == 0 then 1 else blocks;
      ghost var r := AllocSpec(list, w * MEM_BLOCK_SIZE).0;
      Served(w * MEM_BLOCK_SIZE);
      address := TakeFit(w * MEM_BLOCK_SIZE);
      if r.Some? {
        assert r.value in live;
      }
    }

    /** The search loop of mem_alloc. */
    method TakeFit(bytes: int) returns (address: Option<int>)
      requires Valid() && bytes >= MEM_BLOCK_SIZE
      modifies this, next, size
      ensures Valid()
      ensures var (r, l) := AllocSpec(old(list), bytes);
        && list == l
        && live == old(live) + (if r.Some? then {r.value} else {})
        && address == if r.Some? then Some(r.value.addr + HEADER) else None
      ensures PayloadKept(old(live))
    {
      hide Linked, WellFormed, AllocSpec, Fit;
      var cur, prev := head, -1;
      ghost var i := 0;
      Element(0);
      while cur != -1
        invariant 0 <= i <= |list| && cur == Link(list, i) && prev == if i == 0 then -1 else list[i - 1].addr
        invariant forall j :: 0 <= j < i ==> list[j].size < bytes
        invariant Valid() && list == old(list) && live == old(live) && unchanged(next) && unchanged(size)
        decreases |list| - i
      {
        Element(i);
        if size[cur] >= bytes {
          address := Some(cur + HEADER);
          FitIs(list, bytes, i);
          if size[cur] - bytes < HEADER {
            TakeWhole(i, cur, prev, bytes);
          } else {
            TakePart(i, cur, prev, bytes);
          }
          return;
        }
        prev := cur;
        cur := next[cur];
        i := i + 1;
        Element(i);
      }
      Element(i);
      FitIs(list, bytes, i);
      NoFit(list, bytes);
      address := None;
    }

    /** What a request of so many bytes gets. */
    lemma Served(bytes: int)
      requires Valid() && bytes >= MEM_BLOCK_SIZE
      ensures var r := AllocSpec(list, bytes).0;
        && (r.None? <==> forall a :: !FreeRun(live, limit, a, bytes))
        && (r.None? ==> AllocSpec(list, bytes).1 == list)
        && (r.Some? ==>
              && r.value !in live && bytes <= r.value.size < bytes + HEADER
              && (r.value.size == bytes || MaximalGap(r.value, live, limit))
              && (forall a :: FreeRun(live, limit, a, bytes) ==> r.value.addr <= a))
    {
      hide Linked, WellFormed, AllocSpec, FreeRun, MaximalGap;
      AllocFailsExactly(list, live, limit, bytes);
      AllocKeeps(list, live, limit, bytes);
      if AllocSpec(list, bytes).0.Some? {
        AllocLowest(list, live, limit, bytes);
      }
    }

    /** Valid, but for neighbours that a release has not joined yet. */
    ghost predicate Consistent()
      reads this, next, size
    {
      next != size && next.Length == limit && Linked(head, next[..], size[..], list, live) && Chained(list, live)
    }

    lemma ConsistentElement(i: nat)
      requires Consistent() && i < |list|
      ensures 0 <= list[i].addr < limit && next.Length == size.Length == limit
      ensures next[list[i].addr] == Link(list, i + 1) && size[list[i].addr] == list[i].size
      ensures forall b :: b in live ==> !Holds(b, list[i].addr)
    {
    }

    /** Merges the block at cur with the next free block when they touch. */
    method TryToJoinAt(cur: int, ghost i: nat) returns (joined: int)
      requires Consistent() && (if cur == -1 then i >= |list| else i < |list| && list[i].addr == cur)
      modifies this`list, next, size
      ensures Consistent() && list == TryToJoin(old(list), i)
      ensures joined == if cur != -1 && i + 1 < |old(list)| && End(old(list)[i]) == old(list)[i + 1].addr then 1 else 0
      ensures i < |list| || cur == -1
      ensures PayloadKept(live)
    {
      hide Linked, Chained, Holds;
      if cur == -1 {
        return 0;
      }
      ConsistentElement(i);
      var n := next[cur];
      if i + 1 < |list| { ConsistentElement(i + 1); }
      if n != -1 {
        if cur + size[cur] + HEADER == n {
          LinkJoin(head, next[..], size[..], list, live, i);
          JoinChained(list, live, i);
          ghost var nexts, sizes := next[..], size[..];
          size[cur] := size[cur] + (size[n] + HEADER);
          next[cur] := next[n];
          assert next[..] == nexts[cur := nexts[n]];
          assert size[..] == sizes[cur := list[i].size + list[i + 1].size + HEADER];
          list := TryToJoin(list, i);
          return 1;
        }
      }
      joined := 0;
    }

    lemma LiveHeader(b: Mem)
      requires Valid() && b in live
      ensures 0 <= b.addr < limit && size.Length == next.Length == limit && size[b.addr] == b.size
      ensures b.size >= MEM_BLOCK_SIZE
      ensures forall c :: c in live && c != b ==> !Holds(c, b.addr)
      ensures forall i :: 0 <= i < |list| ==> list[i].addr + HEADER + list[i].size <= b.addr || End(b) <= list[i].addr
    {
      LiveIsClear(list, live, limit, b);
    }

    /** Links the block at newFree into the list behind cur, or in front when cur is null. */
    method LinkIn(newFree: int, cur: int, ghost k: nat, ghost b: Mem)
      requires Valid() && b in live && b.addr == newFree && k == Position(list, newFree)
      requires cur == if k == 0 then -1 else list[k - 1].addr
      modifies this, next
      ensures Consistent() && list == InsertAt(old(list), k, b) && live == old(live) - {b}
      ensures PayloadKept(live)
    {
      hide Linked, Chained, Holds, WellFormed, Position;
      LiveHeader(b);
      WellFormedChained(list, live, limit);
      if k < |list| { LiveElsewhere(list, live, b, k); }
      if k == 0 {
        LinkInsertFirst(head, next[..], size[..], list, live, b);
      } else {
        LinkInsertAfter(head, next[..], size[..], list, live, b, k);
      }
      InsertChained(list, live, b, k);
      ghost var nexts := next[..];
      if cur != -1 {
        ConsistentElement(k - 1);
        next[newFree] := next[cur];
        next[cur] := newFree;
        assert next[..] == nexts[newFree := nexts[cur]][cur := newFree];
      } else {
        if k > 0 { ConsistentElement(k - 1); }
        ghost var first := head;
        next[newFree] := head;
        head := newFree;
        assert next[..] == nexts[newFree := first];
      }
      list := InsertAt(list, k, b);
      live := live - {b};
    }

    /** The block below the freed one, or -1: the search at the start of mem_free. */
    method FindBelow(address: int, ghost b: Mem) returns (cur: int)
      requires Valid() && b in live && address == b.addr + HEADER
      ensures var k := Position(list, b.addr); if k == 0 then cur == -1 else cur == list[k - 1].addr && cur >= 0
    {
      hide Linked, WellFormed, Position, Separated;
      ListSeparated(list, live, limit);
      LiveHeader(b);
      Element(0);
      if head == -1 || address < head {
        if list != [] { Element(0); Below(b, 0); }
        PositionIs(list, b.addr, 0);
        return -1;
      }
      cur := head;
      ghost var k := 1;
      Below(b, 0);
      Element(0);
      Element(1);
      while next[cur] != -1 && address > next[cur]
        invariant 1 <= k <= |list| && cur == list[k - 1].addr && 0 <= cur < next.Length
        invariant next[cur] == Link(list, k) && (Link(list, k) == -1 <==> k == |list|)
        invariant forall j :: 0 <= j < k ==> list[j].addr < b.addr
        decreases |list| - k
      {
        Below(b, k);
        Element(k);
        cur := next[cur];
        k := k + 1;
        Element(k);
      }
      if k < |list| { Below(b, k); }
      PositionIs(list, b.addr, k);
    }

    /** Comparing the address after the freed header with a listed block's header orders the two blocks. */
    lemma Below(b: Mem, i: nat)
      requires Valid() && b in live && i < |list|
      ensures list[i].addr < b.addr <==> list[i].addr < b.addr + HEADER
      ensures list[i].addr != b.addr && list[i].addr != b.addr + HEADER
    {
      LiveHeader(b);
      WellFormedChained(list, live, limit);
      LiveElsewhere(list, live, b, i);
      assert !Holds(b, list[i].addr);
    }

    /** Links the block back in by address and joins it with the free neighbours it touches. */
    method MemFree(address: Option<int>, ghost b: Mem) returns (status: int)
      requires Valid()
      requires address.Some? ==> b in live && address.value == b.addr + HEADER
      modifies this, next, size
      ensures Valid() && status == 0
      ensures if address == None then list == old(list) && live == old(live)
              else list == FreeSpec(old(list), b) && live == old(live) - {b}
      ensures PayloadKept(live)
    {
      hide Linked, Chained, Holds, WellFormed, Position, TryToJoin, InsertAt;
      if address == None {
        return 0;
      }
      FreeKeeps(list, live, limit, b);
      LiveHeader(b);
      var cur := FindBelow(address.value, b);
      ghost var k := Position(list, b.addr);
      var newFree := address.value - HEADER;
      LinkIn(newFree, cur, k, b);
      InsertedAt(old(list), k, b);
      var joinedAfter := TryToJoinAt(newFree, k);
      JoinedKeepsBelow(InsertAt(old(list), k, b), k);
      var joinedBefore := TryToJoinAt(cur, if k > 0 then k - 1 else |list|);
      NothingToJoin(TryToJoin(InsertAt(old(list), k, b), k));
      return 0;
    }
  }
}
