/** The free list is a canonical function of the live blocks, and everything that follows from that. */
module FirstFitTheorems {
  import opened Wrappers
  import opened FirstFitSpec

  // ---------------------------------------------------------------- canonical form

  lemma TailSeparated(l: seq<Mem>)
    requires Separated(l) && l != []
    ensures Separated(l[1..])
    ensures forall p :: FreeAt(l[1..], p) <==> FreeAt(l, p) && !Holds(l[0], p)
    ensures forall p :: FreeAt(l[1..], p) ==> p > End(l[0])
  {
    forall p
      ensures FreeAt(l[1..], p) <==> FreeAt(l, p) && !Holds(l[0], p)
      ensures FreeAt(l[1..], p) ==> p > End(l[0])
    {
      if FreeAt(l[1..], p) {
        var i :| 0 <= i < |l[1..]| && Holds(l[1..][i], p);
        assert Holds(l[i + 1], p);
      }
      if FreeAt(l, p) && !Holds(l[0], p) {
        var i :| 0 <= i < |l| && Holds(l[i], p);
        assert Holds(l[1..][i - 1], p);
      }
    }
  }

  lemma HeadIsFirst(l: seq<Mem>)
    requires Separated(l) && l != []
    ensures FreeAt(l, l[0].addr) && !FreeAt(l, End(l[0]))
    ensures forall p :: p < l[0].addr ==> !FreeAt(l, p)
    ensures forall p :: Holds(l[0], p) ==> FreeAt(l, p)
  {
    assert Holds(l[0], l[0].addr);
    TailSeparated(l);
    assert !Holds(l[0], End(l[0]));
  }

  lemma SameHead(l: seq<Mem>, m: seq<Mem>)
    requires Separated(l) && Separated(m) && l != [] && m != []
    requires forall p :: FreeAt(l, p) <==> FreeAt(m, p)
    ensures l[0] == m[0]
  {
    HeadIsFirst(l);
    HeadIsFirst(m);
    assert FreeAt(l, l[0].addr) <==> FreeAt(m, l[0].addr);
    assert FreeAt(l, m[0].addr) <==> FreeAt(m, m[0].addr);
    assert FreeAt(l, End(l[0])) <==> FreeAt(m, End(l[0]));
    assert FreeAt(l, End(m[0])) <==> FreeAt(m, End(m[0]));
  }

  lemma NothingFree(l: seq<Mem>)
    requires Separated(l) && forall p :: !FreeAt(l, p)
    ensures l == []
  {
    if l != [] {
      HeadIsFirst(l);
    }
  }

  /** Separated lists that hold the same bytes are equal. */
  lemma {:induction false} SameBytesSameList(l: seq<Mem>, m: seq<Mem>)
    requires Separated(l) && Separated(m) && forall p :: FreeAt(l, p) <==> FreeAt(m, p)
    ensures l == m
    decreases |l|
  {
    if l == [] {
      NothingFree(m);
    } else if m == [] {
      NothingFree(l);
    } else {
      SameHead(l, m);
      TailSeparated(l);
      TailSeparated(m);
      SameBytesSameList(l[1..], m[1..]);
      assert l == [l[0]] + l[1..] && m == [m[0]] + m[1..];
    }
  }

  /** The free list is determined by the live set. */
  lemma Canonical(l: seq<Mem>, m: seq<Mem>, live: set<Mem>, limit: int)
    requires WellFormed(l, live, limit) && WellFormed(m, live, limit)
    ensures l == m
  {
    forall p
      ensures FreeAt(l, p) <==> FreeAt(m, p)
    {
      assert FreeAt(l, p) <==> 0 <= p < limit && !LiveAt(live, p);
    }
    SameBytesSameList(l, m);
  }

  // ---------------------------------------------------------------- allocation

  lemma DropSeparated(l: seq<Mem>, i: nat)
    requires Separated(l) && i < |l|
    ensures Separated(RemoveAt(l, i))
  {
    var m := RemoveAt(l, i);
  }

  lemma HoldsOnce(l: seq<Mem>, i: nat, j: nat, p: int)
    requires Separated(l) && i < |l| && j < |l| && i != j && Holds(l[j], p)
    ensures !Holds(l[i], p)
  {
  }

  lemma DropBytes(l: seq<Mem>, i: nat, p: int)
    requires Separated(l) && i < |l|
    ensures FreeAt(RemoveAt(l, i), p) <==> FreeAt(l, p) && !Holds(l[i], p)
  {
    hide RemoveAt, Separated, Holds;
    var m := RemoveAt(l, i);
    if FreeAt(m, p) {
      var j :| 0 <= j < |m| && Holds(m[j], p);
      var k := if j < i then j else j + 1;
      assert m[j] == l[k];
      HoldsOnce(l, i, k, p);
    }
    if FreeAt(l, p) && !Holds(l[i], p) {
      var j :| 0 <= j < |l| && Holds(l[j], p);
      var k := if j < i then j else j - 1;
      assert m[k] == l[j];
    }
  }

  lemma ShrinkBytes(l: seq<Mem>, i: nat, r: Mem)
    requires Separated(l) && i < |l| && l[i].addr <= r.addr && End(r) == End(l[i]) && r.size >= 0
    ensures Separated(l[i := r])
    ensures forall p :: FreeAt(l[i := r], p) <==> FreeAt(l, p) && !(l[i].addr <= p < r.addr)
  {
    var m := l[i := r];
    forall p
      ensures FreeAt(m, p) <==> FreeAt(l, p) && !(l[i].addr <= p < r.addr)
    {
      if FreeAt(m, p) {
        var j :| 0 <= j < |m| && Holds(m[j], p);
        assert Holds(l[j], p);
      }
      if FreeAt(l, p) && !(l[i].addr <= p < r.addr) {
        var j :| 0 <= j < |l| && Holds(l[j], p);
        assert Holds(m[j], p);
      }
    }
  }

  /** The bytes handed out, and only those, stop being free; the list stays separated. */
  lemma AllocBytes(l: seq<Mem>, size: int)
    requires Separated(l) && size > 0
    ensures Separated(AllocSpec(l, size).1)
    ensures match AllocSpec(l, size).0
      case None => AllocSpec(l, size).1 == l
      case Some(b) =>
        && size <= b.size < size + HEADER
        && (forall p :: FreeAt(AllocSpec(l, size).1, p) <==> FreeAt(l, p) && !Holds(b, p))
        && (forall p :: Holds(b, p) ==> FreeAt(l, p))
  {
    var i := Fit(l, size);
    if i < |l| {
      var b := l[i];
      assert forall p :: Holds(b, p) ==> FreeAt(l, p);
      if b.size - size < HEADER {
        DropSeparated(l, i);
        forall p
          ensures FreeAt(AllocSpec(l, size).1, p) <==> FreeAt(l, p) && !Holds(b, p)
        {
          DropBytes(l, i, p);
        }
      } else {
        ShrinkBytes(l, i, Mem(b.addr + size + HEADER, b.size - size - HEADER));
      }
    }
  }

  /** Allocation adds one block, disjoint from all live ones, to the live set; a failure changes nothing. */
  lemma AllocKeeps(l: seq<Mem>, live: set<Mem>, limit: int, size: int)
    requires WellFormed(l, live, limit) && size >= MEM_BLOCK_SIZE
    ensures match AllocSpec(l, size).0
      case None => AllocSpec(l, size).1 == l
      case Some(b) => b !in live && WellFormed(AllocSpec(l, size).1, live + {b}, limit)
  {
    AllocBytes(l, size);
    var (r, m) := AllocSpec(l, size);
    if r.Some? {
      var b := r.value;
      assert FreeAt(l, b.addr) by { assert Holds(b, b.addr); }
      AddLive(live, b, l);
      forall p
        ensures LiveAt(live + {b}, p) <==> LiveAt(live, p) || Holds(b, p)
      {
        AddLiveAt(live, b, p);
      }
    }
  }

  lemma AddLiveAt(live: set<Mem>, b: Mem, p: int)
    ensures LiveAt(live + {b}, p) <==> LiveAt(live, p) || Holds(b, p)
  {
    if LiveAt(live, p) {
      var c :| c in live && Holds(c, p);
      assert c in live + {b};
    }
    assert b in live + {b};
  }

  lemma AddLive(live: set<Mem>, b: Mem, l: seq<Mem>)
    requires LiveBlocks(live) && b.size >= MEM_BLOCK_SIZE
    requires forall p :: Holds(b, p) ==> FreeAt(l, p)
    requires forall p :: !(FreeAt(l, p) && LiveAt(live, p))
    ensures LiveBlocks(live + {b}) && b !in live
  {
    forall c | c in live
      ensures c != b && (End(b) <= c.addr || End(c) <= b.addr)
    {
      var p := if b.addr < c.addr then c.addr else b.addr;
      assert Holds(c, p) ==> LiveAt(live, p);
    }
  }

  // ---------------------------------------------------------------- failure

  /** A run of free bytes lies inside one free block. */
  lemma {:induction false} RunInOneBlock(l: seq<Mem>, a: int, n: int) returns (i: nat)
    requires Separated(l) && n > 0 && forall p :: a <= p < a + n ==> FreeAt(l, p)
    ensures i < |l| && l[i].addr <= a && a + n <= End(l[i])
    decreases n
  {
    if n == 1 {
      assert FreeAt(l, a);
      i :| 0 <= i < |l| && Holds(l[i], a);
    } else {
      i := RunInOneBlock(l, a, n - 1);
      assert FreeAt(l, a + n - 1);
      var j :| 0 <= j < |l| && Holds(l[j], a + n - 1);
    }
  }

  /** A header and size bytes at a are inside the heap and in no live block. */
  ghost predicate FreeRun(live: set<Mem>, limit: int, a: int, size: int) {
    forall p :: a <= p < a + HEADER + size ==> 0 <= p < limit && !LiveAt(live, p)
  }

  /** A run of at least a header's length that is neither live nor can be extended at either end. */
  ghost predicate MaximalGap(b: Mem, live: set<Mem>, limit: int) {
    && b.size >= 0
    && (forall p :: Holds(b, p) ==> 0 <= p < limit && !LiveAt(live, p))
    && !(0 <= b.addr - 1 < limit && !LiveAt(live, b.addr - 1))
    && !(0 <= End(b) < limit && !LiveAt(live, End(b)))
  }

  /** The free list is the list of the maximal gaps between the live blocks. */
  lemma FreeListIsMaximalGaps(l: seq<Mem>, live: set<Mem>, limit: int, b: Mem)
    requires WellFormed(l, live, limit)
    ensures b in l <==> MaximalGap(b, live, limit)
  {
    forall p
      ensures FreeAt(l, p) <==> 0 <= p < limit && !LiveAt(live, p)
    {
      FreeByte(l, live, limit, p);
    }
    hide LiveAt;
    if b in l {
      ListedIsMaximal(l, b);
    }
    if MaximalGap(b, live, limit) {
      assert forall p :: Holds(b, p) ==> FreeAt(l, p);
      assert !FreeAt(l, b.addr - 1) && !FreeAt(l, End(b));
      MaximalIsListed(l, b);
    }
  }

  lemma ListedIsMaximal(l: seq<Mem>, b: Mem)
    requires Separated(l) && b in l
    ensures b.size >= 0 && (forall p :: Holds(b, p) ==> FreeAt(l, p)) && !FreeAt(l, b.addr - 1) && !FreeAt(l, End(b))
  {
    var i :| 0 <= i < |l| && l[i] == b;
  }

  lemma MaximalIsListed(l: seq<Mem>, b: Mem)
    requires Separated(l) && b.size >= 0 && (forall p :: Holds(b, p) ==> FreeAt(l, p))
    requires !FreeAt(l, b.addr - 1) && !FreeAt(l, End(b))
    ensures b in l
  {
    assert forall p :: b.addr <= p < b.addr + (HEADER + b.size) ==> Holds(b, p);
    var i := RunInOneBlock(l, b.addr, HEADER + b.size);
    assert forall p :: Holds(l[i], p) ==> FreeAt(l, p);
    assert !Holds(l[i], b.addr - 1) && !Holds(l[i], End(b));
    assert l[i] == b;
  }

  lemma BlockIsRun(l: seq<Mem>, live: set<Mem>, limit: int, i: nat, size: int)
    requires WellFormed(l, live, limit) && i < |l| && l[i].size >= size
    ensures FreeRun(live, limit, l[i].addr, size)
  {
    var a := l[i].addr;
    forall p | a <= p < a + HEADER + size
      ensures FreeAt(l, p)
    {
      assert Holds(l[i], p);
    }
    FreeIsRun(l, live, limit, a, size);
  }

  lemma FreeIsRun(l: seq<Mem>, live: set<Mem>, limit: int, a: int, size: int)
    requires WellFormed(l, live, limit) && forall p :: a <= p < a + HEADER + size ==> FreeAt(l, p)
    ensures FreeRun(live, limit, a, size)
  {
    hide FreeAt, LiveAt, WellFormed;
    if !FreeRun(live, limit, a, size) {
      var p :| a <= p < a + HEADER + size && !(0 <= p < limit && !LiveAt(live, p));
      assert FreeAt(l, p);
      FreeByte(l, live, limit, p);
    }
  }

  lemma FreeByte(l: seq<Mem>, live: set<Mem>, limit: int, p: int)
    requires WellFormed(l, live, limit)
    ensures FreeAt(l, p) <==> 0 <= p < limit && !LiveAt(live, p)
  {
    hide FreeAt, LiveAt, Separated, LiveBlocks;
    assert FreeAt(l, p) || LiveAt(live, p) <==> 0 <= p < limit;
    assert !(FreeAt(l, p) && LiveAt(live, p));
  }

  lemma RunIsFree(l: seq<Mem>, live: set<Mem>, limit: int, a: int, size: int)
    requires WellFormed(l, live, limit) && FreeRun(live, limit, a, size)
    ensures forall p :: a <= p < a + HEADER + size ==> FreeAt(l, p)
  {
    forall p | a <= p < a + HEADER + size
      ensures FreeAt(l, p)
    {
      FreeByte(l, live, limit, p);
    }
  }

  /** A request fails exactly when no run of free bytes holds it together with a header. */
  lemma AllocFailsExactly(l: seq<Mem>, live: set<Mem>, limit: int, size: int)
    requires WellFormed(l, live, limit) && size > 0
    ensures AllocSpec(l, size).0.None? <==> !exists a :: FreeRun(live, limit, a, size)
  {
    hide WellFormed, FreeRun;
    var i := Fit(l, size);
    if i < |l| {
      BlockIsRun(l, live, limit, i, size);
    } else {
      forall a
        ensures !FreeRun(live, limit, a, size)
      {
        if FreeRun(live, limit, a, size) {
          RunIsFree(l, live, limit, a, size);
          ListSeparated(l, live, limit);
          var j := RunInOneBlock(l, a, HEADER + size);
        }
      }
    }
  }

  /** The block handed out is at the lowest address at which the request fits together with its header, and it is no
      larger than asked for unless it is a whole gap. */
  lemma AllocLowest(l: seq<Mem>, live: set<Mem>, limit: int, size: int)
    requires WellFormed(l, live, limit) && size > 0 && AllocSpec(l, size).0.Some?
    ensures var b := AllocSpec(l, size).0.value;
      && FreeRun(live, limit, b.addr, size) && (forall a :: FreeRun(live, limit, a, size) ==> b.addr <= a)
      && size <= b.size < size + HEADER && (b.size == size || MaximalGap(b, live, limit))
  {
    ListSeparated(l, live, limit);
    hide WellFormed, FreeRun, MaximalGap, Separated;
    var i, b := Fit(l, size), AllocSpec(l, size).0.value;
    BlockIsRun(l, live, limit, i, size);
    forall a | FreeRun(live, limit, a, size)
      ensures b.addr <= a
    {
      RunIsFree(l, live, limit, a, size);
      var j := RunInOneBlock(l, a, HEADER + size);
      AddressOrder(l, i, j);
    }
    if b.size != size {
      FreeListIsMaximalGaps(l, live, limit, b);
    }
  }

  lemma AddressOrder(l: seq<Mem>, i: nat, j: nat)
    requires Separated(l) && i <= j < |l|
    ensures l[i].addr <= l[j].addr
  {
  }

  lemma ListSeparated(l: seq<Mem>, live: set<Mem>, limit: int)
    requires WellFormed(l, live, limit)
    ensures Separated(l)
  {
  }

  // ---------------------------------------------------------------- release

  /** Neighbours in order and disjoint, with a gap after place i unless i is excepted. */
  ghost predicate SeparatedBut(l: seq<Mem>, except: set<int>) {
    && (forall i :: 0 <= i < |l| ==> l[i].size >= 0)
    && (forall i :: 0 <= i < |l| - 1 ==> End(l[i]) <= l[i + 1].addr && (i !in except ==> End(l[i]) < l[i + 1].addr))
  }

  lemma {:induction false} NeighboursSuffice(l: seq<Mem>, i: nat, j: nat)
    requires SeparatedBut(l, {}) && i < j < |l|
    ensures End(l[i]) < l[j].addr
    decreases j
  {
    if i < j - 1 {
      NeighboursSuffice(l, i, j - 1);
      assert End(l[j - 1]) < l[j - 1 + 1].addr;
    }
  }

  /** Joining at the last excepted place removes the exception. */
  lemma JoinRemoves(l: seq<Mem>, except: set<int>, i: nat)
    requires SeparatedBut(l, except) && forall e :: e in except ==> e <= i
    ensures SeparatedBut(TryToJoin(l, i), except - {i})
  {
    hide RemoveAt;
    var m := TryToJoin(l, i);
    if m != l {
      assert End(m[i]) == End(l[i + 1]) && m[i].addr == l[i].addr;
      forall j | 0 <= j < |m| - 1
        ensures End(m[j]) <= m[j + 1].addr && (j !in except - {i} ==> End(m[j]) < m[j + 1].addr)
      {
        if j < i {
          assert m[j] == l[j] && m[j + 1].addr == l[j + 1].addr;
        } else if j == i {
          assert m[j + 1] == l[j + 2] && End(l[j + 1]) <= l[j + 1 + 1].addr;
        } else {
          assert m[j] == l[j + 1] && m[j + 1] == l[j + 1 + 1];
        }
      }
    }
  }

  lemma JoinBytes(l: seq<Mem>, i: nat, p: int)
    requires forall j :: 0 <= j < |l| ==> l[j].size >= 0
    ensures FreeAt(TryToJoin(l, i), p) <==> FreeAt(l, p)
  {
    var m := TryToJoin(l, i);
    if m != l {
      if FreeAt(m, p) {
        var j :| 0 <= j < |m| && Holds(m[j], p);
        assert Holds(l[if j < i || (j == i && p < End(l[i])) then j else j + 1], p);
      }
      if FreeAt(l, p) {
        var j :| 0 <= j < |l| && Holds(l[j], p);
        assert Holds(m[if j <= i then j else j - 1], p);
      }
    }
  }

  lemma InsertBytes(l: seq<Mem>, k: nat, b: Mem, p: int)
    requires k <= |l|
    ensures FreeAt(InsertAt(l, k, b), p) <==> FreeAt(l, p) || Holds(b, p)
  {
    var m := InsertAt(l, k, b);
    if FreeAt(m, p) && !Holds(b, p) {
      var j :| 0 <= j < |m| && Holds(m[j], p);
      assert Holds(l[if j < k then j else j - 1], p);
    }
    if FreeAt(l, p) {
      var j :| 0 <= j < |l| && Holds(l[j], p);
      assert Holds(m[if j < k then j else j + 1], p);
    }
    assert m[k] == b;
  }

  /** A freed block keeps clear of every free one. */
  ghost predicate Clear(l: seq<Mem>, b: Mem) {
    b.size >= 0 && forall i :: 0 <= i < |l| ==> End(l[i]) <= b.addr || End(b) <= l[i].addr
  }

  lemma SeparatedNeighbours(l: seq<Mem>)
    requires Separated(l)
    ensures SeparatedBut(l, {})
  {
  }

  lemma InsertSeparated(l: seq<Mem>, b: Mem)
    requires Separated(l) && Clear(l, b)
    ensures var k: int := Position(l, b.addr); SeparatedBut(InsertAt(l, k, b), {k - 1, k})
  {
    hide InsertAt, Position, Separated;
    SeparatedNeighbours(l);
    var k: int := Position(l, b.addr);
    var m := InsertAt(l, k, b);
    assert k > 0 ==> End(l[k - 1]) <= b.addr;
    assert k < |l| ==> End(b) <= l[k].addr;
    forall j | 0 <= j < |m| - 1
      ensures End(m[j]) <= m[j + 1].addr && (j !in {k - 1, k} ==> End(m[j]) < m[j + 1].addr)
    {
      if j < k - 1 {
        assert m[j] == l[j] && m[j + 1] == l[j + 1];
      } else if j == k - 1 {
        assert m[j] == l[j] && m[j + 1] == b;
      } else if j == k {
        assert m[j + 1] == l[k];
      } else {
        assert m[j] == l[j - 1] && m[j + 1] == l[j];
      }
    }
  }

  /** The two joins leave no adjacent blocks. */
  lemma FreeSeparated(l: seq<Mem>, b: Mem)
    requires Separated(l) && Clear(l, b)
    ensures Separated(FreeSpec(l, b))
  {
    hide Position, TryToJoin, InsertAt;
    var k: int := Position(l, b.addr);
    var m := InsertAt(l, k, b);
    InsertSeparated(l, b);
    JoinRemoves(m, {k - 1, k}, k);
    assert {k - 1, k} - {k} == {k - 1};
    if k > 0 {
      JoinRemoves(TryToJoin(m, k), {k - 1}, k - 1);
    }
    assert SeparatedBut(FreeSpec(l, b), {}) by {
      assert {k - 1} - {k - 1} == {};
      assert k == 0 ==> SeparatedBut(TryToJoin(m, k), {-1});
    }
    forall i, j | 0 <= i < j < |FreeSpec(l, b)|
      ensures End(FreeSpec(l, b)[i]) < FreeSpec(l, b)[j].addr
    {
      NeighboursSuffice(FreeSpec(l, b), i, j);
    }
  }

  /** The freed bytes, and only those, become free. */
  lemma FreeBytes(l: seq<Mem>, b: Mem)
    requires Separated(l) && Clear(l, b)
    ensures forall p :: FreeAt(FreeSpec(l, b), p) <==> FreeAt(l, p) || Holds(b, p)
  {
    var k := Position(l, b.addr);
    var m := InsertAt(l, k, b);
    var joined := TryToJoin(m, k);
    forall p
      ensures FreeAt(FreeSpec(l, b), p) <==> FreeAt(l, p) || Holds(b, p)
    {
      InsertBytes(l, k, b, p);
      JoinBytes(m, k, p);
      if k > 0 { JoinBytes(joined, k - 1, p); }
    }
  }

  lemma LiveIsClear(l: seq<Mem>, live: set<Mem>, limit: int, b: Mem)
    requires WellFormed(l, live, limit) && b in live
    ensures Clear(l, b)
  {
    forall i | 0 <= i < |l|
      ensures End(l[i]) <= b.addr || End(b) <= l[i].addr
    {
      var p := if l[i].addr < b.addr then b.addr else l[i].addr;
      assert Holds(b, p) ==> LiveAt(live, p);
      assert Holds(l[i], p) ==> FreeAt(l, p);
    }
  }

  lemma RemoveLiveAt(live: set<Mem>, b: Mem, p: int)
    requires LiveBlocks(live) && b in live
    ensures LiveAt(live - {b}, p) <==> LiveAt(live, p) && !Holds(b, p)
  {
    if LiveAt(live, p) {
      var c :| c in live && Holds(c, p);
      assert c != b ==> c in live - {b};
    }
  }

  /** Releasing a live block takes exactly it out of the live set. */
  lemma FreeKeeps(l: seq<Mem>, live: set<Mem>, limit: int, b: Mem)
    requires WellFormed(l, live, limit) && b in live
    ensures WellFormed(FreeSpec(l, b), live - {b}, limit)
  {
    LiveIsClear(l, live, limit, b);
    FreeSeparated(l, b);
    FreeBytes(l, b);
    forall p
      ensures LiveAt(live - {b}, p) <==> LiveAt(live, p) && !Holds(b, p)
      ensures Holds(b, p) ==> LiveAt(live, p)
    {
      RemoveLiveAt(live, b, p);
    }
  }

  // ---------------------------------------------------------------- consequences of the canonical form

  /** Freeing what was just allocated gives back the identical list, whether the block was split or taken whole. */
  lemma AllocFreeRoundTrip(l: seq<Mem>, live: set<Mem>, limit: int, size: int)
    requires WellFormed(l, live, limit) && size >= MEM_BLOCK_SIZE
    ensures var (r, m) := AllocSpec(l, size); r.Some? ==> FreeSpec(m, r.value) == l
  {
    var (r, m) := AllocSpec(l, size);
    AllocKeeps(l, live, limit, size);
    if r.Some? {
      FreeKeeps(m, live + {r.value}, limit, r.value);
      assert live + {r.value} - {r.value} == live;
      Canonical(FreeSpec(m, r.value), l, live, limit);
    }
  }

  /** Any two releases commute. */
  lemma FreesCommute(l: seq<Mem>, live: set<Mem>, limit: int, b: Mem, c: Mem)
    requires WellFormed(l, live, limit) && b in live && c in live && b != c
    ensures FreeSpec(FreeSpec(l, b), c) == FreeSpec(FreeSpec(l, c), b)
  {
    FreeKeeps(l, live, limit, b);
    FreeKeeps(FreeSpec(l, b), live - {b}, limit, c);
    FreeKeeps(l, live, limit, c);
    FreeKeeps(FreeSpec(l, c), live - {c}, limit, b);
    assert live - {b} - {c} == live - {c} - {b};
    Canonical(FreeSpec(FreeSpec(l, b), c), FreeSpec(FreeSpec(l, c), b), live - {b} - {c}, limit);
  }

  function FreeAll(l: seq<Mem>, bs: seq<Mem>): seq<Mem>
    decreases |bs|
  {
    if bs == [] then l else FreeAll(FreeSpec(l, bs[0]), bs[1..])
  }

  lemma InitWellFormed(limit: int)
    requires limit >= HEADER
    ensures WellFormed(InitList(limit), {}, limit)
  {
    forall p
      ensures FreeAt(InitList(limit), p) <==> 0 <= p < limit
    {
      assert Holds(InitList(limit)[0], p) <==> 0 <= p < limit;
    }
  }

  /** Freeing every live block, in any order, restores the list init built. */
  lemma {:induction false} FreeAllRestoresInit(l: seq<Mem>, live: set<Mem>, limit: int, bs: seq<Mem>)
    requires WellFormed(l, live, limit) && limit >= HEADER
    requires forall i, j :: 0 <= i < j < |bs| ==> bs[i] != bs[j]
    requires forall b :: b in bs <==> b in live
    ensures FreeAll(l, bs) == InitList(limit)
    decreases |bs|
  {
    if bs == [] {
      assert live == {};
      InitWellFormed(limit);
      Canonical(l, InitList(limit), {}, limit);
    } else {
      assert bs == [bs[0]] + bs[1..];
      FreeKeeps(l, live, limit, bs[0]);
      FreeAllRestoresInit(FreeSpec(l, bs[0]), live - {bs[0]}, limit, bs[1..]);
    }
  }

  // ---------------------------------------------------------------- conservation

  /** Bytes of the blocks of a list, headers included. */
  function Footprint(l: seq<Mem>): int {
    if l == [] then 0 else HEADER + l[0].size + Footprint(l[1..])
  }

  /** What checkSize adds up. */
  function Sizes(l: seq<Mem>): int {
    if l == [] then 0 else l[0].size + Sizes(l[1..])
  }

  lemma {:induction false} FootprintIsSizes(l: seq<Mem>)
    ensures Footprint(l) == Sizes(l) + HEADER * |l|
    decreases |l|
  {
    if l != [] {
      FootprintIsSizes(l[1..]);
    }
  }

  lemma {:induction false} FootprintReplace(l: seq<Mem>, i: nat, r: Mem)
    requires i < |l|
    ensures Footprint(l[i := r]) == Footprint(l) - l[i].size + r.size
    decreases i
  {
    if i == 0 {
      assert l[0 := r][1..] == l[1..];
    } else {
      assert l[i := r][1..] == l[1..][i - 1 := r];
      FootprintReplace(l[1..], i - 1, r);
    }
  }

  lemma {:induction false} FootprintRemove(l: seq<Mem>, i: nat)
    requires i < |l|
    ensures Footprint(RemoveAt(l, i)) == Footprint(l) - HEADER - l[i].size
    decreases i
  {
    if i == 0 {
      assert RemoveAt(l, 0) == l[1..];
    } else {
      assert RemoveAt(l, i)[1..] == RemoveAt(l[1..], i - 1);
      FootprintRemove(l[1..], i - 1);
    }
  }

  lemma FootprintInsert(l: seq<Mem>, k: nat, b: Mem)
    requires k <= |l|
    ensures Footprint(InsertAt(l, k, b)) == Footprint(l) + HEADER + b.size
  {
    FootprintRemove(InsertAt(l, k, b), k);
    assert RemoveAt(InsertAt(l, k, b), k) == l;
  }

  lemma JoinFootprint(l: seq<Mem>, i: nat)
    ensures Footprint(TryToJoin(l, i)) == Footprint(l)
  {
    if i + 1 < |l| {
      FootprintRemove(l, i + 1);
      FootprintReplace(RemoveAt(l, i + 1), i, Mem(l[i].addr, l[i].size + l[i + 1].size + HEADER));
    }
  }

  /** Release moves exactly the block's bytes and header back. */
  lemma FreeConserves(l: seq<Mem>, b: Mem)
    ensures Footprint(FreeSpec(l, b)) == Footprint(l) + HEADER + b.size
  {
    var k := Position(l, b.addr);
    FootprintInsert(l, k, b);
    JoinFootprint(InsertAt(l, k, b), k);
    if k > 0 {
      JoinFootprint(TryToJoin(InsertAt(l, k, b), k), k - 1);
    }
  }

  /** Bytes of the live blocks, headers included. */
  ghost function LiveFootprint(live: set<Mem>): int {
    if live == {} then 0 else
      var b :| b in live;
      HEADER + b.size + LiveFootprint(live - {b})
  }

  lemma {:induction false} LiveFootprintRemove(live: set<Mem>, b: Mem)
    requires b in live
    ensures LiveFootprint(live) == HEADER + b.size + LiveFootprint(live - {b})
    decreases |live|
  {
    var c :| c in live && LiveFootprint(live) == HEADER + c.size + LiveFootprint(live - {c});
    if c != b {
      LiveFootprintRemove(live - {c}, b);
      LiveFootprintRemove(live - {b}, c);
      assert live - {c} - {b} == live - {b} - {c};
    }
  }

  /** In every state, free bytes, live bytes and one header per block add up to the heap. */
  lemma {:induction false} Conservation(l: seq<Mem>, live: set<Mem>, limit: int)
    requires WellFormed(l, live, limit) && limit >= HEADER
    ensures Sizes(l) + HEADER * |l| + LiveFootprint(live) == limit
    decreases |live|
  {
    FootprintIsSizes(l);
    if live == {} {
      InitWellFormed(limit);
      Canonical(l, InitList(limit), live, limit);
    } else {
      var b :| b in live;
      FreeKeeps(l, live, limit, b);
      FreeConserves(l, b);
      Conservation(FreeSpec(l, b), live - {b}, limit);
      FootprintIsSizes(FreeSpec(l, b));
      LiveFootprintRemove(live, b);
    }
  }
}
