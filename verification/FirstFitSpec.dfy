/** The first-fit allocator of src/kmemoryAllocator.cpp as functions on its address-ordered free list. */
module FirstFitSpec {
  import opened Wrappers

  /** sizeof(FreeMem): the next and size words in front of every block. */
  const HEADER: int := 16

  const MEM_BLOCK_SIZE: int := 64

  /** A header at offset addr of the heap followed by size bytes. */
  datatype Mem = Mem(addr: int, size: int)

  function End(b: Mem): int {
    b.addr + HEADER + b.size
  }

  predicate Holds(b: Mem, p: int) {
    b.addr <= p < End(b)
  }

  /** Sorted by address with a gap between any two: never two adjacent free blocks. */
  ghost predicate Separated(l: seq<Mem>) {
    && (forall i :: 0 <= i < |l| ==> l[i].size >= 0)
    && (forall i, j :: 0 <= i < j < |l| ==> End(l[i]) < l[j].addr)
  }

  ghost predicate FreeAt(l: seq<Mem>, p: int) {
    exists i :: 0 <= i < |l| && Holds(l[i], p)
  }

  ghost predicate LiveAt(live: set<Mem>, p: int) {
    exists b :: b in live && Holds(b, p)
  }

  ghost predicate LiveBlocks(live: set<Mem>) {
    && (forall b :: b in live ==> b.size >= MEM_BLOCK_SIZE)
    && (forall b, c :: b in live && c in live && b != c ==> End(b) <= c.addr || End(c) <= b.addr)
  }

  /** The free list is separated, and every byte of 0 .. limit is either free or live, never both. */
  ghost predicate WellFormed(l: seq<Mem>, live: set<Mem>, limit: int) {
    && Separated(l)
    && LiveBlocks(live)
    && (forall p :: FreeAt(l, p) || LiveAt(live, p) <==> 0 <= p < limit)
    && (forall p :: !(FreeAt(l, p) && LiveAt(live, p)))
  }

  // ---------------------------------------------------------------- allocation

  /** Index of the first block with room for the request. */
  function Fit(l: seq<Mem>, size: int): (i: nat)
    ensures i <= |l|
    ensures forall j :: 0 <= j < i ==> l[j].size < size
    ensures i < |l| ==> l[i].size >= size
  {
    if l == [] || l[0].size >= size then 0 else 1 + Fit(l[1..], size)
  }

  function RemoveAt(l: seq<Mem>, i: nat): (m: seq<Mem>)
    requires i < |l|
    ensures |m| == |l| - 1
    ensures forall j :: 0 <= j < |m| ==> m[j] == l[if j < i then j else j + 1]
  {
    l[..i] + l[i + 1..]
  }

  function InsertAt(l: seq<Mem>, k: nat, b: Mem): (m: seq<Mem>)
    requires k <= |l|
    ensures |m| == |l| + 1 && m[k] == b
    ensures forall j :: 0 <= j < |m| && j != k ==> m[j] == l[if j < k then j else j - 1]
  {
    l[..k] + [b] + l[k..]
  }

  /** The block handed out and the list left; a remainder too small for a header goes with the block. */
  function AllocSpec(l: seq<Mem>, size: int): (Option<Mem>, seq<Mem>) {
    var i := Fit(l, size);
    if i == |l| then (None, l)
    else
      var b := l[i];
      if b.size - size < HEADER then (Some(b), RemoveAt(l, i))
      else (Some(Mem(b.addr, size)), l[i := Mem(b.addr + size + HEADER, b.size - size - HEADER)])
  }

  // ---------------------------------------------------------------- release

  /** Number of free blocks below an address: where the freed block is linked in. */
  function Position(l: seq<Mem>, addr: int): (k: nat)
    ensures k <= |l|
    ensures forall j :: 0 <= j < k ==> l[j].addr < addr
    ensures k < |l| ==> l[k].addr >= addr
  {
    if l == [] || l[0].addr >= addr then 0 else 1 + Position(l[1..], addr)
  }

  /** tryToJoin: block i swallows its successor when they touch. */
  function TryToJoin(l: seq<Mem>, i: nat): seq<Mem> {
    if i + 1 < |l| && End(l[i]) == l[i + 1].addr
    then RemoveAt(l, i + 1)[i := Mem(l[i].addr, l[i].size + l[i + 1].size + HEADER)]
    else l
  }

  function FreeSpec(l: seq<Mem>, b: Mem): seq<Mem> {
    var k := Position(l, b.addr);
    var joined := TryToJoin(InsertAt(l, k, b), k);
    if k > 0 then TryToJoin(joined, k - 1) else joined
  }

  /** The single block src/kmemoryAllocator.cpp:6-12 starts with. */
  function InitList(limit: int): seq<Mem> {
    [Mem(0, limit - HEADER)]
  }
}
