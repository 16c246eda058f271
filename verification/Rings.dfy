/** The fixed-size ring buffers of src/kconsole.cpp. */
module Rings {

  /** BUFFER_SIZE of h/kconsole.hpp:19. */
  const BUFFER_SIZE: int := 1024

  datatype Ring = Ring(buf: seq<char>, head: int, tail: int, size: int)

  function EmptyRing(): Ring {
    Ring(seq(BUFFER_SIZE, _ => ' '), 0, 0, 0)
  }

  /** The ring holds q, oldest first. */
  ghost predicate RingHolds(r: Ring, q: seq<char>) {
    && |r.buf| == BUFFER_SIZE && 0 <= r.head < BUFFER_SIZE
    && r.size == |q| <= BUFFER_SIZE && r.tail == (r.head + r.size) % BUFFER_SIZE
    && (forall i :: 0 <= i < |q| ==> r.buf[(r.head + i) % BUFFER_SIZE] == q[i])
  }

  function RingPut(r: Ring, c: char): Ring {
    if 0 <= r.tail < |r.buf| then Ring(r.buf[r.tail := c], r.head, (r.tail + 1) % BUFFER_SIZE, r.size + 1) else r
  }

  function RingFirst(r: Ring): char {
    if 0 <= r.head < |r.buf| then r.buf[r.head] else ' '
  }

  function RingGet(r: Ring): Ring {
    Ring(r.buf, (r.head + 1) % BUFFER_SIZE, r.tail, r.size - 1)
  }

  lemma PutHolds(r: Ring, q: seq<char>, c: char)
    requires RingHolds(r, q) && |q| < BUFFER_SIZE
    ensures RingHolds(RingPut(r, c), q + [c])
  {
  }

  lemma GetHolds(r: Ring, q: seq<char>)
    requires RingHolds(r, q) && q != []
    ensures RingFirst(r) == q[0] && RingHolds(RingGet(r), q[1..])
  {
    var r' := RingGet(r);
    forall i | 0 <= i < |q| - 1
      ensures r'.buf[(r'.head + i) % BUFFER_SIZE] == q[1..][i]
    {
      assert (r'.head + i) % BUFFER_SIZE == (r.head + (i + 1)) % BUFFER_SIZE;
      assert r.buf[(r.head + (i + 1)) % BUFFER_SIZE] == q[i + 1];
    }
  }
}
