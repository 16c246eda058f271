/** The inductive invariant of the bounded buffer, and its preservation by every step of every thread. */
module BufferInvariant {
  import opened Wrappers
  import opened PowersOfTwo
  import opened Semaphores
  import opened BufferSpec

  /** Rows 0 to 3: the thread at p has taken a token of that semaphore which is not yet accounted for by
      the other side. Rows 4 and 5: it has moved a value but not yet moved tail, or head. */
  predicate Holds(x: nat, p: Pc) {
    if x == SPACE then
      p.PutLock? || p.PutWaitTail? || p.PutWrite? || p.GetAdvance? || p.GetUnlock? || p.GetSignal?
    else if x == ITEM then
      p.GetLock? || p.GetWaitHead? || p.GetRead? || p.PutAdvance? || p.PutUnlock? || p.PutSignal?
    else if x == HEAD then
      p.GetRead? || p.GetAdvance? || p.GetUnlock? || p.CntLockTail? || p.CntWaitTail? || p.CntCompare?
      || p.CntCompute? || p.CntUnlockTail? || p.CntUnlockHead?
    else if x == TAIL then
      p.PutWrite? || p.PutAdvance? || p.PutUnlock? || p.CntCompare? || p.CntCompute? || p.CntUnlockTail?
    else if x == 4 then p.PutAdvance?
    else p.GetAdvance?
  }

  /** Number of threads in row x. */
  function Tally(pcs: seq<Pc>, x: nat): nat {
    if pcs == [] then 0 else (if Holds(x, pcs[0]) then 1 else 0) + Tally(pcs[1..], x)
  }

  function Unread(s: Buffer): int {
    |s.written| - |s.taken|
  }

  /** Tokens that exist of each semaphore: unfilled slots, unread values, and one per mutex. */
  function Supply(s: Buffer, x: nat): int {
    if x == SPACE then s.capacity - Unread(s) else if x == ITEM then Unread(s) else 1
  }

  /** Each queue holds exactly the threads blocked on its semaphore. */
  ghost predicate QueueOf(sem: Sem, pcs: seq<Pc>, x: nat) {
    && Balanced(sem)
    && (forall t: nat :: t in sem.queue <==> t < |pcs| && WaitsFor(pcs[t]) == x)
  }

  ghost predicate TokensOf(s: Buffer, x: nat)
    requires x < |s.sems|
  {
    Available(s.sems[x]) + Tally(s.pcs, x) == Supply(s, x)
  }

  /** The slots between head and tail hold the unread values in order; everything taken was written, in order. */
  ghost predicate DataInv(s: Buffer) {
    && Shape(s)
    && 0 <= Unread(s) <= s.capacity
    && s.taken == s.written[..|s.taken|]
    && s.tail == (|s.written| - Tally(s.pcs, 4)) % Slots(s)
    && s.head == (|s.taken| - Tally(s.pcs, 5)) % Slots(s)
    && (forall i :: |s.taken| <= i < |s.written| ==> s.slots[i % Slots(s)] == s.written[i])
  }

  /** What a thread inside getCnt has worked out so far is right. */
  ghost predicate CountInv(s: Buffer) {
    forall t :: 0 <= t < |s.pcs| ==>
      && (s.pcs[t].CntCompute? ==> s.pcs[t].ordered == (s.tail >= s.head))
      && (s.pcs[t].CntUnlockTail? ==> s.pcs[t].ret == Unread(s))
  }

  ghost predicate Inv(s: Buffer) {
    && DataInv(s)
    && CountInv(s)
    && (forall x :: 0 <= x < 4 ==> QueueOf(s.sems[x], s.pcs, x) && TokensOf(s, x))
  }

  // ---------------------------------------------------------------- counting threads

  lemma {:induction false} TallyUpdate(pcs: seq<Pc>, t: nat, p: Pc, x: nat)
    requires t < |pcs|
    ensures Tally(pcs[t := p], x) ==
            Tally(pcs, x) - (if Holds(x, pcs[t]) then 1 else 0) + (if Holds(x, p) then 1 else 0)
    decreases |pcs|
  {
    if t == 0 {
      assert pcs[0 := p][1..] == pcs[1..];
    } else {
      assert pcs[t := p][1..] == pcs[1..][t - 1 := p];
      TallyUpdate(pcs[1..], t - 1, p, x);
    }
  }

  lemma {:induction false} TallyPositive(pcs: seq<Pc>, t: nat, x: nat)
    requires t < |pcs| && Holds(x, pcs[t])
    ensures Tally(pcs, x) >= 1
    decreases |pcs|
  {
    if t > 0 {
      TallyPositive(pcs[1..], t - 1, x);
    }
  }

  /** Two different holders make the tally at least two. */
  lemma {:induction false} TallyTwo(pcs: seq<Pc>, t: nat, u: nat, x: nat)
    requires t < u < |pcs| && Holds(x, pcs[t]) && Holds(x, pcs[u])
    ensures Tally(pcs, x) >= 2
    decreases |pcs|
  {
    if t > 0 {
      TallyTwo(pcs[1..], t - 1, u - 1, x);
    } else {
      TallyPositive(pcs[1..], u - 1, x);
    }
  }

  lemma {:induction false} TallyZero(pcs: seq<Pc>, x: nat)
    requires forall t :: 0 <= t < |pcs| ==> !Holds(x, pcs[t])
    ensures Tally(pcs, x) == 0
    decreases |pcs|
  {
    if pcs != [] {
      TallyZero(pcs[1..], x);
    }
  }

  /** Mutual exclusion: while t holds a mutex nobody else does. */
  lemma OnlyHolder(s: Buffer, t: Tid, u: Tid, x: nat)
    requires Inv(s) && t < |s.pcs| && u < |s.pcs| && t != u && (x == HEAD || x == TAIL)
    ensures !(Holds(x, s.pcs[t]) && Holds(x, s.pcs[u]))
  {
    assert TokensOf(s, x);
    if Holds(x, s.pcs[t]) && Holds(x, s.pcs[u]) {
      TallyTwo(s.pcs, if t < u then t else u, if t < u then u else t, x);
    }
  }

  /** While t holds the tail mutex away from the store, no store is pending; likewise for head. */
  lemma NothingPending(s: Buffer, t: Tid)
    requires Inv(s) && t < |s.pcs|
    ensures Holds(TAIL, s.pcs[t]) && !s.pcs[t].PutAdvance? ==> Tally(s.pcs, 4) == 0
    ensures Holds(HEAD, s.pcs[t]) && !s.pcs[t].GetAdvance? ==> Tally(s.pcs, 5) == 0
    ensures s.pcs[t].PutAdvance? ==> Tally(s.pcs, 4) == 1
    ensures s.pcs[t].GetAdvance? ==> Tally(s.pcs, 5) == 1
  {
    forall u | 0 <= u < |s.pcs| && u != t
      ensures Holds(TAIL, s.pcs[t]) ==> !Holds(4, s.pcs[u])
      ensures Holds(HEAD, s.pcs[t]) ==> !Holds(5, s.pcs[u])
    {
      OnlyHolder(s, t, u, TAIL);
      OnlyHolder(s, t, u, HEAD);
    }
    var away := s.pcs[t := Idle];
    if Holds(TAIL, s.pcs[t]) {
      TallyZero(away, 4);
      TallyUpdate(s.pcs, t, Idle, 4);
    }
    if Holds(HEAD, s.pcs[t]) {
      TallyZero(away, 5);
      TallyUpdate(s.pcs, t, Idle, 5);
    }
  }

  // ---------------------------------------------------------------- moves between rows

  ghost predicate SameRows(p: Pc, n: Pc) {
    forall y :: 0 <= y < 6 ==> Holds(y, p) == Holds(y, n)
  }

  /** Going from p to n enters row x and changes nothing else. */
  ghost predicate GainsRow(p: Pc, n: Pc, x: nat) {
    forall y :: 0 <= y < 6 ==> Holds(y, n) == (Holds(y, p) || y == x) && !(y == x && Holds(y, p))
  }

  ghost predicate NotCounting(p: Pc) {
    !p.CntCompute? && !p.CntUnlockTail?
  }

  lemma AfterWaitGains(p: Pc)
    requires Blocked(p)
    ensures GainsRow(p, AfterWait(p), WaitsFor(p)) && !Blocked(AfterWait(p))
    ensures NotCounting(p) && NotCounting(AfterWait(p))
  {
  }

  function Bit(y: nat, p: Pc): nat {
    if Holds(y, p) then 1 else 0
  }

  lemma MoveTally(pcs: seq<Pc>, t: Tid, n: Pc)
    requires t < |pcs|
    ensures forall y :: 0 <= y < 6 ==> Tally(pcs[t := n], y) == Tally(pcs, y) - Bit(y, pcs[t]) + Bit(y, n)
  {
    forall y | 0 <= y < 6
      ensures Tally(pcs[t := n], y) == Tally(pcs, y) - Bit(y, pcs[t]) + Bit(y, n)
    {
      TallyUpdate(pcs, t, n, y);
    }
  }

  // ---------------------------------------------------------------- semaphore steps

  ghost predicate Queues(sems: seq<Sem>, pcs: seq<Pc>) {
    |sems| == 4 && forall x :: 0 <= x < 4 ==> QueueOf(sems[x], pcs, x)
  }

  ghost predicate Tokens(s: Buffer) {
    |s.sems| == 4 && forall x :: 0 <= x < 4 ==> TokensOf(s, x)
  }

  /** A step that moves only semaphores and program counters, and no store or load. */
  ghost predicate DataUnmoved(s: Buffer, s': Buffer) {
    && s' == s.(sems := s'.sems, pcs := s'.pcs)
    && |s'.sems| == |s.sems|
    && Tally(s'.pcs, 4) == Tally(s.pcs, 4) && Tally(s'.pcs, 5) == Tally(s.pcs, 5)
  }

  lemma UnmovedKeeps(s: Buffer, s': Buffer)
    requires DataInv(s) && DataUnmoved(s, s')
    ensures DataInv(s')
  {
  }

  lemma UnmovedTokens(s: Buffer, s': Buffer, x: nat)
    requires Tokens(s) && DataUnmoved(s, s') && x < 4 && s'.sems == s.sems[x := s'.sems[x]]
    requires forall y :: 0 <= y < 4 && y != x ==> Tally(s'.pcs, y) == Tally(s.pcs, y)
    requires Available(s'.sems[x]) + Tally(s'.pcs, x) == Available(s.sems[x]) + Tally(s.pcs, x)
    ensures Tokens(s')
  {
    hide Available;
    forall y | 0 <= y < 4
      ensures TokensOf(s', y)
    {
      assert TokensOf(s, y);
    }
  }

  lemma UnmovedCounts(s: Buffer, s': Buffer)
    requires CountInv(s) && DataUnmoved(s, s') && |s'.pcs| == |s.pcs|
    requires forall u :: 0 <= u < |s.pcs| ==> s'.pcs[u] == s.pcs[u] || NotCounting(s'.pcs[u])
    ensures CountInv(s')
  {
  }

  lemma InvParts(s: Buffer)
    ensures Inv(s) <==> DataInv(s) && CountInv(s) && Queues(s.sems, s.pcs) && Tokens(s)
    ensures DataInv(s) ==> Shape(s)
  {
  }

  lemma WaitQueues(s: Buffer, t: Tid, x: nat, blocked: Pc)
    requires Queues(s.sems, s.pcs) && t < |s.pcs| && x < 4 && !Blocked(s.pcs[t])
    requires WaitsFor(blocked) == x
    ensures Queues(SemWait(s, t, x, blocked).sems, SemWait(s, t, x, blocked).pcs)
    ensures Available(WaitOn(s.sems[x], t)) == Available(s.sems[x]) - if WouldBlock(s.sems[x]) then 0 else 1
  {
    var s' := SemWait(s, t, x, blocked);
    assert QueueOf(s.sems[x], s.pcs, x);
    WaitBalanced(s.sems[x], t);
    AfterWaitGains(blocked);
    forall y | 0 <= y < 4
      ensures QueueOf(s'.sems[y], s'.pcs, y)
    {
      assert QueueOf(s.sems[y], s.pcs, y);
    }
  }

  /** sem_wait keeps the invariant, whether it takes a token or blocks. */
  lemma WaitKeeps(s: Buffer, t: Tid, x: nat, blocked: Pc)
    requires Inv(s) && t < |s.pcs| && |s.sems| == 4 && x < 4 && !Blocked(s.pcs[t])
    requires WaitsFor(blocked) == x && SameRows(s.pcs[t], blocked)
    ensures Inv(SemWait(s, t, x, blocked))
  {
    hide Inv, QueueOf, DataInv, CountInv, Tokens, Holds, WaitsFor, AfterWait, Available, WouldBlock, WaitOn;
    var s' := SemWait(s, t, x, blocked);
    InvParts(s);
    WaitQueues(s, t, x, blocked);
    AfterWaitGains(blocked);
    MoveTally(s.pcs, t, s'.pcs[t]);
    UnmovedKeeps(s, s');
    UnmovedTokens(s, s', x);
    UnmovedCounts(s, s');
    InvParts(s');
  }

  lemma SignalQueues(s: Buffer, t: Tid, x: nat, next: Pc)
    requires Queues(s.sems, s.pcs) && t < |s.pcs| && x < 4 && !Blocked(s.pcs[t]) && !Blocked(next)
    ensures Queues(SemSignal(s, t, x, next).sems, SemSignal(s, t, x, next).pcs)
    ensures Available(SignalOn(s.sems[x])) == Available(s.sems[x]) + if Woken(s.sems[x]).Some? then 0 else 1
    ensures Woken(s.sems[x]).Some? ==>
      Woken(s.sems[x]).value < |s.pcs| && WaitsFor(s.pcs[Woken(s.sems[x]).value]) == x
  {
    var s' := SemSignal(s, t, x, next);
    assert QueueOf(s.sems[x], s.pcs, x);
    SignalBalanced(s.sems[x]);
    if Woken(s.sems[x]).Some? {
      AfterWaitGains(s.pcs[Woken(s.sems[x]).value]);
    }
    forall y | 0 <= y < 4
      ensures QueueOf(s'.sems[y], s'.pcs, y)
    {
      assert QueueOf(s.sems[y], s.pcs, y);
    }
  }

  /** sem_signal keeps the invariant: the token given back goes to the waiter it wakes, or to the counter. */
  lemma SignalKeeps(s: Buffer, t: Tid, x: nat, next: Pc)
    requires Inv(s) && t < |s.pcs| && |s.sems| == 4 && x < 4 && !Blocked(s.pcs[t]) && !Blocked(next)
    requires GainsRow(next, s.pcs[t], x) && NotCounting(next)
    ensures Inv(SemSignal(s, t, x, next))
  {
    hide Inv, QueueOf, DataInv, CountInv, Tokens, Holds, WaitsFor, AfterWait, Available, Woken, SignalOn;
    var s' := SemSignal(s, t, x, next);
    InvParts(s);
    SignalQueues(s, t, x, next);
    var pcs1 := s.pcs[t := next];
    MoveTally(s.pcs, t, next);
    var w := Woken(s.sems[x]);
    if w.Some? {
      AfterWaitGains(s.pcs[w.value]);
      assert pcs1[w.value] == s.pcs[w.value] by {
        assert w.value != t;
      }
      MoveTally(pcs1, w.value, AfterWait(pcs1[w.value]));
    }
    UnmovedKeeps(s, s');
    UnmovedTokens(s, s', x);
    UnmovedCounts(s, s');
    InvParts(s');
  }

  // ---------------------------------------------------------------- ring arithmetic

  lemma RingNext(a: int, m: int)
    requires m > 0
    ensures (a % m + 1) % m == (a + 1) % m
  {
    var q, r := a / m, a % m;
    if r + 1 < m {
      DivModUnique(a + 1, m, q, r + 1);
      DivModUnique(r + 1, m, 0, r + 1);
    } else {
      DivModUnique(a + 1, m, q + 1, 0);
      DivModUnique(r + 1, m, 1, 0);
    }
  }

  /** Distance around the ring, as getCnt computes it. */
  lemma RingDistance(a: int, b: int, m: int)
    requires m > 0 && 0 <= a - b < m
    ensures a - b == if a % m >= b % m then a % m - b % m else m - b % m + a % m
  {
    var q, r, d := b / m, b % m, a - b;
    if r + d < m {
      DivModUnique(a, m, q, r + d);
    } else {
      DivModUnique(a, m, q + 1, r + d - m);
    }
  }

  lemma RingDiffer(a: int, b: int, m: int)
    requires m > 0 && 0 < a - b < m
    ensures a % m != b % m
  {
    RingDistance(a, b, m);
  }
}
