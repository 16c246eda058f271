/** What every run of the bounded buffer promises, for any number of threads and any interleaving. */
module BufferTheorems {
  import opened Wrappers
  import opened Semaphores
  import opened BufferSpec
  import opened BufferInvariant
  import opened BufferSteps

  datatype Move = Move(t: Tid, a: Action)

  /** A schedule: which thread moves next, and what it does if it is idle. */
  ghost predicate Runnable(s: Buffer, moves: seq<Move>)
    decreases |moves|
  {
    moves == [] ||
    (Shape(s) && Enabled(s, moves[0].t, moves[0].a) && Runnable(Step(s, moves[0].t, moves[0].a), moves[1..]))
  }

  ghost function Run(s: Buffer, moves: seq<Move>): Buffer
    requires Runnable(s, moves)
    decreases |moves|
  {
    if moves == [] then s else Run(Step(s, moves[0].t, moves[0].a), moves[1..])
  }

  lemma InitTally(n: nat, x: nat)
    ensures Tally(seq(n, _ => Idle), x) == 0
  {
    TallyZero(seq(n, _ => Idle), x);
  }

  lemma InitInv(capacity: nat, threads: nat)
    ensures Inv(Init(capacity, threads))
  {
    var s := Init(capacity, threads);
    forall x: nat
      ensures Tally(s.pcs, x) == 0
    {
      InitTally(threads, x);
    }
  }

  lemma {:induction false} RunKeeps(s: Buffer, moves: seq<Move>)
    requires Inv(s) && Runnable(s, moves)
    ensures Inv(Run(s, moves))
    decreases |moves|
  {
    hide Inv, Step;
    if moves != [] {
      StepKeeps(s, moves[0].t, moves[0].a);
      RunKeeps(Step(s, moves[0].t, moves[0].a), moves[1..]);
    }
  }

  ghost predicate Reachable(s: Buffer, capacity: nat, threads: nat, moves: seq<Move>) {
    Runnable(Init(capacity, threads), moves) && s == Run(Init(capacity, threads), moves)
  }

  lemma {:induction false} RunShape(s: Buffer, moves: seq<Move>)
    requires Runnable(s, moves)
    ensures Run(s, moves).capacity == s.capacity && |Run(s, moves).pcs| == |s.pcs|
    decreases |moves|
  {
    if moves != [] {
      RunShape(Step(s, moves[0].t, moves[0].a), moves[1..]);
    }
  }

  /** Threads inside put or get that own a token of space or item. */
  function InFlight(s: Buffer): nat {
    Tally(s.pcs, SPACE) + Tally(s.pcs, ITEM)
  }

  /** Token conservation, value order and slot safety in every reachable state. */
  lemma ReachableSafe(s: Buffer, capacity: nat, threads: nat, moves: seq<Move>)
    requires Reachable(s, capacity, threads, moves)
    ensures Inv(s) && s.capacity == capacity && |s.pcs| == threads
    ensures |s.sems| == 4 && Available(s.sems[SPACE]) + Available(s.sems[ITEM]) + InFlight(s) == capacity
    ensures s.taken == s.written[..|s.taken|] && 0 <= Unread(s) <= capacity
    ensures forall t :: 0 <= t < threads ==>
      && (s.pcs[t].PutWrite? ==> forall i :: |s.taken| <= i < |s.written| ==> i % Slots(s) != s.tail)
      && (s.pcs[t].GetRead? ==> Unread(s) > 0 && s.slots[s.head] == s.written[|s.taken|])
      && (s.pcs[t].CntUnlockTail? ==> s.pcs[t].ret == |s.written| - |s.taken|)
  {
    InitInv(capacity, threads);
    RunKeeps(Init(capacity, threads), moves);
    RunShape(Init(capacity, threads), moves);
    SafeState(s);
  }

  lemma SafeState(s: Buffer)
    requires Inv(s)
    ensures Available(s.sems[SPACE]) + Available(s.sems[ITEM]) + InFlight(s) == s.capacity
    ensures forall t :: 0 <= t < |s.pcs| ==>
      && (s.pcs[t].PutWrite? ==> forall i :: |s.taken| <= i < |s.written| ==> i % Slots(s) != s.tail)
      && (s.pcs[t].GetRead? ==> Unread(s) > 0 && s.slots[s.head] == s.written[|s.taken|])
      && (s.pcs[t].CntUnlockTail? ==> s.pcs[t].ret == |s.written| - |s.taken|)
  {
    assert TokensOf(s, SPACE) && TokensOf(s, ITEM);
    forall t | 0 <= t < |s.pcs|
      ensures s.pcs[t].PutWrite? ==> forall i :: |s.taken| <= i < |s.written| ==> i % Slots(s) != s.tail
      ensures s.pcs[t].GetRead? ==> Unread(s) > 0 && s.slots[s.head] == s.written[|s.taken|]
    {
      if s.pcs[t].PutWrite? { SlotReserved(s, t); }
      if s.pcs[t].GetRead? { ValueReserved(s, t); }
    }
  }

  // ---------------------------------------------------------------- deadlock freedom

  /** No unfinished thread can take a step. */
  ghost predicate Stuck(s: Buffer) {
    forall t :: 0 <= t < |s.pcs| ==> s.pcs[t] == Done || Blocked(s.pcs[t])
  }

  /** With every mutex free and nobody inside, a semaphore with a token left has no waiter. */
  lemma NobodyWaits(s: Buffer, x: nat)
    requires Inv(s) && x < 4 && Tally(s.pcs, x) < Supply(s, x)
    ensures forall t :: 0 <= t < |s.pcs| ==> WaitsFor(s.pcs[t]) != x
  {
    assert QueueOf(s.sems[x], s.pcs, x) && TokensOf(s, x);
    assert s.sems[x].value > 0;
    forall t: nat | t < |s.pcs|
      ensures WaitsFor(s.pcs[t]) != x
    {
      assert t !in s.sems[x].queue;
    }
  }

  /** In a stuck state nobody waits for a mutex: whoever holds one can go on. */
  lemma StuckAwayFromMutexes(s: Buffer)
    requires Inv(s) && Stuck(s)
    ensures forall t :: 0 <= t < |s.pcs| ==> s.pcs[t] == Done || s.pcs[t].PutWaitSpace? || s.pcs[t].GetWaitItem?
  {
    TallyZero(s.pcs, TAIL);
    NobodyWaits(s, TAIL);
    TallyZero(s.pcs, HEAD);
    NobodyWaits(s, HEAD);
  }

  /** A stuck state of a buffer with room for at least one value is either a full buffer on which only producers
      wait, or an empty one on which only consumers wait, never a mix. */
  lemma StuckMeansFullOrEmpty(s: Buffer)
    requires Inv(s) && Stuck(s) && s.capacity >= 1
    ensures (exists t :: 0 <= t < |s.pcs| && s.pcs[t] != Done) ==>
      || (Unread(s) == s.capacity && forall t :: 0 <= t < |s.pcs| ==> s.pcs[t] == Done || s.pcs[t].PutWaitSpace?)
      || (Unread(s) == 0 && forall t :: 0 <= t < |s.pcs| ==> s.pcs[t] == Done || s.pcs[t].GetWaitItem?)
  {
    StuckAwayFromMutexes(s);
    TallyZero(s.pcs, SPACE);
    TallyZero(s.pcs, ITEM);
    if Unread(s) > 0 { NobodyWaits(s, ITEM); }
    if Unread(s) < s.capacity { NobodyWaits(s, SPACE); }
  }

  /** A producer and a consumer wait for each other for ever. */
  ghost predicate MixedDeadlock(s: Buffer) {
    Stuck(s) && exists t, u :: 0 <= t < |s.pcs| && 0 <= u < |s.pcs| && s.pcs[t].PutWaitSpace? && s.pcs[u].GetWaitItem?
  }

  /** With capacity 0 one producer and one consumer block each other at once. */
  lemma ZeroCapacityMixes()
    ensures exists s, moves :: Reachable(s, 0, 2, moves) && MixedDeadlock(s)
  {
    var s0 := Init(0, 2);
    var s1 := Step(s0, 0, Put(7));
    var s2 := Step(s1, 1, Get);
    var moves := [Move(0, Put(7)), Move(1, Get)];
    assert moves[1..] == [Move(1, Get)] && moves[1..][1..] == [];
    assert Runnable(s2, []);
    assert Runnable(s1, moves[1..]);
    assert Runnable(s0, moves) && Run(s0, moves) == s2;
    assert Reachable(s2, 0, 2, moves);
    assert s2.pcs[0].PutWaitSpace? && s2.pcs[1].GetWaitItem?;
  }

  /** Producers and consumers can deadlock each other exactly when the buffer was made with capacity 0. */
  lemma MixedDeadlockExactly(capacity: nat)
    ensures (exists s, threads, moves :: Reachable(s, capacity, threads, moves) && MixedDeadlock(s)) <==> capacity == 0
  {
    if capacity == 0 {
      ZeroCapacityMixes();
    } else {
      forall s, threads, moves | Reachable(s, capacity, threads, moves)
        ensures !MixedDeadlock(s)
      {
        ReachableSafe(s, capacity, threads, moves);
        if Stuck(s) {
          StuckMeansFullOrEmpty(s);
        }
      }
    }
  }

  // ---------------------------------------------------------------- what one step hands on

  /** The value a thread carries: the one to store, or the one to return; for getCnt, once it has computed it. */
  function Carried(p: Pc): Option<int> {
    match p
    case PutWaitSpace(v) => Some(v)
    case PutLock(v) => Some(v)
    case PutWaitTail(v) => Some(v)
    case PutWrite(v) => Some(v)
    case GetAdvance(r) => Some(r)
    case GetUnlock(r) => Some(r)
    case GetSignal(r) => Some(r)
    case CntUnlockTail(r) => Some(r)
    case CntUnlockHead(r) => Some(r)
    case _ => None
  }

  function OldestUnread(s: Buffer): seq<int> {
    if |s.taken| < |s.written| then [s.written[|s.taken|]] else []
  }

  lemma ComputedIsUnread(s: Buffer, t: Tid)
    requires Inv(s) && t < |s.pcs| && s.pcs[t].CntCompute?
    ensures (if s.pcs[t].ordered then s.tail - s.head else Slots(s) - s.head + s.tail) == Unread(s)
  {
    CountIsUnread(s, t);
  }

  /** Values enter only where put stores its own argument and leave only where get loads the oldest unread one;
      until then, and until get returns, the thread carries its value unchanged. */
  lemma StepHandsOn(s: Buffer, t: Tid, a: Action)
    requires Inv(s) && Shape(s) && Enabled(s, t, a)
    ensures var s', p := Step(s, t, a), s.pcs[t];
      && |s'.pcs| == |s.pcs|
      && s'.written == s.written + (if p.PutWrite? then [p.v] else [])
      && s'.taken == s.taken + (if p.GetRead? then OldestUnread(s) else [])
      && (p.GetRead? ==> OldestUnread(s) == [s'.pcs[t].ret])
      && (a.Put? ==> Carried(s'.pcs[t]) == Some(a.v))
      && (p.CntCompute? ==> Carried(s'.pcs[t]) == Some(Unread(s)))
      && (Carried(p).Some? && !p.PutWrite? && !p.GetSignal? && !p.CntUnlockHead? ==> Carried(s'.pcs[t]) == Carried(p))
  {
    hide Inv, WouldBlock, WaitOn, Woken, SignalOn;
    if s.pcs[t].GetRead? {
      ValueReserved(s, t);
    }
    if s.pcs[t].CntCompute? {
      ComputedIsUnread(s, t);
    }
    WokenIsNotSelf(s, t);
  }

  /** A step changes what another thread carries in no way, even when it wakes it. */
  lemma OthersCarry(s: Buffer, t: Tid, a: Action, u: Tid)
    requires Shape(s) && Enabled(s, t, a) && u < |s.pcs| && u != t
    ensures |Step(s, t, a).pcs| == |s.pcs| && Carried(Step(s, t, a).pcs[u]) == Carried(s.pcs[u])
  {
    hide WouldBlock, WaitOn, Woken, SignalOn;
    assert Carried(AfterWait(s.pcs[u])) == Carried(s.pcs[u]);
  }

  lemma WokenIsNotSelf(s: Buffer, t: Tid)
    requires Inv(s) && t < |s.pcs| && !Blocked(s.pcs[t])
    ensures forall x :: 0 <= x < 4 ==> Woken(s.sems[x]) != Some(t)
  {
    forall x | 0 <= x < 4
      ensures Woken(s.sems[x]) != Some(t)
    {
      assert QueueOf(s.sems[x], s.pcs, x);
      assert t !in s.sems[x].queue;
    }
  }
}
