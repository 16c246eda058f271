/** Whole calls of put, get and getCnt over runs in which any other threads move in between. */
module BufferCalls {
  import opened Wrappers
  import opened Semaphores
  import opened BufferSpec
  import opened BufferInvariant
  import opened BufferSteps
  import opened BufferTheorems

  datatype Call = NoCall | PutCall | GetCall | CountCall

  function CallOf(p: Pc): Call {
    match p
    case Idle => NoCall
    case Done => NoCall
    case PutWaitSpace(_) => PutCall
    case PutLock(_) => PutCall
    case PutWaitTail(_) => PutCall
    case PutWrite(_) => PutCall
    case PutAdvance => PutCall
    case PutUnlock => PutCall
    case PutSignal => PutCall
    case GetWaitItem => GetCall
    case GetLock => GetCall
    case GetWaitHead => GetCall
    case GetRead => GetCall
    case GetAdvance(_) => GetCall
    case GetUnlock(_) => GetCall
    case GetSignal(_) => GetCall
    case _ => CountCall
  }

  /** Statements of its call a thread still has to execute; each of the three bodies has six. */
  function Left(p: Pc): nat {
    match p
    case Idle => 0
    case Done => 0
    case PutWaitSpace(_) => 5
    case PutLock(_) => 5
    case PutWaitTail(_) => 4
    case PutWrite(_) => 4
    case PutAdvance => 3
    case PutUnlock => 2
    case PutSignal => 1
    case GetWaitItem => 5
    case GetLock => 5
    case GetWaitHead => 4
    case GetRead => 4
    case GetAdvance(_) => 3
    case GetUnlock(_) => 2
    case GetSignal(_) => 1
    case CntWaitHead => 5
    case CntLockTail => 5
    case CntWaitTail => 4
    case CntCompare => 4
    case CntCompute(_) => 3
    case CntUnlockTail(_) => 2
    case CntUnlockHead(_) => 1
  }

  function Started(a: Action): Call {
    match a
    case Put(_) => PutCall
    case Get => GetCall
    case Count => CountCall
    case _ => NoCall
  }

  /** A thread executes its call one statement at a time, stays in that call, and is idle after the last one. */
  lemma StepGoesOn(s: Buffer, t: Tid, a: Action)
    requires Inv(s) && Shape(s) && Enabled(s, t, a)
    ensures |Step(s, t, a).pcs| == |s.pcs|
    ensures var p, p' := s.pcs[t], Step(s, t, a).pcs[t];
      && (p == Idle && a != Finish ==> CallOf(p') == Started(a) && Left(p') == 5)
      && (p == Idle && a == Finish ==> p' == Done)
      && (p != Idle ==> Left(p') == Left(p) - 1 && (if Left(p) > 1 then CallOf(p') == CallOf(p) else p' == Idle))
  {
    hide Inv, WouldBlock, WaitOn, Woken, SignalOn;
    WokenIsNotSelf(s, t);
  }

  /** Whoever moves, another thread stays where it is, unless it is blocked and its wait returns. */
  lemma OthersStay(s: Buffer, t: Tid, a: Action, u: Tid)
    requires Inv(s) && Shape(s) && Enabled(s, t, a) && u < |s.pcs| && u != t
    ensures |Step(s, t, a).pcs| == |s.pcs|
    ensures var p, p' := s.pcs[u], Step(s, t, a).pcs[u];
      && (p' == p || (Blocked(p) && p' == AfterWait(p)))
      && CallOf(p') == CallOf(p) && Left(p') == Left(p) && Carried(p') == Carried(p)
  {
    hide Inv, WouldBlock, WaitOn, Woken, SignalOn;
    WokenBlocked(s);
    OthersCarry(s, t, a, u);
  }

  lemma WokenBlocked(s: Buffer)
    requires Inv(s)
    ensures forall x :: 0 <= x < 4 && Woken(s.sems[x]).Some? ==>
      Woken(s.sems[x]).value < |s.pcs| && Blocked(s.pcs[Woken(s.sems[x]).value])
  {
    forall x | 0 <= x < 4 && Woken(s.sems[x]).Some?
      ensures Woken(s.sems[x]).value < |s.pcs| && Blocked(s.pcs[Woken(s.sems[x]).value])
    {
      assert QueueOf(s.sems[x], s.pcs, x);
      assert Woken(s.sems[x]).value in s.sems[x].queue;
    }
  }

  // ---------------------------------------------------------------- runs

  /** The state of a run before its k-th move. */
  ghost function StateAt(s: Buffer, moves: seq<Move>, k: nat): Buffer
    requires Runnable(s, moves) && k <= |moves|
    decreases k
  {
    if k == 0 then s else StateAt(Step(s, moves[0].t, moves[0].a), moves[1..], k - 1)
  }

  /** How many of the moves are t's. */
  function MovesOf(moves: seq<Move>, t: Tid): nat {
    if moves == [] then 0 else (if moves[0].t == t then 1 else 0) + MovesOf(moves[1..], t)
  }

  /** Invariant and place of thread t after one move of a run. */
  lemma MoveGoesOn(s: Buffer, m: Move, t: Tid)
    requires Inv(s) && Shape(s) && Enabled(s, m.t, m.a) && t < |s.pcs|
    ensures var s' := Step(s, m.t, m.a);
      && Inv(s') && |s'.pcs| == |s.pcs|
      && var p, p' := s.pcs[t], s'.pcs[t];
      && (m.t != t ==> (p' == p || (Blocked(p) && p' == AfterWait(p))) && CallOf(p') == CallOf(p) && Left(p') == Left(p)
                       && Carried(p') == Carried(p))
      && (m.t == t && p != Idle ==>
            Left(p') == Left(p) - 1 && if Left(p) > 1 then CallOf(p') == CallOf(p) else p' == Idle)
  {
    hide Inv, Step;
    StepKeeps(s, m.t, m.a);
    if m.t == t { StepGoesOn(s, t, m.a); } else { OthersStay(s, m.t, m.a, t); }
  }

  /** However the other threads move in between, a call ends with its sixth statement, not before and not later. */
  lemma {:induction false} CallEnds(s: Buffer, moves: seq<Move>, t: Tid)
    requires Inv(s) && Runnable(s, moves) && t < |s.pcs| && s.pcs[t] != Idle && MovesOf(moves, t) <= Left(s.pcs[t])
    ensures |Run(s, moves).pcs| == |s.pcs| && Left(Run(s, moves).pcs[t]) == Left(s.pcs[t]) - MovesOf(moves, t)
    ensures if MovesOf(moves, t) == 0 || MovesOf(moves, t) < Left(s.pcs[t])
            then CallOf(Run(s, moves).pcs[t]) == CallOf(s.pcs[t])
            else Run(s, moves).pcs[t] == Idle
    decreases |moves|
  {
    hide Inv, Step;
    if moves != [] {
      var s' := Step(s, moves[0].t, moves[0].a);
      MoveGoesOn(s, moves[0], t);
      if s'.pcs[t] == Idle {
        StaysPut(s', moves[1..], t);
      } else {
        CallEnds(s', moves[1..], t);
      }
    }
  }

  lemma {:induction false} StaysPut(s: Buffer, moves: seq<Move>, t: Tid)
    requires Inv(s) && Runnable(s, moves) && t < |s.pcs| && !Blocked(s.pcs[t]) && MovesOf(moves, t) == 0
    ensures |Run(s, moves).pcs| == |s.pcs| && Run(s, moves).pcs[t] == s.pcs[t]
    decreases |moves|
  {
    hide Inv, Step;
    if moves != [] {
      MoveGoesOn(s, moves[0], t);
      StaysPut(Step(s, moves[0].t, moves[0].a), moves[1..], t);
    }
  }

  // ---------------------------------------------------------------- what the calls store and return

  /** Until its last statement a call keeps the value it carries, but for the store of put. */
  lemma {:induction false} CarriesOn(s: Buffer, moves: seq<Move>, t: Tid)
    requires Inv(s) && Runnable(s, moves) && t < |s.pcs| && Carried(s.pcs[t]).Some?
    requires MovesOf(moves, t) < Left(s.pcs[t]) - if CallOf(s.pcs[t]) == PutCall then 3 else 0
    ensures |Run(s, moves).pcs| == |s.pcs| && Carried(Run(s, moves).pcs[t]) == Carried(s.pcs[t])
    decreases |moves|
  {
    hide Inv, Step;
    if moves != [] {
      MoveGoesOn(s, moves[0], t);
      StepHandsOn(s, moves[0].t, moves[0].a);
      CarriesOn(Step(s, moves[0].t, moves[0].a), moves[1..], t);
    }
  }

  /** put stores its argument: three statements into the call, whoever moved in between, it is about to store v. */
  lemma PutStores(s: Buffer, moves: seq<Move>, t: Tid, v: int)
    requires Inv(s) && Runnable(s, moves) && t < |s.pcs| && s.pcs[t] == Idle
    requires moves != [] && moves[0] == Move(t, Put(v)) && MovesOf(moves[1..], t) == 1
    ensures t < |Run(s, moves).pcs| && (Run(s, moves).pcs[t] == PutWaitTail(v) || Run(s, moves).pcs[t] == PutWrite(v))
  {
    hide Inv, Step;
    StepHandsOn(s, t, Put(v));
    StepGoesOn(s, t, Put(v));
    StepKeeps(s, t, Put(v));
    var s' := Step(s, t, Put(v));
    CarriesOn(s', moves[1..], t);
    CallEnds(s', moves[1..], t);
  }

  /** What get returns: the oldest value that was unread when it loaded, whoever moved since. */
  lemma GetReturns(s: Buffer, moves: seq<Move>, t: Tid)
    requires Inv(s) && Runnable(s, moves) && t < |s.pcs| && s.pcs[t].GetRead?
    requires moves != [] && moves[0].t == t && MovesOf(moves[1..], t) == 2
    ensures t < |Run(s, moves).pcs| && |s.taken| < |s.written|
    ensures Run(s, moves).pcs[t] == GetSignal(s.written[|s.taken|])
  {
    hide Inv, Step;
    StepHandsOn(s, t, moves[0].a);
    StepGoesOn(s, t, moves[0].a);
    StepKeeps(s, t, moves[0].a);
    var s' := Step(s, t, moves[0].a);
    CarriesOn(s', moves[1..], t);
    CallEnds(s', moves[1..], t);
  }

  /** Move k is t's last one; u is the state it was made in. */
  ghost predicate LastMoveAt(s: Buffer, moves: seq<Move>, t: Tid, k: nat, u: Buffer) {
    && Runnable(s, moves) && k < |moves|
    && moves[k].t == t && MovesOf(moves[k + 1..], t) == 0
    && u == StateAt(s, moves, k) && t < |u.pcs|
  }

  lemma LastMoveEarlier(s: Buffer, moves: seq<Move>, t: Tid, k: nat, u: Buffer)
    requires Runnable(s, moves) && moves != []
    requires LastMoveAt(Step(s, moves[0].t, moves[0].a), moves[1..], t, k, u)
    ensures LastMoveAt(s, moves, t, k + 1, u)
  {
    assert moves[1..][k + 1..] == moves[k + 2..];
  }

  lemma CountReleases(s: Buffer, t: Tid, a: Action)
    requires Inv(s) && Shape(s) && Enabled(s, t, a)
    requires |Step(s, t, a).pcs| == |s.pcs| && Step(s, t, a).pcs[t].CntUnlockHead?
    ensures s.pcs[t].CntUnlockTail? && Step(s, t, a).pcs[t].ret == |s.written| - |s.taken|
  {
    StepGoesOn(s, t, a);
    StepHandsOn(s, t, a);
    hide Step;
  }

  /** What getCnt returns: a thread at its last statement holds the number of values written and not yet taken in
      the state in which it released the tail mutex. */
  lemma {:induction false} CountReturns(s: Buffer, moves: seq<Move>, t: Tid)
    requires Inv(s) && Runnable(s, moves) && t < |s.pcs|
    requires s.pcs[t].CntUnlockHead? ==> MovesOf(moves, t) > 0
    requires t < |Run(s, moves).pcs| && Run(s, moves).pcs[t].CntUnlockHead?
    ensures exists k, u :: (LastMoveAt(s, moves, t, k, u) && u.pcs[t].CntUnlockTail?
                            && Run(s, moves).pcs[t].ret == |u.written| - |u.taken|)
    decreases |moves|
  {
    hide Inv, Step;
    var s', rest := Step(s, moves[0].t, moves[0].a), moves[1..];
    MoveGoesOn(s, moves[0], t);
    if s'.pcs[t].CntUnlockHead? && MovesOf(rest, t) == 0 {
      StaysPut(s', rest, t);
      CountReleases(s, t, moves[0].a);
      assert LastMoveAt(s, moves, t, 0, s);
    } else {
      CountReturns(s', rest, t);
      var k, u :| LastMoveAt(s', rest, t, k, u) && u.pcs[t].CntUnlockTail?
        && Run(s', rest).pcs[t].ret == |u.written| - |u.taken|;
      LastMoveEarlier(s, moves, t, k, u);
    }
  }
}
