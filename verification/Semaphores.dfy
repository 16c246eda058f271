/** The effect of src/ksemaphore.cpp on one semaphore: a counter and a first-in first-out queue of threads. */
module Semaphores {
  import opened Wrappers

  type Tid = nat

  datatype Sem = Sem(value: int, queue: seq<Tid>)

  function Max(a: int, b: int): int {
    if a >= b then a else b
  }

  /** The tokens a wait can still take without blocking. */
  function Available(s: Sem): nat {
    Max(s.value, 0)
  }

  /** Blocks exactly when the decremented value is negative (src/ksemaphore.cpp:8-10). */
  predicate WouldBlock(s: Sem) {
    s.value <= 0
  }

  function WaitOn(s: Sem, t: Tid): Sem {
    Sem(s.value - 1, if WouldBlock(s) then s.queue + [t] else s.queue)
  }

  /** A signal wakes the head of the queue exactly when the incremented value is not positive (src/ksemaphore.cpp:20-22). */
  function Woken(s: Sem): Option<Tid> {
    if s.value + 1 <= 0 && s.queue != [] then Some(s.queue[0]) else None
  }

  function SignalOn(s: Sem): Sem {
    Sem(s.value + 1, if Woken(s).Some? then s.queue[1..] else s.queue)
  }

  ghost predicate Distinct(q: seq<Tid>) {
    forall i, j :: 0 <= i < j < |q| ==> q[i] != q[j]
  }

  /** The queue holds exactly as many threads as the value is below zero. */
  ghost predicate Balanced(s: Sem) {
    |s.queue| == Max(0, -s.value) && Distinct(s.queue)
  }

  lemma WaitBalanced(s: Sem, t: Tid)
    requires Balanced(s) && t !in s.queue
    ensures Balanced(WaitOn(s, t))
    ensures Available(WaitOn(s, t)) == if WouldBlock(s) then Available(s) else Available(s) - 1
  {
  }

  /** A signal either wakes one waiter or adds one token; a waiter is missing only when none is owed a wake-up. */
  lemma SignalBalanced(s: Sem)
    requires Balanced(s)
    ensures Balanced(SignalOn(s))
    ensures Woken(s).Some? <==> s.value < 0
    ensures Available(SignalOn(s)) == if Woken(s).Some? then Available(s) else Available(s) + 1
    ensures Woken(s).Some? ==> Woken(s).value in s.queue
    ensures Woken(s).Some? ==> s.queue == [Woken(s).value] + SignalOn(s).queue
    ensures Woken(s).Some? ==> forall u :: u in SignalOn(s).queue <==> u in s.queue && u != Woken(s).value
    ensures Woken(s).None? ==> SignalOn(s).queue == s.queue
  {
    if s.queue != [] {
      assert s.queue == [s.queue[0]] + s.queue[1..];
    }
  }
}
