/** What every run of the kernel promises about places, semaphores, sleepers, the scheduler and the console. */
module KernelTheorems {
  import opened Wrappers
  import opened Semaphores
  import opened Rings
  import opened KernelSpec
  import opened KernelInvariant
  import opened KernelSteps

  // ---------------------------------------------------------------- runs

  ghost predicate LegalRun(k: Kernel, es: seq<Event>)
    decreases |es|
  {
    es == [] || (Legal(k, es[0]) && LegalRun(Step(k, es[0]), es[1..]))
  }

  ghost function Run(k: Kernel, es: seq<Event>): Kernel
    requires LegalRun(k, es)
    decreases |es|
  {
    if es == [] then k else Run(Step(k, es[0]), es[1..])
  }

  lemma InitCore()
    ensures Core(Init(), Some(MAIN))
  {
    var k := Init();
    assert RunOk(k.tcbs, Some(MAIN)) && ReadyOk(k.tcbs, k.ready) && FlagsOk(k.tcbs, {}) && IdleOk(k.tcbs);
    assert QueueOk(k.tcbs, [], GET_SEM) && QueueOk(k.tcbs, [], MAIN_SEM);
    hide RunOk, ReadyOk, FlagsOk, IdleOk;
    assert [] + Threads(k.sleepers) == [];
  }

  lemma InitConsoles()
    ensures Consoles(Init(), 0)
  {
    var k := Init();
    assert k.log.accepted[|k.log.read|..] == [] && k.log.printed[|k.log.sent|..] == [];
    assert k.ready[1..] == [];
  }

  lemma InitInv()
    ensures Inv(Init())
  {
    hide Core, Consoles;
    InitCore();
    InitConsoles();
  }

  lemma {:induction false} RunKeeps(k: Kernel, es: seq<Event>)
    requires Inv(k) && LegalRun(k, es)
    ensures Inv(Run(k, es))
    decreases |es|
  {
    hide Inv, Step, Legal;
    if es != [] {
      StepKeeps(k, es[0]);
      RunKeeps(Step(k, es[0]), es[1..]);
    }
  }

  // ---------------------------------------------------------------- places

  ghost predicate OnQueue(k: Kernel, s: SemId, t: Tid) {
    s in k.sems && t in k.sems[s].queue
  }

  ghost predicate OnSomeQueue(k: Kernel, t: Tid) {
    exists s :: OnQueue(k, s, t)
  }

  ghost predicate Sleeping(k: Kernel, t: Tid) {
    t in Threads(k.sleepers)
  }

  ghost predicate NotStarted(k: Kernel, t: Tid) {
    t in k.tcbs && k.tcbs[t].bornPaused && !k.tcbs[t].started
  }

  function Ones(a: bool, b: bool, c: bool, d: bool, e: bool): nat {
    (if a then 1 else 0) + (if b then 1 else 0) + (if c then 1 else 0) + (if d then 1 else 0) + (if e then 1 else 0)
  }

  lemma Located(k: Kernel, t: Tid)
    requires Inv(k)
    ensures t in k.tcbs ==>
      Ones(t == k.running, t in k.ready, OnSomeQueue(k, t), Sleeping(k, t), NotStarted(k, t)) == 1
    ensures t !in k.tcbs ==>
      Ones(t == k.running, t in k.ready, OnSomeQueue(k, t), Sleeping(k, t), NotStarted(k, t)) == 0
    ensures forall s, s' :: OnQueue(k, s, t) && OnQueue(k, s', t) ==> s == s'
  {
    assert [] + Threads(k.sleepers) == Threads(k.sleepers);
    forall s | s in k.sems
      ensures OnQueue(k, s, t) <==> t in k.tcbs && k.tcbs[t].place == Queued(s)
    {
      assert QueueOk(k.tcbs, k.sems[s].queue, s);
    }
    if t in k.tcbs {
      ThreadOk(k, Some(k.running), [], t);
      if k.tcbs[t].place.Queued? {
        assert OnQueue(k, k.tcbs[t].place.s, t);
      }
    }
  }

  /** In every reachable state each unfinished thread is in exactly one place and at most once there, no finished
      thread is anywhere, the running thread is not marked blocked, and a dispatch would find a thread to run. */
  lemma LocationInvariant(es: seq<Event>, t: Tid)
    requires LegalRun(Init(), es)
    ensures var k := Run(Init(), es);
      && Inv(k)
      && Ones(t == k.running, t in k.ready, OnSomeQueue(k, t), Sleeping(k, t), NotStarted(k, t)) ==
         (if t in k.tcbs then 1 else 0)
      && (forall s, s' :: OnQueue(k, s, t) && OnQueue(k, s', t) ==> s == s')
      && Distinct(k.ready) && Distinct(Threads(k.sleepers)) && (forall s :: s in k.sems ==> Distinct(k.sems[s].queue))
      && k.running in k.tcbs && !k.tcbs[k.running].blocked
      && CanDispatch(ParkReady(k))
  {
    InitInv();
    RunKeeps(Init(), es);
    Located(Run(Init(), es), t);
    PlacesDistinct(Run(Init(), es));
  }

  lemma PlacesDistinct(k: Kernel)
    requires Inv(k)
    ensures Distinct(k.ready) && Distinct(Threads(k.sleepers)) && forall s :: s in k.sems ==> Distinct(k.sems[s].queue)
    ensures k.running in k.tcbs && !k.tcbs[k.running].blocked
    ensures CanDispatch(ParkReady(k))
  {
    RunningUser(k);
    ThreadOk(k, Some(k.running), [], k.running);
    assert [] + Threads(k.sleepers) == Threads(k.sleepers);
    ParkReadyKeeps(k);
    NeverNull(ParkReady(k));
  }

  // ---------------------------------------------------------------- semaphores

  function Min(a: int, b: int): int {
    if a <= b then a else b
  }

  ghost predicate Counted(sem: Sem, h: Hist) {
    && |sem.queue| == Max(0, -sem.value)
    && |h.granted| == Min(|h.arrivals|, h.initial + h.signals)
    && |h.granted| <= |h.arrivals|
    && h.granted == h.arrivals[..|h.granted|] && sem.queue == h.arrivals[|h.granted|..]
    && (sem.value + 1 <= 0 <==> Woken(sem).Some?)
  }

  lemma BalancedCounts(sem: Sem, h: Hist)
    requires Balanced(sem) && HistOf(sem, h)
    ensures Counted(sem, h)
  {
    SignalBalanced(sem);
  }

  lemma SemState(k: Kernel, s: SemId)
    requires Inv(k) && s in k.sems
    ensures s in k.hist && Counted(k.sems[s], k.hist[s])
  {
    SemParts(k.tcbs, k.sems, s);
    HistParts(k.sems, k.hist, s);
    BalancedCounts(k.sems[s], k.hist[s]);
  }

  /** A 32-bit opening value keeps the queue-length law exactly when it is below 2^31. */
  lemma OpenBalancedExactly(val: nat)
    requires val < 0x1_0000_0000
    ensures Balanced(Sem(AsInt(val), [])) <==> val < 0x8000_0000
  {
    if val >= 0x8000_0000 {
      assert AsInt(val) < 0;
    }
  }

  /** Opening with 2^31 makes the value negative with nobody waiting: the first signal would dequeue a null thread. */
  lemma OpenTooLarge()
    ensures var s := Sem(AsInt(0x8000_0000), []); s.value + 1 <= 0 && Woken(s).None?
  {
  }
}
