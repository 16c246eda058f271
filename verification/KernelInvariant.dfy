/** The inductive invariant of the thread kernel. */
module KernelInvariant {
  import opened Wrappers
  import opened Semaphores
  import opened Rings
  import opened KernelSpec

  type Tcbs = map<Tid, Tcb>

  /** r is the thread on the processor, if any: between parking one thread and dispatching to the next there is none. */
  ghost predicate RunOk(tcbs: Tcbs, r: Option<Tid>) {
    && (r.Some? ==> r.value in tcbs)
    && (forall t :: t in tcbs ==> (tcbs[t].place == Running <==> r == Some(t)))
  }

  ghost predicate ReadyOk(tcbs: Tcbs, ready: seq<Tid>) {
    && Distinct(ready)
    && (forall t: Tid :: t in ready <==> t in tcbs && tcbs[t].place == Ready)
  }

  ghost predicate QueueOk(tcbs: Tcbs, queue: seq<Tid>, s: SemId) {
    forall t: Tid :: t in queue <==> t in tcbs && tcbs[t].place == Queued(s)
  }

  ghost predicate SemsOk(tcbs: Tcbs, sems: map<SemId, Sem>) {
    && (forall s :: s in sems ==> Balanced(sems[s]) && QueueOk(tcbs, sems[s].queue, s))
    && (forall t :: t in tcbs && tcbs[t].place.Queued? ==> tcbs[t].place.s in sems)
  }

  function Threads(q: seq<Sleeper>): seq<Tid> {
    if q == [] then [] else [q[0].thread] + Threads(q[1..])
  }

  /** ts lists exactly the sleeping threads, once each. */
  ghost predicate SleepOk(tcbs: Tcbs, ts: seq<Tid>) {
    && Distinct(ts)
    && (forall t: Tid :: t in ts <==> t in tcbs && tcbs[t].place == Asleep)
  }

  /** Between ticks no countdown has ended. */
  ghost predicate TimesOk(sleepers: seq<Sleeper>) {
    forall i :: 0 <= i < |sleepers| ==> sleepers[i].time > 0
  }

  /** What the flags and the continuation of a thread are at each place; rel: released by closing a semaphore. */
  ghost predicate TcbOk(c: Tcb, rel: bool) {
    && (c.bornPaused && !c.started <==> c.place == Paused)
    && match c.place
       case Running => !c.blocked && c.cont.User? && !rel
       case Ready => c.blocked == rel && (rel ==> c.cont.InWait?)
       case Queued(s) => c.blocked && !rel && c.cont == if s == GET_SEM then InGetchar else InWait
       case Asleep => c.blocked && !rel && c.cont.User?
       case Paused => !c.blocked && !rel && c.cont.User?
  }

  ghost predicate FlagsOk(tcbs: Tcbs, released: set<Tid>) {
    && (forall t :: t in tcbs ==> TcbOk(tcbs[t], t in released))
    && (forall t :: t in released ==> t in tcbs)
  }

  /** Idle always runs or is ready, outside every trap. */
  ghost predicate IdleOk(tcbs: Tcbs) {
    && IDLE in tcbs
    && (tcbs[IDLE].place == Running || tcbs[IDLE].place == Ready)
    && !tcbs[IDLE].blocked && tcbs[IDLE].cont.User?
  }

  /** Grants go in arrival order, and the value is what opening, signals and waits add up to. */
  ghost predicate HistOf(s: Sem, h: Hist) {
    && h.initial >= 0
    && s.value == h.initial + h.signals - |h.arrivals|
    && h.arrivals == h.granted + s.queue
  }

  ghost predicate HistOk(sems: map<SemId, Sem>, hist: map<SemId, Hist>) {
    && sems.Keys == hist.Keys
    && (forall s :: s in sems ==> HistOf(sems[s], hist[s]))
  }

  /** The ready threads that still have to take their character, in order. */
  function Readers(ready: seq<Tid>, tcbs: Tcbs): seq<Tid> {
    if ready == [] then []
    else (if ready[0] in tcbs && tcbs[ready[0]].cont.InGetchar? then [ready[0]] else []) + Readers(ready[1..], tcbs)
  }

  /** Characters are read in the order accepted, and every grant not yet read belongs to one ready reader.
      pending: characters accepted but not yet signalled. */
  ghost predicate InputOk(input: Ring, h: Hist, readers: nat, log: Log, pending: nat) {
    && |log.read| <= |log.accepted|
    && RingHolds(input, log.accepted[|log.read|..])
    && (forall i :: 0 <= i < |log.read| ==> log.read[i].1 == log.accepted[i])
    && h.initial == 0 && h.signals + pending == |log.accepted|
    && |h.granted| == |log.read| + readers
  }

  ghost predicate OutputOk(output: Ring, log: Log) {
    && |log.sent| <= |log.printed| && log.sent == log.printed[..|log.sent|]
    && RingHolds(output, log.printed[|log.sent|..])
  }

  /** Everything about queues, flags and histories; waking lists threads already off the sleep queue but not yet ready. */
  ghost predicate Waking(k: Kernel, r: Option<Tid>, waking: seq<Tid>) {
    && RunOk(k.tcbs, r)
    && ReadyOk(k.tcbs, k.ready)
    && SemsOk(k.tcbs, k.sems)
    && SleepOk(k.tcbs, waking + Threads(k.sleepers))
    && TimesOk(k.sleepers)
    && FlagsOk(k.tcbs, k.log.released)
    && IdleOk(k.tcbs)
    && HistOk(k.sems, k.hist)
  }

  ghost predicate Core(k: Kernel, r: Option<Tid>) {
    Waking(k, r, [])
  }

  ghost predicate Consoles(k: Kernel, pending: nat) {
    && GET_SEM in k.hist
    && InputOk(k.input, k.hist[GET_SEM], |Readers(k.ready, k.tcbs)|, k.log, pending)
    && OutputOk(k.output, k.log)
  }

  ghost predicate Inv(k: Kernel) {
    Core(k, Some(k.running)) && Consoles(k, 0) && k.slice < TIME_SLICE
  }

  // ---------------------------------------------------------------- readers

  lemma {:induction false} ReadersAppend(ready: seq<Tid>, t: Tid, tcbs: Tcbs)
    ensures Readers(ready + [t], tcbs) ==
            Readers(ready, tcbs) + if t in tcbs && tcbs[t].cont.InGetchar? then [t] else []
    decreases |ready|
  {
    if ready == [] {
      assert ready + [t] == [t] && [t][1..] == [];
    } else {
      ReadersAppend(ready[1..], t, tcbs);
      assert ready == [ready[0]] + ready[1..] && ready + [t] == [ready[0]] + (ready[1..] + [t]);
      ReadersCons(ready[0], ready[1..], tcbs);
      ReadersCons(ready[0], ready[1..] + [t], tcbs);
      hide Readers;
    }
  }

  lemma ReadersCons(t: Tid, ready: seq<Tid>, tcbs: Tcbs)
    ensures Readers([t] + ready, tcbs) ==
            (if t in tcbs && tcbs[t].cont.InGetchar? then [t] else []) + Readers(ready, tcbs)
  {
    assert ([t] + ready)[1..] == ready;
  }

  /** Only the continuations of the ready threads matter. */
  lemma {:induction false} ReadersFrame(ready: seq<Tid>, tcbs: Tcbs, tcbs': Tcbs)
    requires forall t :: t in ready ==>
      (t in tcbs && tcbs[t].cont.InGetchar? <==> t in tcbs' && tcbs'[t].cont.InGetchar?)
    ensures Readers(ready, tcbs) == Readers(ready, tcbs')
    decreases |ready|
  {
    if ready != [] {
      assert ready == [ready[0]] + ready[1..];
      ReadersFrame(ready[1..], tcbs, tcbs');
    }
  }

  // ---------------------------------------------------------------- one thread changes place

  predicate Was(tcbs: Tcbs, t: Tid, p: Place) {
    t in tcbs && tcbs[t].place == p
  }

  predicate WasQueued(tcbs: Tcbs, t: Tid) {
    t in tcbs && tcbs[t].place.Queued?
  }

  lemma RunMove(tcbs: Tcbs, t: Tid, c: Tcb, r: Option<Tid>)
    requires RunOk(tcbs, r) && (r == Some(t) || r == None || c.place != Running)
    ensures RunOk(tcbs[t := c], if c.place == Running then Some(t) else if r == Some(t) then None else r)
  {
  }

  /** t joins the end of the ready queue exactly when it becomes ready. */
  lemma ReadyMove(tcbs: Tcbs, ready: seq<Tid>, t: Tid, c: Tcb)
    requires ReadyOk(tcbs, ready) && !Was(tcbs, t, Ready)
    ensures ReadyOk(tcbs[t := c], if c.place == Ready then ready + [t] else ready)
  {
  }

  lemma ReadyLeave(tcbs: Tcbs, ready: seq<Tid>, c: Tcb)
    requires ReadyOk(tcbs, ready) && ready != [] && c.place != Ready
    ensures ReadyOk(tcbs[ready[0] := c], ready[1..])
  {
    assert ready == [ready[0]] + ready[1..];
  }

  lemma SemsMove(tcbs: Tcbs, sems: map<SemId, Sem>, t: Tid, c: Tcb)
    requires SemsOk(tcbs, sems) && !WasQueued(tcbs, t) && !c.place.Queued?
    ensures SemsOk(tcbs[t := c], sems)
  {
    forall s | s in sems
      ensures QueueOk(tcbs[t := c], sems[s].queue, s)
    {
      assert QueueOk(tcbs, sems[s].queue, s);
    }
  }

  /** A blocking wait puts the thread at the end of that queue. */
  lemma SemsEnter(tcbs: Tcbs, sems: map<SemId, Sem>, t: Tid, c: Tcb, s: SemId)
    requires SemsOk(tcbs, sems) && !WasQueued(tcbs, t) && s in sems && c.place == Queued(s) && WouldBlock(sems[s])
    ensures SemsOk(tcbs[t := c], sems[s := WaitOn(sems[s], t)])
  {
    var sems' := sems[s := WaitOn(sems[s], t)];
    assert QueueOk(tcbs, sems[s].queue, s);
    WaitBalanced(sems[s], t);
    forall u | u in sems'
      ensures Balanced(sems'[u]) && QueueOk(tcbs[t := c], sems'[u].queue, u)
    {
      assert QueueOk(tcbs, sems[u].queue, u);
    }
  }

  /** A signal takes the thread it wakes off the head of that queue. */
  lemma SemsLeave(tcbs: Tcbs, sems: map<SemId, Sem>, c: Tcb, s: SemId)
    requires SemsOk(tcbs, sems) && s in sems && Woken(sems[s]).Some? && !c.place.Queued?
    ensures Was(tcbs, Woken(sems[s]).value, Queued(s))
    ensures SemsOk(tcbs[Woken(sems[s]).value := c], sems[s := SignalOn(sems[s])])
  {
    var t, sems' := Woken(sems[s]).value, sems[s := SignalOn(sems[s])];
    assert QueueOk(tcbs, sems[s].queue, s);
    SignalBalanced(sems[s]);
    assert t in sems[s].queue;
    forall u | u in sems'
      ensures Balanced(sems'[u]) && QueueOk(tcbs[t := c], sems'[u].queue, u)
    {
      assert QueueOk(tcbs, sems[u].queue, u);
    }
  }

  /** A change of one semaphore that leaves its queue alone. */
  lemma SemsCount(tcbs: Tcbs, sems: map<SemId, Sem>, s: SemId, sem: Sem)
    requires SemsOk(tcbs, sems) && Balanced(sem) && (if s in sems then sem.queue == sems[s].queue else sem.queue == [])
    ensures SemsOk(tcbs, sems[s := sem])
  {
    var sems' := sems[s := sem];
    forall u | u in sems'
      ensures QueueOk(tcbs, sems'[u].queue, u)
    {
      assert u in sems ==> QueueOk(tcbs, sems[u].queue, u);
    }
  }

  lemma SleepMove(tcbs: Tcbs, ts: seq<Tid>, t: Tid, c: Tcb)
    requires SleepOk(tcbs, ts) && !Was(tcbs, t, Asleep) && c.place != Asleep
    ensures SleepOk(tcbs[t := c], ts)
  {
  }

  lemma SleepEnter(tcbs: Tcbs, ts: seq<Tid>, t: Tid, c: Tcb)
    requires SleepOk(tcbs, ts) && !Was(tcbs, t, Asleep) && c.place == Asleep
    ensures SleepOk(tcbs[t := c], [t] + ts)
  {
  }

  lemma SleepLeave(tcbs: Tcbs, ts: seq<Tid>, c: Tcb)
    requires SleepOk(tcbs, ts) && ts != [] && c.place != Asleep
    ensures SleepOk(tcbs[ts[0] := c], ts[1..]) && Was(tcbs, ts[0], Asleep)
  {
    assert ts == [ts[0]] + ts[1..] && ts[0] in ts;
  }

  lemma FlagsMove(tcbs: Tcbs, released: set<Tid>, t: Tid, c: Tcb)
    requires FlagsOk(tcbs, released) && TcbOk(c, t in released)
    ensures FlagsOk(tcbs[t := c], released)
  {
  }

  lemma IdleMove(tcbs: Tcbs, t: Tid, c: Tcb)
    requires IdleOk(tcbs) && (t == IDLE ==> (c.place == Running || c.place == Ready) && !c.blocked && c.cont.User?)
    ensures IdleOk(tcbs[t := c])
  {
  }

  lemma HistMove(sems: map<SemId, Sem>, hist: map<SemId, Hist>, s: SemId, sem: Sem, h: Hist)
    requires HistOk(sems, hist) && HistOf(sem, h)
    ensures HistOk(sems[s := sem], hist[s := h])
  {
  }

  /** One thread's flags, and what being queued excludes. */
  lemma ThreadOk(k: Kernel, r: Option<Tid>, waking: seq<Tid>, t: Tid)
    requires Waking(k, r, waking) && t in k.tcbs
    ensures TcbOk(k.tcbs[t], t in k.log.released)
    ensures k.tcbs[t].place.Queued? ==> t != IDLE && r != Some(t)
  {
  }

  lemma QueuedToReady(c: Tcb)
    requires TcbOk(c, false) && c.place.Queued?
    ensures TcbOk(c.(blocked := false, place := Ready), false)
  {
  }

  lemma CoreParts(k: Kernel, r: Option<Tid>, waking: seq<Tid>)
    requires Waking(k, r, waking)
    ensures Was(k.tcbs, IDLE, Running) || Was(k.tcbs, IDLE, Ready)
    ensures forall t :: t in k.tcbs ==> TcbOk(k.tcbs[t], t in k.log.released)
    ensures r.Some? ==> Was(k.tcbs, r.value, Running)
    ensures k.sems.Keys == k.hist.Keys
    ensures forall s :: s in k.sems ==> HistOf(k.sems[s], k.hist[s])
  {
  }

  // ---------------------------------------------------------------- leaving the processor

  /** The running thread becomes ready. */
  lemma ParkReadyKeeps(k: Kernel)
    requires Core(k, Some(k.running)) && k.running in k.tcbs
    ensures Core(ParkReady(k), None)
  {
    hide RunOk, ReadyOk, SemsOk, SleepOk, FlagsOk, IdleOk, HistOk;
    CoreParts(k, Some(k.running), []);
    var t := k.running;
    var c := k.tcbs[t].(place := Ready);
    RunMove(k.tcbs, t, c, Some(t));
    ReadyMove(k.tcbs, k.ready, t, c);
    SemsMove(k.tcbs, k.sems, t, c);
    SleepMove(k.tcbs, [] + Threads(k.sleepers), t, c);
    FlagsMove(k.tcbs, k.log.released, t, c);
    IdleMove(k.tcbs, t, c);
  }

  /** The running thread finishes: it is on no queue, so nothing refers to it any more. */
  lemma ParkGoneKeeps(k: Kernel)
    requires Core(k, Some(k.running)) && k.running != IDLE
    ensures Core(ParkGone(k), None)
  {
  }

  /** The running thread blocks on a semaphore. */
  lemma ParkQueuedKeeps(k: Kernel, s: SemId, cont: Cont)
    requires Core(k, Some(k.running)) && k.running in k.tcbs && k.running != IDLE && s in k.sems && s in k.hist
    requires WouldBlock(k.sems[s]) && cont == if s == GET_SEM then InGetchar else InWait
    ensures Core(ParkQueued(k, s, cont), None)
  {
    hide RunOk, ReadyOk, SemsOk, SleepOk, FlagsOk, IdleOk, HistOk;
    CoreParts(k, Some(k.running), []);
    var t := k.running;
    var c := k.tcbs[t].(blocked := true, cont := cont, place := Queued(s));
    RunMove(k.tcbs, t, c, Some(t));
    ReadyMove(k.tcbs, k.ready, t, c);
    SemsEnter(k.tcbs, k.sems, t, c, s);
    SleepMove(k.tcbs, [] + Threads(k.sleepers), t, c);
    FlagsMove(k.tcbs, k.log.released, t, c);
    IdleMove(k.tcbs, t, c);
    HistMove(k.sems, k.hist, s, WaitOn(k.sems[s], t), k.hist[s].(arrivals := k.hist[s].arrivals + [t]));
  }

  /** The running thread goes to sleep. */
  lemma ParkAsleepKeeps(k: Kernel, n: int)
    requires Core(k, Some(k.running)) && k.running in k.tcbs && k.running != IDLE && n > 0
    ensures Core(ParkAsleep(k, n), None)
  {
    hide RunOk, ReadyOk, SemsOk, SleepOk, FlagsOk, IdleOk, HistOk;
    CoreParts(k, Some(k.running), []);
    var t := k.running;
    var c := k.tcbs[t].(blocked := true, place := Asleep);
    RunMove(k.tcbs, t, c, Some(t));
    ReadyMove(k.tcbs, k.ready, t, c);
    SemsMove(k.tcbs, k.sems, t, c);
    SleepEnter(k.tcbs, [] + Threads(k.sleepers), t, c);
    ThreadsCons(Sleeper(t, n), k.sleepers);
    assert [] + ([t] + Threads(k.sleepers)) == [t] + ([] + Threads(k.sleepers));
    FlagsMove(k.tcbs, k.log.released, t, c);
    IdleMove(k.tcbs, t, c);
  }

  // ---------------------------------------------------------------- taking the processor

  /** Dispatch never finds the ready queue empty: idle is in it. */
  lemma NeverNull(k: Kernel)
    requires Core(k, None)
    ensures CanDispatch(k) && Was(k.tcbs, k.ready[0], Ready)
  {
    assert IDLE in k.ready;
    assert k.ready[0] in k.ready;
  }

  /** What dispatching changes: the head of the ready queue runs, outside the kernel, with its flag clear. */
  lemma NextEffect(k: Kernel)
    requires CanDispatch(k)
    ensures var t, k' := k.ready[0], Next(k);
      && k'.running == t && k'.ready == k.ready[1..]
      && t in k'.tcbs && k'.tcbs == k.tcbs[t := k'.tcbs[t]]
      && k'.tcbs[t] == k.tcbs[t].(blocked := k.tcbs[t].cont.User? && k.tcbs[t].blocked, cont := User, place := Running)
      && k'.log.released == (if k.tcbs[t].cont.User? then k.log.released else k.log.released - {t})
      && k'.sems == k.sems && k'.hist == k.hist && k'.sleepers == k.sleepers && k'.slice == k.slice
      && k'.output == k.output
      && k'.log.dispatches == k.log.dispatches + 1 && k'.log.ticks == k.log.ticks
  {
  }

  lemma NextKeeps(k: Kernel)
    requires Core(k, None) && CanDispatch(k)
    ensures Core(Next(k), Some(Next(k).running))
  {
    NeverNull(k);
    CoreParts(k, None, []);
    NextEffect(k);
    hide RunOk, ReadyOk, SemsOk, SleepOk, FlagsOk, IdleOk, HistOk, TimesOk, Next;
    var t, k' := k.ready[0], Next(k);
    var c := k'.tcbs[t];
    RunMove(k.tcbs, t, c, None);
    ReadyLeave(k.tcbs, k.ready, c);
    SemsMove(k.tcbs, k.sems, t, c);
    SleepMove(k.tcbs, [] + Threads(k.sleepers), t, c);
    FlagsRun(k.tcbs, k.log.released, k'.log.released, t, c);
    IdleMove(k.tcbs, t, c);
  }

  lemma FlagsRun(tcbs: Tcbs, released: set<Tid>, released': set<Tid>, t: Tid, c: Tcb)
    requires FlagsOk(tcbs, released) && TcbOk(c, false) && t !in released'
    requires released' == released || released' == released - {t}
    ensures FlagsOk(tcbs[t := c], released')
  {
  }

  // ---------------------------------------------------------------- becoming ready

  /** A signal without a waiter only counts. */
  lemma SignalEffectNone(k: Kernel, s: SemId)
    requires Shape(k) && s in k.sems && Woken(k.sems[s]).None?
    ensures Signal(k, s) == k.(sems := k.sems[s := SignalOn(k.sems[s])],
                               hist := k.hist[s := k.hist[s].(signals := k.hist[s].signals + 1)])
  {
  }

  lemma SignalEffectSome(k: Kernel, s: SemId, t: Tid)
    requires Shape(k) && s in k.sems && Woken(k.sems[s]) == Some(t) && t in k.tcbs
    ensures var h := k.hist[s];
      Signal(k, s) == k.(sems := k.sems[s := SignalOn(k.sems[s])],
                         hist := k.hist[s := h.(signals := h.signals + 1, granted := h.granted + [t])],
                         ready := k.ready + [t],
                         tcbs := k.tcbs[t := k.tcbs[t].(blocked := false, place := Ready)])
  {
  }

  lemma SignalCounts(k: Kernel, s: SemId, r: Option<Tid>)
    requires Core(k, r) && Shape(k) && s in k.sems && Woken(k.sems[s]).None?
    ensures Core(Signal(k, s), r)
  {
    CoreParts(k, r, []);
    SemParts(k.tcbs, k.sems, s);
    SignalBalanced(k.sems[s]);
    SignalEffectNone(k, s);
    hide RunOk, ReadyOk, SemsOk, SleepOk, FlagsOk, IdleOk, HistOk, TimesOk, Balanced, Signal;
    var h := k.hist[s];
    SemsCount(k.tcbs, k.sems, s, SignalOn(k.sems[s]));
    HistMove(k.sems, k.hist, s, SignalOn(k.sems[s]), h.(signals := h.signals + 1));
  }

  lemma SignalWakes(k: Kernel, s: SemId, r: Option<Tid>, t: Tid)
    requires Core(k, r) && Shape(k) && s in k.sems && Woken(k.sems[s]) == Some(t)
    ensures Was(k.tcbs, t, Queued(s))
    ensures Core(Signal(k, s), r)
  {
    SemParts(k.tcbs, k.sems, s);
    SignalBalanced(k.sems[s]);
    ThreadOk(k, r, [], t);
    SignalEffectSome(k, s, t);
    QueuedToReady(k.tcbs[t]);
    HistParts(k.sems, k.hist, s);
    hide RunOk, ReadyOk, SemsOk, SleepOk, FlagsOk, IdleOk, HistOk, TimesOk, Balanced, Signal, Woken, SignalOn, HistOf;
    hide TcbOk;
    var sem, h := k.sems[s], k.hist[s];
    var c := k.tcbs[t].(blocked := false, place := Ready);
    SemsLeave(k.tcbs, k.sems, c, s);
    RunMove(k.tcbs, t, c, r);
    ReadyMove(k.tcbs, k.ready, t, c);
    SleepMove(k.tcbs, [] + Threads(k.sleepers), t, c);
    FlagsMove(k.tcbs, k.log.released, t, c);
    IdleMove(k.tcbs, t, c);
    HistGrant(sem, h);
    HistMove(k.sems, k.hist, s, SignalOn(sem), h.(signals := h.signals + 1, granted := h.granted + [t]));
  }

  lemma SignalKeeps(k: Kernel, s: SemId, r: Option<Tid>)
    requires Core(k, r) && Shape(k) && s in k.sems
    ensures Core(Signal(k, s), r)
    ensures Signal(k, s).running == k.running && Signal(k, s).slice == k.slice
  {
    hide Core;
    match Woken(k.sems[s])
    case None => SignalCounts(k, s, r);
    case Some(t) => SignalWakes(k, s, r, t);
  }

  lemma HistParts(sems: map<SemId, Sem>, hist: map<SemId, Hist>, s: SemId)
    requires HistOk(sems, hist) && s in sems
    ensures s in hist && HistOf(sems[s], hist[s])
  {
  }

  lemma SemParts(tcbs: Tcbs, sems: map<SemId, Sem>, s: SemId)
    requires SemsOk(tcbs, sems) && s in sems
    ensures Balanced(sems[s]) && forall t :: t in sems[s].queue ==> Was(tcbs, t, Queued(s))
  {
    assert QueueOk(tcbs, sems[s].queue, s);
  }

  lemma HistGrant(sem: Sem, h: Hist)
    requires HistOf(sem, h) && Woken(sem).Some?
    ensures HistOf(SignalOn(sem), h.(signals := h.signals + 1, granted := h.granted + [Woken(sem).value]))
  {
    assert sem.queue == [sem.queue[0]] + sem.queue[1..];
  }

  /** One sleeper whose countdown has ended becomes ready. */
  lemma WakeKeeps(k: Kernel, r: Option<Tid>, waking: seq<Tid>)
    requires Waking(k, r, waking) && waking != []
    ensures Waking(MakeReady(k, waking[0]), r, waking[1..])
    ensures Was(k.tcbs, waking[0], Asleep)
  {
    var t := waking[0];
    var ts := waking + Threads(k.sleepers);
    assert ts[0] == t && ts[1..] == waking[1..] + Threads(k.sleepers);
    SleepLeave(k.tcbs, ts, Tcb(false, false, false, User, Ready));
    CoreParts(k, r, waking);
    var c := k.tcbs[t].(blocked := false, place := Ready);
    hide RunOk, ReadyOk, SemsOk, SleepOk, FlagsOk, IdleOk, HistOk, TimesOk;
    SleepLeave(k.tcbs, ts, c);
    RunMove(k.tcbs, t, c, r);
    ReadyMove(k.tcbs, k.ready, t, c);
    SemsMove(k.tcbs, k.sems, t, c);
    FlagsMove(k.tcbs, k.log.released, t, c);
    IdleMove(k.tcbs, t, c);
  }

  lemma {:induction false} WakeAllKeeps(k: Kernel, r: Option<Tid>, waking: seq<Tid>)
    requires Waking(k, r, waking)
    ensures Core(MakeAllReady(k, waking), r)
    ensures MakeAllReady(k, waking).running == k.running && MakeAllReady(k, waking).slice == k.slice
    decreases |waking|
  {
    hide Waking;
    if waking != [] {
      WakeKeeps(k, r, waking);
      WakeAllKeeps(MakeReady(k, waking[0]), r, waking[1..]);
    }
  }

  lemma {:induction false} RemainingTimes(q: seq<Sleeper>)
    requires TimesOk(q)
    ensures TimesOk(Remaining(q))
    decreases |q|
  {
    if q != [] {
      RemainingTimes(q[1..]);
    }
  }

  lemma ThreadsCons(e: Sleeper, q: seq<Sleeper>)
    ensures Threads([e] + q) == [e.thread] + Threads(q)
  {
    assert ([e] + q)[1..] == q;
  }

  lemma TickCons(e: Sleeper, q: seq<Sleeper>)
    ensures Expired([e] + q) == (if e.time == 1 then [e.thread] else []) + Expired(q)
    ensures Remaining([e] + q) == (if e.time == 1 then [] else [e.(time := e.time - 1)]) + Remaining(q)
  {
    assert ([e] + q)[1..] == q;
  }

  lemma TickSplitsCons(e: Sleeper, q: seq<Sleeper>)
    requires Distinct(Expired(q) + Threads(Remaining(q)))
    requires e.thread !in Expired(q) + Threads(Remaining(q))
    ensures Distinct(Expired([e] + q) + Threads(Remaining([e] + q)))
    ensures forall t :: t in Expired([e] + q) + Threads(Remaining([e] + q)) <==>
              t in Expired(q) + Threads(Remaining(q)) || t == e.thread
  {
    TickCons(e, q);
    ThreadsCons(e.(time := e.time - 1), Remaining(q));
    var a, b, x := Expired(q), Threads(Remaining(q)), Remaining([e] + q);
    hide Expired, Remaining, Threads, Distinct;
    if e.time == 1 {
      assert [] + (a + b) == a + b;
      InsertDistinct([], e.thread, a + b);
      assert [] + Remaining(q) == Remaining(q);
      assert [] + ([e.thread] + (a + b)) == ([e.thread] + a) + b;
    } else {
      InsertDistinct(a, e.thread, b);
      assert [] + a == a;
    }
  }

  /** A tick splits the sleepers into those it wakes and those it leaves, losing and doubling nobody. */
  lemma {:induction false} TickSplits(q: seq<Sleeper>)
    requires Distinct(Threads(q))
    ensures Distinct(Expired(q) + Threads(Remaining(q)))
    ensures forall t :: t in Expired(q) + Threads(Remaining(q)) <==> t in Threads(q)
    decreases |q|
  {
    if q != [] {
      TailDistinct(Threads(q));
      assert Threads(q)[1..] == Threads(q[1..]);
      TickSplits(q[1..]);
      TickSplitsCons(q[0], q[1..]);
      assert q == [q[0]] + q[1..];
    }
  }

  lemma TailDistinct(s: seq<Tid>)
    requires Distinct(s) && s != []
    ensures Distinct(s[1..]) && s[0] !in s[1..]
  {
  }

  lemma InsertDistinct(a: seq<Tid>, t: Tid, b: seq<Tid>)
    requires Distinct(a + b) && t !in a + b
    ensures Distinct(a + ([t] + b))
    ensures forall u :: u in a + ([t] + b) <==> u in a + b || u == t
  {
    var c := a + ([t] + b);
    forall i, j | 0 <= i < j < |c|
      ensures c[i] != c[j]
    {
      assert c[i] == if i < |a| then (a + b)[i] else if i == |a| then t else (a + b)[i - 1];
      assert c[j] == if j < |a| then (a + b)[j] else if j == |a| then t else (a + b)[j - 1];
    }
  }

  lemma UpdateTimeWaking(k: Kernel, r: Option<Tid>)
    requires Core(k, r)
    ensures Waking(k.(sleepers := Remaining(k.sleepers)), r, Expired(k.sleepers))
  {
    assert [] + Threads(k.sleepers) == Threads(k.sleepers);
    TickSplits(k.sleepers);
    RemainingTimes(k.sleepers);
  }

  lemma UpdateTimeKeeps(k: Kernel, r: Option<Tid>)
    requires Core(k, r)
    ensures Core(UpdateTime(k), r)
    ensures UpdateTime(k).running == k.running && UpdateTime(k).slice == k.slice
  {
    UpdateTimeWaking(k, r);
    var k1 := k.(sleepers := Remaining(k.sleepers));
    WakeAllKeeps(k1, r, Expired(k.sleepers));
  }

  // ---------------------------------------------------------------- creating, starting, opening, closing

  lemma SpawnKeeps(k: Kernel, t: Tid, paused: bool)
    requires Core(k, Some(k.running)) && t !in k.tcbs
    ensures Core(Spawn(k, t, paused), Some(k.running))
  {
    CoreParts(k, Some(k.running), []);
    ReleasedExist(k.tcbs, k.log.released);
    hide RunOk, ReadyOk, SemsOk, SleepOk, FlagsOk, IdleOk, HistOk, TimesOk;
    var c := Tcb(false, false, paused, User, if paused then Paused else Ready);
    RunMove(k.tcbs, t, c, Some(k.running));
    ReadyMove(k.tcbs, k.ready, t, c);
    SemsMove(k.tcbs, k.sems, t, c);
    SleepMove(k.tcbs, [] + Threads(k.sleepers), t, c);
    FlagsMove(k.tcbs, k.log.released, t, c);
    IdleMove(k.tcbs, t, c);
  }

  lemma ReleasedExist(tcbs: Tcbs, released: set<Tid>)
    requires FlagsOk(tcbs, released)
    ensures forall t :: t in released ==> t in tcbs
  {
  }

  lemma StartKeeps(k: Kernel, t: Tid)
    requires Core(k, Some(k.running)) && t in k.tcbs && k.tcbs[t].bornPaused
    ensures Core(StartThread(k, t), Some(k.running))
  {
    CoreParts(k, Some(k.running), []);
    hide RunOk, ReadyOk, SemsOk, SleepOk, FlagsOk, IdleOk, HistOk, TimesOk;
    if !k.tcbs[t].started {
      var c := k.tcbs[t].(started := true, place := Ready);
      RunMove(k.tcbs, t, c, Some(k.running));
      ReadyMove(k.tcbs, k.ready, t, c);
      SemsMove(k.tcbs, k.sems, t, c);
      SleepMove(k.tcbs, [] + Threads(k.sleepers), t, c);
      FlagsMove(k.tcbs, k.log.released, t, c);
      IdleMove(k.tcbs, t, c);
    }
  }

  lemma OpenKeeps(k: Kernel, s: SemId, val: nat)
    requires Core(k, Some(k.running)) && s !in k.sems && val < 0x8000_0000
    ensures Core(Open(k, s, val), Some(k.running))
  {
    hide RunOk, ReadyOk, SemsOk, SleepOk, FlagsOk, IdleOk, HistOk, TimesOk;
    SemsCount(k.tcbs, k.sems, s, Sem(AsInt(val), []));
    HistMove(k.sems, k.hist, s, Sem(AsInt(val), []), Hist(AsInt(val), 0, [], []));
  }

  lemma ConcatDistinct(a: seq<Tid>, b: seq<Tid>)
    requires Distinct(a) && Distinct(b) && forall t :: t in a ==> t !in b
    ensures Distinct(a + b)
  {
    var c := a + b;
    forall i, j | 0 <= i < j < |c|
      ensures c[i] != c[j]
    {
      if i < |a| <= j {
        assert c[i] in a && c[j] in b;
      }
    }
  }

  lemma CloseReady(k: Kernel, s: SemId)
    requires ReadyOk(k.tcbs, k.ready) && SemsOk(k.tcbs, k.sems) && s in k.sems
    ensures ReadyOk(Close(k, s).tcbs, Close(k, s).ready)
  {
    assert QueueOk(k.tcbs, k.sems[s].queue, s);
    ConcatDistinct(k.ready, k.sems[s].queue);
  }

  lemma CloseSems(k: Kernel, s: SemId)
    requires SemsOk(k.tcbs, k.sems) && s in k.sems
    ensures SemsOk(Close(k, s).tcbs, Close(k, s).sems)
  {
    assert QueueOk(k.tcbs, k.sems[s].queue, s);
    forall u | u in k.sems && u != s
      ensures QueueOk(Close(k, s).tcbs, k.sems[u].queue, u)
    {
      assert QueueOk(k.tcbs, k.sems[u].queue, u);
    }
  }

  lemma CloseFlags(k: Kernel, s: SemId)
    requires FlagsOk(k.tcbs, k.log.released) && SemsOk(k.tcbs, k.sems) && s in k.sems && s != GET_SEM
    ensures FlagsOk(Close(k, s).tcbs, Close(k, s).log.released)
  {
    assert QueueOk(k.tcbs, k.sems[s].queue, s);
  }

  /** Closing a semaphore makes every waiter ready with its blocked flag set. */
  lemma CloseKeeps(k: Kernel, s: SemId)
    requires Core(k, Some(k.running)) && s in k.sems && s != GET_SEM
    ensures Core(Close(k, s), Some(k.running))
  {
    hide ReadyOk, SemsOk, FlagsOk, HistOf;
    SemParts(k.tcbs, k.sems, s);
    CloseReady(k, s);
    CloseSems(k, s);
    CloseFlags(k, s);
  }
}
