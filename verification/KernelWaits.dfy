/** How blocked waits end, and how characters reach their readers. */
module KernelWaits {
  import opened Wrappers
  import opened Semaphores
  import opened Rings
  import opened KernelSpec
  import opened KernelInvariant
  import opened KernelSteps
  import opened KernelTheorems
  import opened KernelSchedule

  // ---------------------------------------------------------------- one trap, seen by a thread inside sem_wait

  /** Nothing happens to t. */
  ghost predicate Kept(k: Kernel, k': Kernel, t: Tid) {
    && t in k.tcbs && t in k'.tcbs && k'.tcbs[t] == k.tcbs[t]
    && (t in k'.log.released <==> t in k.log.released)
  }

  /** t is inside sem_wait on a user semaphore: still queued, or already ready again. */
  ghost predicate InsideWait(k: Kernel, t: Tid) {
    t in k.tcbs && k.tcbs[t].cont.InWait?
  }

  /** The wait returns: -1 exactly when t had been released by closing the semaphore. */
  ghost predicate Returns(k: Kernel, k': Kernel, t: Tid) {
    && k'.running == t
    && k'.log.results == k.log.results + [(t, if t in k.log.released then -1 else 0)]
  }

  lemma InsidePlaces(k: Kernel, r: Option<Tid>, waking: seq<Tid>, t: Tid)
    requires Waking(k, r, waking) && InsideWait(k, t)
    ensures r != Some(t) && k.tcbs[t].place != Asleep && k.tcbs[t].place != Queued(GET_SEM)
    ensures k.tcbs[t].place == Ready || (k.tcbs[t].place.Queued? && t !in k.log.released)
    ensures k.tcbs[t].place == Ready ==> (k.tcbs[t].blocked <==> t in k.log.released)
  {
    ThreadOk(k, r, waking, t);
  }

  lemma SignalSpares(k: Kernel, s: SemId, r: Option<Tid>, t: Tid)
    requires Core(k, r) && Shape(k) && s in k.sems && InsideWait(k, t)
    ensures Kept(k, Signal(k, s), t) ||
            (k.tcbs[t].place == Queued(s) && InsideWait(Signal(k, s), t)
             && Signal(k, s).tcbs[t].place == Ready && t !in Signal(k, s).log.released)
  {
    InsidePlaces(k, r, [], t);
    match Woken(k.sems[s])
    case None => SignalEffectNone(k, s);
    case Some(u) =>
      SignalWakes(k, s, r, u);
      SignalEffectSome(k, s, u);
  }

  lemma ReceiveSpares(k: Kernel, c: char, t: Tid)
    requires Inv(k) && Shape(k) && InsideWait(k, t)
    ensures Kept(k, Receive(k, c), t)
  {
    if k.input.size != BUFFER_SIZE {
      var k1 := k.(input := RingPut(k.input, c), log := k.log.(accepted := k.log.accepted + [c]));
      InvParts(k);
      CoreFrame(k, k1, Some(k.running));
      InsidePlaces(k, Some(k.running), [], t);
      SignalSpares(k1, GET_SEM, Some(k.running), t);
    }
  }

  lemma {:induction false} ReceiveAllSpares(k: Kernel, rx: seq<char>, t: Tid)
    requires Inv(k) && InsideWait(k, t)
    ensures Kept(k, ReceiveAll(k, rx), t)
    decreases |rx|
  {
    hide Inv, Receive;
    InvShape(k);
    if rx != [] {
      ReceiveSpares(k, rx[0], t);
      ReceiveKeeps(k, rx[0]);
      ReceiveAllSpares(Receive(k, rx[0]), rx[1..], t);
    }
  }

  lemma {:induction false} TransmitSpares(k: Kernel, n: nat)
    ensures Transmit(k, n).tcbs == k.tcbs && Transmit(k, n).log.released == k.log.released
    decreases n
  {
    if n > 0 && k.output.size != 0 {
      TransmitSpares(SendOne(k), n - 1);
    }
  }

  lemma HandleSpares(k: Kernel, d: Device, t: Tid)
    requires Inv(k) && InsideWait(k, t)
    ensures Kept(k, Handle(k, d), t)
  {
    hide Inv;
    TransmitSpares(k, d.txReady);
    TransmitKeeps(k, d.txReady);
    ReceiveAllSpares(Transmit(k, d.txReady), d.rx, t);
  }

  lemma PutcharSpares(k: Kernel, c: char, d: Device, t: Tid)
    requires Inv(k) && InsideWait(k, t)
    ensures Kept(k, Putchar(k, c, d), t)
  {
    if k.output.size != BUFFER_SIZE {
      var k1 := k.(output := RingPut(k.output, c), log := k.log.(printed := k.log.printed + [c]));
      PrintedKeeps(k, c);
      HandleSpares(k1, d, t);
    }
  }

  /** A dispatch either leaves t alone or is the one that returns from its wait. */
  lemma DispatchSpares(k: Kernel, p: Kernel, t: Tid)
    requires Core(p, None) && InsideWait(p, t) && Kept(k, p, t) && p.log.results == k.log.results
    ensures Kept(k, Dispatch(p), t) || (k.tcbs[t].place == Ready && Returns(k, Dispatch(p), t))
  {
    NeverNull(p);
    NextEffect(p);
    InsidePlaces(p, None, [], t);
  }

  lemma {:induction false} MakeAllReadySpares(k: Kernel, ts: seq<Tid>, t: Tid)
    requires t !in ts && t in k.tcbs
    ensures Kept(k, MakeAllReady(k, ts), t) && MakeAllReady(k, ts).log == k.log
    decreases |ts|
  {
    if ts != [] {
      MakeAllReadySpares(MakeReady(k, ts[0]), ts[1..], t);
    }
  }

  lemma TickedSpares(k: Kernel, t: Tid)
    requires Core(k, Some(k.running)) && InsideWait(k, t)
    ensures Kept(k, Ticked(k), t) && Ticked(k).log.results == k.log.results
  {
    InsidePlaces(k, Some(k.running), [], t);
    ExpiredExist(k);
    hide Waking, Core;
    var k0 := k.(slice := k.slice + 1, log := k.log.(ticks := k.log.ticks + 1), sleepers := Remaining(k.sleepers));
    MakeAllReadySpares(k0, Expired(k.sleepers), t);
  }

  lemma TickSpares(k: Kernel, t: Tid)
    requires Inv(k) && Shape(k) && InsideWait(k, t)
    ensures Kept(k, Tick(k), t) || (k.tcbs[t].place == Ready && Returns(k, Tick(k), t))
  {
    hide Core, Consoles, UpdateTime, Dispatch, Inv, Returns, Tick, Ticked, ParkReady;
    InvParts(k);
    SliceEnds(k);
    TickedSpares(k, t);
    TickCases(k);
    if Ticked(k).slice >= TIME_SLICE {
      YieldSpares(k, Ticked(k).(slice := 0), t);
    }
  }

  lemma YieldSpares(k: Kernel, k2: Kernel, t: Tid)
    requires Core(k2, Some(k2.running)) && k2.running in k2.tcbs && InsideWait(k2, t) && Kept(k, k2, t)
    requires k2.log.results == k.log.results
    ensures Kept(k, Dispatch(ParkReady(k2)), t) || (k.tcbs[t].place == Ready && Returns(k, Dispatch(ParkReady(k2)), t))
  {
    InsidePlaces(k2, Some(k2.running), [], t);
    ParkReadyKeeps(k2);
    hide Core, Dispatch, Returns;
    DispatchSpares(k, ParkReady(k2), t);
  }

  lemma ExitSpares(k: Kernel, t: Tid)
    requires Core(k, Some(k.running)) && k.running != IDLE && InsideWait(k, t)
    ensures Kept(k, Dispatch(ParkGone(k)), t) || (k.tcbs[t].place == Ready && Returns(k, Dispatch(ParkGone(k)), t))
  {
    InsidePlaces(k, Some(k.running), [], t);
    ParkGoneKeeps(k);
    hide Core, Dispatch, Returns;
    DispatchSpares(k, ParkGone(k), t);
  }

  lemma SleepSpares(k: Kernel, n: int, t: Tid)
    requires Core(k, Some(k.running)) && k.running in k.tcbs && k.running != IDLE && n > 0 && InsideWait(k, t)
    ensures Kept(k, Dispatch(ParkAsleep(k, n)), t) || (k.tcbs[t].place == Ready && Returns(k, Dispatch(ParkAsleep(k, n)), t))
  {
    InsidePlaces(k, Some(k.running), [], t);
    ParkAsleepKeeps(k, n);
    hide Core, Dispatch, Returns;
    DispatchSpares(k, ParkAsleep(k, n), t);
  }

  lemma CloseSpares(k: Kernel, s: SemId, t: Tid)
    requires Inv(k) && s in k.sems && InsideWait(k, t)
    ensures Kept(k, Close(k, s), t) ||
            (k.tcbs[t].place == Queued(s) && InsideWait(Close(k, s), t) && t in Close(k, s).log.released
             && Close(k, s).tcbs[t].place == Ready)
    ensures k.tcbs[t].place == Queued(s) ==> t in Close(k, s).log.released
  {
    assert QueueOk(k.tcbs, k.sems[s].queue, s);
  }

  lemma WaitSpares(k: Kernel, s: SemId, cont: Cont, t: Tid)
    requires Inv(k) && Shape(k) && k.running != IDLE && s in k.sems && InsideWait(k, t)
    requires cont == if s == GET_SEM then InGetchar else InWait
    ensures Kept(k, Wait(k, s, cont), t) || (k.tcbs[t].place == Ready && Returns(k, Wait(k, s, cont), t))
  {
    InvParts(k);
    InsidePlaces(k, Some(k.running), [], t);
    hide Inv, Core, Consoles;
    if WouldBlock(k.sems[s]) {
      ParkQueuedKeeps(k, s, cont);
      DispatchSpares(k, ParkQueued(k, s, cont), t);
    }
  }

  /** What one trap can do to a thread inside sem_wait: nothing; a signal or a close of its semaphore makes it ready;
      or, once ready, the dispatch that returns from the wait. */
  lemma InsideWaitStep(k: Kernel, e: Event, t: Tid)
    requires Inv(k) && Legal(k, e) && InsideWait(k, t)
    ensures var k' := Step(k, e);
      || Kept(k, k', t)
      || (e.SemSignal? && k.tcbs[t].place == Queued(e.s) && InsideWait(k', t) && k'.tcbs[t].place == Ready
          && t !in k'.log.released)
      || (e.SemClose? && k.tcbs[t].place == Queued(e.s) && InsideWait(k', t) && k'.tcbs[t].place == Ready
          && t in k'.log.released)
      || (k.tcbs[t].place == Ready && Returns(k, k', t))
    ensures e.SemClose? && k.tcbs[t].place == Queued(e.s) ==> t in Step(k, e).log.released
  {
    hide Inv, Core, Consoles, Dispatch, Wait, Tick, Handle, Signal, Close, Returns, Putchar, ParkReady, ParkGone;
    hide ParkAsleep;
    InvParts(k);
    CoreFrame(k, k.(slice := 0), Some(k.running));
    match e
    case ThreadDispatch => YieldSpares(k, k.(slice := 0), t);
    case ThreadExit => ExitSpares(k, t);
    case SemClose(s) => CloseSpares(k, s, t);
    case SemWait(s) => WaitSpares(k, s, InWait, t);
    case SemSignal(s) => SignalSpares(k, s, Some(k.running), t);
    case TimeSleep(n) => if n > 0 { SleepSpares(k.(slice := 0), n, t); SliceReturns(k, Step(k, e), t); }
    case Getc => WaitSpares(k, GET_SEM, InGetchar, t);
    case Putc(c, d) => PutcharSpares(k, c, d, t);
    case TimerTick => TickSpares(k, t);
    case ConsoleInterrupt(d) => HandleSpares(k, d, t);
    case Start(u) => StartSpares(k, u, t);
    case _ =>
  }

  lemma SliceReturns(k: Kernel, k': Kernel, t: Tid)
    ensures Returns(k.(slice := 0), k', t) <==> Returns(k, k', t)
  {
  }

  lemma StartSpares(k: Kernel, u: Tid, t: Tid)
    requires Inv(k) && u in k.tcbs && k.tcbs[u].bornPaused && InsideWait(k, t)
    ensures Kept(k, StartThread(k, u), t)
  {
    ThreadOk(k, Some(k.running), [], u);
  }

  // ---------------------------------------------------------------- whole runs

  /** The result of the wait t is inside of, if a run gets that far. */
  ghost function Outcome(k: Kernel, es: seq<Event>, t: Tid): Option<int>
    requires LegalRun(k, es)
    decreases |es|
  {
    if es == [] then None
    else
      var k' := Step(k, es[0]);
      if k'.running == t then (if k'.log.results == [] then None else Some(k'.log.results[|k'.log.results| - 1].1))
      else Outcome(k', es[1..], t)
  }

  /** The run closes the semaphore while t is still queued on it. */
  ghost predicate ClosedOn(k: Kernel, es: seq<Event>, t: Tid, s: SemId)
    requires LegalRun(k, es)
    decreases |es|
  {
    && es != [] && Was(k.tcbs, t, Queued(s))
    && (es[0] == SemClose(s) || ClosedOn(Step(k, es[0]), es[1..], t, s))
  }

  lemma KeptInside(k: Kernel, k': Kernel, t: Tid)
    requires Inv(k) && Inv(k') && InsideWait(k, t) && Kept(k, k', t)
    ensures InsideWait(k', t) && k'.running != t && k.running != t
  {
    InsidePlaces(k, Some(k.running), [], t);
    InsidePlaces(k', Some(k'.running), [], t);
    ThreadOk(k', Some(k'.running), [], t);
    RunningUser(k');
    RunningUser(k);
  }

  lemma StillInside(k: Kernel, t: Tid)
    requires Inv(k) && InsideWait(k, t)
    ensures k.running != t
  {
    RunningUser(k);
  }

  lemma {:induction false} ReadyOutcome(k: Kernel, es: seq<Event>, t: Tid)
    requires Inv(k) && LegalRun(k, es) && InsideWait(k, t) && k.tcbs[t].place == Ready
    requires Outcome(k, es, t).Some?
    ensures Outcome(k, es, t).value == if t in k.log.released then -1 else 0
    decreases |es|
  {
    hide Inv, Step, Legal;
    var k' := Step(k, es[0]);
    StepKeeps(k, es[0]);
    InsideWaitStep(k, es[0], t);
    if Kept(k, k', t) {
      KeptInside(k, k', t);
      ReadyOutcome(k', es[1..], t);
    }
  }

  /** A wait that blocked returns -1 exactly when its semaphore was closed while the thread was queued on it, and
      otherwise 0. */
  lemma {:induction false} WaitOutcome(k: Kernel, es: seq<Event>, t: Tid, s: SemId)
    requires Inv(k) && LegalRun(k, es) && InsideWait(k, t) && k.tcbs[t].place == Queued(s)
    requires Outcome(k, es, t).Some?
    ensures Outcome(k, es, t).value == if ClosedOn(k, es, t, s) then -1 else 0
    decreases |es|
  {
    hide Inv, Step, Legal, Outcome, ClosedOn;
    OutcomeUnfolds(k, es, t, s);
    var k' := Step(k, es[0]);
    StepKeeps(k, es[0]);
    InsideWaitStep(k, es[0], t);
    QueuedNotReleased(k, t);
    if Kept(k, k', t) {
      KeptInside(k, k', t);
      WaitOutcome(k', es[1..], t, s);
    } else {
      StillInside(k', t);
      ReadyOutcome(k', es[1..], t);
    }
  }

  lemma QueuedNotReleased(k: Kernel, t: Tid)
    requires Inv(k) && InsideWait(k, t) && k.tcbs[t].place.Queued?
    ensures t !in k.log.released
  {
    InsidePlaces(k, Some(k.running), [], t);
  }

  lemma OutcomeUnfolds(k: Kernel, es: seq<Event>, t: Tid, s: SemId)
    requires LegalRun(k, es) && Was(k.tcbs, t, Queued(s)) && Outcome(k, es, t).Some?
    ensures es != [] && Legal(k, es[0]) && LegalRun(Step(k, es[0]), es[1..])
    ensures Step(k, es[0]).running != t ==> Outcome(k, es, t) == Outcome(Step(k, es[0]), es[1..], t)
    ensures ClosedOn(k, es, t, s) <==> es[0] == SemClose(s) || ClosedOn(Step(k, es[0]), es[1..], t, s)
    ensures !Was(Step(k, es[0]).tcbs, t, Queued(s)) ==> !ClosedOn(Step(k, es[0]), es[1..], t, s)
  {
  }

  // ---------------------------------------------------------------- console

  /** In every reachable state: the input buffer holds one character per untaken token and one per woken reader that
      has not yet resumed; what was read is a prefix of what was accepted, and what was sent a prefix of what was
      printed. */
  lemma ConsoleAccounts(es: seq<Event>)
    requires LegalRun(Init(), es)
    ensures var k := Run(Init(), es);
      && GET_SEM in k.sems
      && k.input.size == Max(k.sems[GET_SEM].value, 0) + |Readers(k.ready, k.tcbs)|
      && |k.log.read| <= |k.log.accepted|
      && (forall i :: 0 <= i < |k.log.read| ==> k.log.read[i].1 == k.log.accepted[i])
      && |k.log.sent| <= |k.log.printed| && k.log.sent == k.log.printed[..|k.log.sent|]
  {
    InitInv();
    RunKeeps(Init(), es);
    ConsoleState(Run(Init(), es));
  }

  lemma ConsoleState(k: Kernel)
    requires Inv(k)
    ensures GET_SEM in k.sems && k.input.size == Max(k.sems[GET_SEM].value, 0) + |Readers(k.ready, k.tcbs)|
    ensures |k.log.read| <= |k.log.accepted|
    ensures forall i :: 0 <= i < |k.log.read| ==> k.log.read[i].1 == k.log.accepted[i]
    ensures |k.log.sent| <= |k.log.printed| && k.log.sent == k.log.printed[..|k.log.sent|]
  {
    InvShape(k);
    GetSemGrants(k, Some(k.running));
  }

  /** A reader that is dispatched to finds the buffer non-empty and takes the oldest character accepted but not read. */
  lemma ReaderFindsChar(k: Kernel)
    requires Core(k, None) && Consoles(k, 0) && CanDispatch(k) && k.tcbs[k.ready[0]].cont.InGetchar?
    ensures k.input.size > 0 && |k.log.read| < |k.log.accepted|
    ensures Next(k).log.read == k.log.read + [(k.ready[0], k.log.accepted[|k.log.read|])]
  {
    ReadyPart(k, None, []);
    GetSemGrants(k, None);
    assert k.ready == [k.ready[0]] + k.ready[1..];
    ReadOk(k.input, k.hist[GET_SEM], |Readers(k.ready, k.tcbs)|, k.log, k.ready[0]);
  }

  /** So does a getchar that does not block. */
  lemma TakerFindsChar(k: Kernel)
    requires Inv(k) && Shape(k) && !WouldBlock(k.sems[GET_SEM])
    ensures k.input.size > 0 && |k.log.read| < |k.log.accepted|
    ensures Wait(k, GET_SEM, InGetchar).log.read == k.log.read + [(k.running, k.log.accepted[|k.log.read|])]
  {
    GetSemGrants(k, Some(k.running));
    GetHolds(k.input, k.log.accepted[|k.log.read|..]);
  }
}
