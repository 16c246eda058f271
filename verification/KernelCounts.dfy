/** Whole runs counted from their events: which threads there are, what each semaphore owes whom, what went to and came
    from the console. */
module KernelCounts {
  import opened Wrappers
  import opened Semaphores
  import opened Rings
  import opened KernelSpec
  import opened KernelInvariant
  import opened KernelSteps
  import opened KernelEffects
  import opened KernelTheorems

  // ---------------------------------------------------------------- which threads there are

  predicate Begins(e: Event, t: Tid) {
    e == ThreadCreate(t) || e == PausedThreadCreate(t)
  }

  predicate Ends(k: Kernel, e: Event, t: Tid) {
    e.ThreadExit? && k.running == t
  }

  /** A thread exists after a trap exactly when the trap creates it, or it existed and did not exit. */
  lemma ThreadStep(k: Kernel, e: Event, t: Tid)
    requires Inv(k) && Legal(k, e)
    ensures t in Step(k, e).tcbs <==> Begins(e, t) || (t in k.tcbs && !Ends(k, e, t))
  {
    hide Inv, Step, Quiet, GoesOn;
    StepEffect(k, e);
    var k' := Step(k, e);
    match e
    case ThreadCreate(u) =>
    case PausedThreadCreate(u) =>
    case Putc(c, d) =>
    case _ =>
  }

  /** Whether t exists after the events, told from the events. */
  ghost predicate Exists(k: Kernel, es: seq<Event>, t: Tid, now: bool)
    requires LegalRun(k, es)
    decreases |es|
  {
    if es == [] then now
    else Exists(Step(k, es[0]), es[1..], t, Begins(es[0], t) || (now && !Ends(k, es[0], t)))
  }

  lemma {:induction false} ThreadsOfRun(k: Kernel, es: seq<Event>, t: Tid)
    requires Inv(k) && LegalRun(k, es)
    ensures Inv(Run(k, es)) && (t in Run(k, es).tcbs <==> Exists(k, es, t, t in k.tcbs))
    decreases |es|
  {
    hide Inv, Step, Legal;
    if es != [] {
      StepKeeps(k, es[0]);
      ThreadStep(k, es[0], t);
      ThreadsOfRun(Step(k, es[0]), es[1..], t);
    }
  }

  /** Nowhere in the kernel. */
  ghost predicate Nowhere(k: Kernel, t: Tid) {
    && t !in k.tcbs && t != k.running && t !in k.ready && !OnSomeQueue(k, t) && !Sleeping(k, t)
  }

  lemma {:induction false} NotBegun(k: Kernel, es: seq<Event>, t: Tid)
    requires LegalRun(k, es) && forall i :: 0 <= i < |es| ==> !Begins(es[i], t)
    ensures !Exists(k, es, t, false)
    decreases |es|
  {
    hide Step, Legal;
    if es != [] {
      assert forall i :: 0 <= i < |es| - 1 ==> es[1..][i] == es[i + 1];
      NotBegun(Step(k, es[0]), es[1..], t);
    }
  }

  /** A thread that has exited is nowhere, now and after any further run, until one is created with its identity. */
  lemma ExitedIsGone(k: Kernel, es: seq<Event>)
    requires Inv(k) && Legal(k, ThreadExit) && LegalRun(Step(k, ThreadExit), es)
    requires forall i :: 0 <= i < |es| ==> !Begins(es[i], k.running)
    ensures Nowhere(Run(Step(k, ThreadExit), es), k.running)
  {
    hide Inv, Step, Legal, Run;
    var t, k1 := k.running, Step(k, ThreadExit);
    StepKeeps(k, ThreadExit);
    ThreadStep(k, ThreadExit, t);
    ThreadsOfRun(k1, es, t);
    NotBegun(k1, es, t);
    Located(Run(k1, es), t);
  }

  // ---------------------------------------------------------------- what a semaphore owes whom

  /** The calls on one semaphore since it was opened: the opening value, how many signals, and who waited in which order. */
  datatype Calls = Calls(initial: int, signals: nat, waits: seq<Tid>)

  /** How many of the characters a device offers find room in the input buffer. */
  function Accepts(k: Kernel, d: Device): int {
    Least(|d.rx|, BUFFER_SIZE - (|k.log.accepted| - |k.log.read|))
  }

  /** Characters accepted from the device by one trap. */
  function AcceptedBy(k: Kernel, e: Event): seq<char> {
    match e
    case ConsoleInterrupt(d) => if 0 <= Accepts(k, d) <= |d.rx| then d.rx[..Accepts(k, d)] else []
    case Putc(c, d) => if PrintedBy(k, e) != [] && 0 <= Accepts(k, d) <= |d.rx| then d.rx[..Accepts(k, d)] else []
    case _ => []
  }

  /** Characters printed by one trap: putchar drops its character when the output buffer is full. */
  function PrintedBy(k: Kernel, e: Event): seq<char> {
    if e.Putc? && |k.log.printed| - |k.log.sent| != BUFFER_SIZE then [e.c] else []
  }

  function Call(k: Kernel, e: Event, s: SemId, c: Calls): Calls {
    if e.SemOpen? && e.s == s then Calls(e.val, 0, [])
    else if e == SemWait(s) || (s == GET_SEM && e.Getc?) then c.(waits := c.waits + [k.running])
    else if e == SemSignal(s) then c.(signals := c.signals + 1)
    else if s == GET_SEM then c.(signals := c.signals + |AcceptedBy(k, e)|)
    else c
  }

  ghost function CallsOf(k: Kernel, es: seq<Event>, s: SemId, c: Calls): Calls
    requires LegalRun(k, es)
    decreases |es|
  {
    if es == [] then c else CallsOf(Step(k, es[0]), es[1..], s, Call(k, es[0], s, c))
  }

  /** The value is what the calls add up to. As many of the waits as there have been tokens are over, the earliest ones;
      the others queue in the order of their calls. */
  ghost predicate Accounted(sem: Sem, c: Calls) {
    && c.initial >= 0
    && sem.value == c.initial + c.signals - |c.waits|
    && sem.queue == c.waits[Least(|c.waits|, c.initial + c.signals)..]
  }

  lemma WaitAccounted(sem: Sem, c: Calls, t: Tid)
    requires Accounted(sem, c)
    ensures Accounted(Sem(sem.value - 1, if sem.value > 0 then sem.queue else sem.queue + [t]), c.(waits := c.waits + [t]))
  {
  }

  /** m signals at once. */
  lemma SignalsAccounted(sem: Sem, c: Calls, m: nat)
    requires Accounted(sem, c)
    ensures Accounted(Sem(sem.value + m, sem.queue[Least(m, |sem.queue|)..]), c.(signals := c.signals + m))
  {
  }

  lemma SignalAccounted(sem: Sem, c: Calls)
    requires Accounted(sem, c)
    ensures Accounted(Sem(sem.value + 1, if sem.queue == [] then [] else sem.queue[1..]), c.(signals := c.signals + 1))
  {
    SignalsAccounted(sem, c, 1);
  }

  lemma NewAccounted(val: nat)
    ensures Accounted(Sem(val, []), Calls(val, 0, []))
  {
  }

  lemma DeviceAccounted(k: Kernel, printed: seq<char>, d: Device, k': Kernel, s: SemId, c: Calls)
    requires DeviceServed(k, printed, d, k') && s in k.sems && Accounted(k.sems[s], c)
    ensures 0 <= Accepts(k, d) <= |d.rx|
    ensures s in k'.sems && Accounted(k'.sems[s], if s == GET_SEM then c.(signals := c.signals + Accepts(k, d)) else c)
  {
    hide Accounted, WithReady;
    if s == GET_SEM {
      SignalsAccounted(k.sems[s], c, Accepts(k, d));
    }
  }

  /** A trap other than a device's, for a semaphore that was open before. */
  lemma EventAccounted(k: Kernel, e: Event, s: SemId, c: Calls, k': Kernel)
    requires Legal(k, e) && Effect(k, e, k') && s in k'.sems && !e.Putc? && !e.ConsoleInterrupt?
    requires s in k.sems && Accounted(k.sems[s], c)
    ensures Accounted(k'.sems[s], Call(k, e, s, c))
  {
    hide Quiet, GoesOn, Switched, Accounted, WithReady;
    WaitAccounted(k.sems[s], c, k.running);
    SignalAccounted(k.sems[s], c);
    NotADevice(k, e, s, c);
    hide Call;
  }

  lemma NotADevice(k: Kernel, e: Event, s: SemId, c: Calls)
    requires Legal(k, e) && s in k.sems && !e.Putc? && !e.ConsoleInterrupt?
    ensures Call(k, e, s, c) ==
            if e == SemWait(s) || (s == GET_SEM && e.Getc?) then c.(waits := c.waits + [k.running])
            else if e == SemSignal(s) then c.(signals := c.signals + 1)
            else c
  {
    assert AcceptedBy(k, e) == [] && c.(signals := c.signals + 0) == c;
  }

  lemma OpenAccounted(k: Kernel, e: Event, s: SemId, c: Calls, k': Kernel)
    requires Legal(k, e) && Effect(k, e, k') && s in k'.sems && s !in k.sems && !e.Putc? && !e.ConsoleInterrupt?
    ensures Accounted(k'.sems[s], Call(k, e, s, c))
  {
    hide Quiet, GoesOn, Switched, Accounted, WithReady;
    assert e.SemOpen? && e.s == s;
    NewAccounted(e.val);
  }

  lemma CallAccounted(k: Kernel, e: Event, s: SemId, c: Calls)
    requires Inv(k) && Legal(k, e) && s in Step(k, e).sems
    requires s in k.sems ==> Accounted(k.sems[s], c)
    ensures Accounted(Step(k, e).sems[s], Call(k, e, s, c))
  {
    hide Inv, Step, DeviceServed, Accounted, Accepts, Least;
    var k' := Step(k, e);
    StepEffect(k, e);
    OutputSize(k);
    match e
    case ConsoleInterrupt(d) =>
      DeviceKeepsSems(k, k.log.printed, d, k', s);
      DeviceAccounted(k, k.log.printed, d, k', s, c);
    case Putc(ch, d) =>
      if PrintedBy(k, e) != [] {
        DeviceKeepsSems(k, k.log.printed + [ch], d, k', s);
        DeviceAccounted(k, k.log.printed + [ch], d, k', s, c);
      }
    case _ =>
      if s in k.sems { EventAccounted(k, e, s, c, k'); } else { OpenAccounted(k, e, s, c, k'); }
  }

  lemma DeviceKeepsSems(k: Kernel, printed: seq<char>, d: Device, k': Kernel, s: SemId)
    requires DeviceServed(k, printed, d, k') && s in k'.sems
    ensures s in k.sems
  {
  }

  lemma {:induction false} CallsAccounted(k: Kernel, es: seq<Event>, s: SemId, c: Calls)
    requires Inv(k) && LegalRun(k, es) && s in Run(k, es).sems
    requires s in k.sems ==> Accounted(k.sems[s], c)
    ensures Accounted(Run(k, es).sems[s], CallsOf(k, es, s, c))
    decreases |es|
  {
    hide Inv, Step, Legal, Accounted, Call;
    if es != [] {
      var k1 := Step(k, es[0]);
      StepKeeps(k, es[0]);
      if s in k1.sems {
        CallAccounted(k, es[0], s, c);
      }
      CallsAccounted(k1, es[1..], s, Call(k, es[0], s, c));
    }
  }

  lemma InitSems(s: SemId)
    ensures s in Init().sems ==> Init().sems[s] == Sem(0, [])
    ensures s in Init().hist ==> Init().hist[s] == Hist(0, 0, [], [])
  {
  }

  /** Every open semaphore in every reachable state, by the calls of the run since it was opened. */
  lemma SemaphoreCalls(es: seq<Event>, s: SemId)
    requires LegalRun(Init(), es) && s in Run(Init(), es).sems
    ensures Accounted(Run(Init(), es).sems[s], CallsOf(Init(), es, s, Calls(0, 0, [])))
  {
    hide Init, LegalRun, Run, CallsOf, Inv, Accounted;
    InitInv();
    InitSems(s);
    NewAccounted(0);
    CallsAccounted(Init(), es, s, Calls(0, 0, []));
  }

  // ---------------------------------------------------------------- the histories are the calls

  ghost predicate Follows(h: Hist, c: Calls) {
    h.initial == c.initial && h.signals == c.signals && h.arrivals == c.waits
  }

  lemma DispatchHist(k: Kernel)
    ensures Dispatch(k).hist == k.hist
  {
    if CanDispatch(k) { NextEffect(k); }
  }

  lemma WaitHist(k: Kernel, s: SemId, cont: Cont)
    requires Shape(k) && s in k.sems
    ensures var k' := Wait(k, s, cont);
      && k'.hist.Keys == k.hist.Keys
      && (forall u :: u in k.hist && u != s ==> k'.hist[u] == k.hist[u])
      && k'.hist[s] == k.hist[s].(arrivals := k.hist[s].arrivals + [k.running], granted := k'.hist[s].granted)
  {
    DispatchHist(ParkQueued(k, s, cont));
    hide Dispatch;
  }

  lemma SignalHist(k: Kernel, s: SemId)
    requires Shape(k) && s in k.sems
    ensures var k' := Signal(k, s);
      && k'.hist.Keys == k.hist.Keys
      && (forall u :: u in k.hist && u != s ==> k'.hist[u] == k.hist[u])
      && k'.hist[s] == k.hist[s].(signals := k.hist[s].signals + 1, granted := k'.hist[s].granted)
  {
  }

  /** Only the signals and grants of the semaphore of the input buffer change. */
  ghost predicate OnlyInputSignalled(k: Kernel, k': Kernel) {
    && k'.hist.Keys == k.hist.Keys && GET_SEM in k.hist
    && (forall u :: u in k.hist && u != GET_SEM ==> k'.hist[u] == k.hist[u])
    && k'.hist[GET_SEM] == k.hist[GET_SEM].(signals := k'.hist[GET_SEM].signals, granted := k'.hist[GET_SEM].granted)
  }

  lemma {:induction false} ReceiveHist(k: Kernel, rx: seq<char>)
    requires Inv(k) && Shape(k)
    ensures OnlyInputSignalled(k, ReceiveAll(k, rx))
    decreases |rx|
  {
    if rx != [] {
      var c := rx[0];
      ReceiveKeeps(k, c);
      hide Inv;
      SignalHist(k.(input := RingPut(k.input, c), log := k.log.(accepted := k.log.accepted + [c])), GET_SEM);
      hide Signal;
      ReceiveHist(Receive(k, c), rx[1..]);
    }
  }

  lemma HandleHist(k: Kernel, d: Device)
    requires Inv(k)
    ensures OnlyInputSignalled(k, Handle(k, d))
  {
    TransmitEffect(k, d.txReady);
    TransmitKeeps(k, d.txReady);
    InvShape(Transmit(k, d.txReady));
    hide Inv;
    ReceiveHist(Transmit(k, d.txReady), d.rx);
  }

  lemma InputSignals(k: Kernel)
    requires Inv(k)
    ensures GET_SEM in k.hist && k.hist[GET_SEM].signals == |k.log.accepted|
  {
  }

  lemma DeviceFollows(k: Kernel, printed: seq<char>, d: Device, k': Kernel, s: SemId, c: Calls)
    requires Inv(k) && Inv(k') && OnlyInputSignalled(k, k') && DeviceServed(k, printed, d, k')
    requires s in k.hist && Follows(k.hist[s], c)
    ensures 0 <= Accepts(k, d) <= |d.rx|
    ensures s in k'.hist && Follows(k'.hist[s], if s == GET_SEM then c.(signals := c.signals + Accepts(k, d)) else c)
  {
    InputSignals(k);
    InputSignals(k');
    hide Inv, ReadersServed, WithReady;
  }

  lemma TickHist(k: Kernel)
    requires Inv(k) && Shape(k)
    ensures Tick(k).hist == k.hist
  {
    InvParts(k);
    SliceEnds(k);
    TickedEffect(k);
    TickCases(k);
    hide Core, Consoles, Inv, Ticked, Tick, Dispatch;
    DispatchHist(ParkReady(Ticked(k).(slice := 0)));
  }

  /** Traps that are no calls on a semaphore. */
  predicate Plain(e: Event) {
    || e.ThreadCreate? || e.PausedThreadCreate? || e.Start? || e.ThreadDispatch? || e.ThreadExit? || e.TimeSleep? || e.TimerTick?
  }

  lemma PlainHist(k: Kernel, e: Event)
    requires Inv(k) && Legal(k, e) && Plain(e)
    ensures Step(k, e).hist == k.hist
  {
    hide Inv, Dispatch, Tick, Spawn, StartThread;
    match e
    case ThreadCreate(t) => CreateHist(k, t, false);
    case PausedThreadCreate(t) => CreateHist(k, t, true);
    case Start(t) => StartHist(k, t);
    case ThreadDispatch => DispatchHist(ParkReady(k.(slice := 0)));
    case ThreadExit => DispatchHist(ParkGone(k));
    case TimeSleep(n) => if n > 0 { DispatchHist(ParkAsleep(k.(slice := 0), n)); }
    case TimerTick => TickHist(k);
  }

  /** A trap other than a device's adds what it calls to the history, and nothing else. */
  lemma EventFollows(k: Kernel, e: Event, s: SemId, c: Calls)
    requires Inv(k) && Legal(k, e) && s in Step(k, e).hist && !e.Putc? && !e.ConsoleInterrupt?
    requires s in k.hist ==> Follows(k.hist[s], c)
    ensures Follows(Step(k, e).hist[s], Call(k, e, s, c))
  {
    hide Inv, Dispatch, Wait, Signal, Close, Open;
    if Plain(e) {
      PlainHist(k, e);
      hide Step;
    } else {
      hide PrintedBy, Accepts;
      match e
      case SemOpen(u, val) => OpenHist(k, u, val);
      case SemClose(u) => CloseHist(k, u);
      case SemWait(u) => WaitHist(k, u, InWait);
      case SemSignal(u) => SignalHist(k, u);
      case Getc => WaitHist(k, GET_SEM, InGetchar);
    }
  }

  lemma CreateHist(k: Kernel, t: Tid, paused: bool)
    ensures Spawn(k, t, paused).hist == k.hist
  {
  }

  lemma StartHist(k: Kernel, t: Tid)
    requires t in k.tcbs
    ensures StartThread(k, t).hist == k.hist
  {
  }

  lemma OpenHist(k: Kernel, s: SemId, val: nat)
    requires val < 0x8000_0000
    ensures Open(k, s, val).hist == k.hist[s := Hist(val, 0, [], [])]
  {
  }

  lemma CloseHist(k: Kernel, s: SemId)
    requires s in k.sems
    ensures Close(k, s).hist == k.hist - {s}
  {
  }

  /** What a device's characters add to the calls. */
  lemma DeviceCall(k: Kernel, e: Event, s: SemId, c: Calls, d: Device)
    requires e == ConsoleInterrupt(d) || (e.Putc? && e.d == d && PrintedBy(k, e) != [])
    requires 0 <= Accepts(k, d) <= |d.rx|
    ensures Call(k, e, s, c) == if s == GET_SEM then c.(signals := c.signals + Accepts(k, d)) else c
  {
    hide Accepts;
  }

  lemma InterruptFollows(k: Kernel, d: Device, s: SemId, c: Calls)
    requires var e := ConsoleInterrupt(d); Inv(k) && Legal(k, e) && s in Step(k, e).hist
    requires s in k.hist ==> Follows(k.hist[s], c)
    ensures var e := ConsoleInterrupt(d); Follows(Step(k, e).hist[s], Call(k, e, s, c))
  {
    var e := ConsoleInterrupt(d);
    hide Inv, DeviceServed, OnlyInputSignalled, Follows, Accepts, Call, Handle;
    StepEffect(k, e);
    StepKeeps(k, e);
    HandleHist(k, d);
    HistKeys(k, Step(k, e), s);
    DeviceFollows(k, k.log.printed, d, Step(k, e), s, c);
    DeviceCall(k, e, s, c, d);
  }

  lemma PutcharFollows(k: Kernel, ch: char, d: Device, s: SemId, c: Calls)
    requires var e := Putc(ch, d); Inv(k) && Legal(k, e) && s in Step(k, e).hist
    requires s in k.hist ==> Follows(k.hist[s], c)
    ensures var e := Putc(ch, d); Follows(Step(k, e).hist[s], Call(k, e, s, c))
  {
    var e := Putc(ch, d);
    hide Inv, DeviceServed, OnlyInputSignalled, Follows, Accepts, Call, Putchar;
    StepEffect(k, e);
    StepKeeps(k, e);
    if PrintedBy(k, e) != [] {
      PutcharHist(k, ch, d);
      HistKeys(k, Step(k, e), s);
      DeviceFollows(k, k.log.printed + [ch], d, Step(k, e), s, c);
      DeviceCall(k, e, s, c, d);
    } else {
      NothingCalled(k, e, s, c);
    }
  }

  lemma NothingCalled(k: Kernel, e: Event, s: SemId, c: Calls)
    requires e.Putc? && PrintedBy(k, e) == []
    ensures Call(k, e, s, c) == c
  {
    assert AcceptedBy(k, e) == [];
  }

  lemma CallFollows(k: Kernel, e: Event, s: SemId, c: Calls)
    requires Inv(k) && Legal(k, e) && s in Step(k, e).hist
    requires s in k.hist ==> Follows(k.hist[s], c)
    ensures Follows(Step(k, e).hist[s], Call(k, e, s, c))
  {
    hide Inv, Step, Call, Follows, Legal;
    match e
    case ConsoleInterrupt(d) => InterruptFollows(k, d, s, c);
    case Putc(ch, d) => PutcharFollows(k, ch, d, s, c);
    case _ => EventFollows(k, e, s, c);
  }

  lemma HistKeys(k: Kernel, k': Kernel, s: SemId)
    requires OnlyInputSignalled(k, k') && s in k'.hist
    ensures s in k.hist
  {
  }

  lemma PutcharHist(k: Kernel, c: char, d: Device)
    requires Inv(k) && |k.log.printed| - |k.log.sent| != BUFFER_SIZE
    ensures OnlyInputSignalled(k, Putchar(k, c, d))
  {
    OutputSize(k);
    PrintedKeeps(k, c);
    hide Inv, Handle;
    HandleHist(k.(output := RingPut(k.output, c), log := k.log.(printed := k.log.printed + [c])), d);
  }

  lemma {:induction false} CallsFollow(k: Kernel, es: seq<Event>, s: SemId, c: Calls)
    requires Inv(k) && LegalRun(k, es) && s in Run(k, es).hist
    requires s in k.hist ==> Follows(k.hist[s], c)
    ensures Follows(Run(k, es).hist[s], CallsOf(k, es, s, c))
    decreases |es|
  {
    hide Inv, Step, Legal, Follows, Call;
    if es != [] {
      var k1 := Step(k, es[0]);
      StepKeeps(k, es[0]);
      if s in k1.hist {
        CallFollows(k, es[0], s, c);
      }
      CallsFollow(k1, es[1..], s, Call(k, es[0], s, c));
    }
  }

  /** Every open semaphore in every reachable state: as many waiters as the value is below zero, grants equal the
      lesser of waits begun and tokens ever available, and they went to the earliest waits in order of arrival. The
      waits and signals counted are the calls of the run since the semaphore was opened. */
  lemma SemaphoreCounting(es: seq<Event>, s: SemId)
    requires LegalRun(Init(), es)
    requires s in Run(Init(), es).sems
    ensures s in Run(Init(), es).hist && Counted(Run(Init(), es).sems[s], Run(Init(), es).hist[s])
    ensures Follows(Run(Init(), es).hist[s], CallsOf(Init(), es, s, Calls(0, 0, [])))
  {
    hide Init, LegalRun, Run, CallsOf, Inv, Counted;
    InitInv();
    InitSems(s);
    RunKeeps(Init(), es);
    SemState(Run(Init(), es), s);
    CallsFollow(Init(), es, s, Calls(0, 0, []));
  }

  // ---------------------------------------------------------------- the console

  ghost function PrintedOf(k: Kernel, es: seq<Event>): seq<char>
    requires LegalRun(k, es)
    decreases |es|
  {
    if es == [] then [] else PrintedBy(k, es[0]) + PrintedOf(Step(k, es[0]), es[1..])
  }

  ghost function AcceptedOf(k: Kernel, es: seq<Event>): seq<char>
    requires LegalRun(k, es)
    decreases |es|
  {
    if es == [] then [] else AcceptedBy(k, es[0]) + AcceptedOf(Step(k, es[0]), es[1..])
  }

  lemma ConsoleStep(k: Kernel, e: Event)
    requires Inv(k) && Legal(k, e)
    ensures Step(k, e).log.printed == k.log.printed + PrintedBy(k, e)
    ensures Step(k, e).log.accepted == k.log.accepted + AcceptedBy(k, e)
  {
    hide Inv, Step, Switched, WithReady, ReadersServed;
    StepEffect(k, e);
    assert k.log.printed + [] == k.log.printed && k.log.accepted + [] == k.log.accepted;
  }

  /** What was printed and what was accepted are the characters of the calls and of the device, in order, less those that
      found their buffer full. */
  lemma {:induction false} ConsoleOfRun(k: Kernel, es: seq<Event>)
    requires Inv(k) && LegalRun(k, es)
    ensures Run(k, es).log.printed == k.log.printed + PrintedOf(k, es)
    ensures Run(k, es).log.accepted == k.log.accepted + AcceptedOf(k, es)
    decreases |es|
  {
    hide Inv, Step, Legal, PrintedBy, AcceptedBy;
    if es != [] {
      StepKeeps(k, es[0]);
      ConsoleStep(k, es[0]);
      ConsoleOfRun(Step(k, es[0]), es[1..]);
    }
  }
}
