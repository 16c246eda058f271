/** Every trap keeps the kernel invariant. */
module KernelSteps {
  import opened Wrappers
  import opened Semaphores
  import opened Rings
  import opened KernelSpec
  import opened KernelInvariant

  // ---------------------------------------------------------------- console bookkeeping across primitives

  /** Nothing the console invariant looks at changes. */
  ghost predicate ConsoleSame(k: Kernel, k': Kernel) {
    && k'.input == k.input && k'.output == k.output
    && k'.log.accepted == k.log.accepted && k'.log.read == k.log.read
    && k'.log.printed == k.log.printed && k'.log.sent == k.log.sent
    && GET_SEM in k.hist && GET_SEM in k'.hist
    && k'.hist[GET_SEM].initial == k.hist[GET_SEM].initial && k'.hist[GET_SEM].signals == k.hist[GET_SEM].signals
    && k'.hist[GET_SEM].granted == k.hist[GET_SEM].granted
  }

  lemma ConsolesFrame(k: Kernel, k': Kernel, pending: nat)
    requires Consoles(k, pending) && ConsoleSame(k, k')
    requires |Readers(k'.ready, k'.tcbs)| == |Readers(k.ready, k.tcbs)|
    ensures Consoles(k', pending)
  {
  }

  /** Threads not on the ready queue may change without the readers noticing. */
  lemma ReadersApart(ready: seq<Tid>, tcbs: Tcbs, t: Tid, c: Tcb)
    requires ReadyOk(tcbs, ready) && !Was(tcbs, t, Ready)
    ensures Readers(ready, tcbs[t := c]) == Readers(ready, tcbs)
  {
    ReadersFrame(ready, tcbs, tcbs[t := c]);
  }

  lemma ReadersJoin(ready: seq<Tid>, tcbs: Tcbs, t: Tid, c: Tcb)
    requires ReadyOk(tcbs, ready) && !Was(tcbs, t, Ready)
    ensures |Readers(ready + [t], tcbs[t := c])| == |Readers(ready, tcbs)| + if c.cont.InGetchar? then 1 else 0
  {
    ReadersApart(ready, tcbs, t, c);
    ReadersAppend(ready, t, tcbs[t := c]);
  }

  lemma ReadersLeave(ready: seq<Tid>, tcbs: Tcbs, c: Tcb)
    requires ReadyOk(tcbs, ready) && ready != [] && ready[0] in tcbs
    ensures |Readers(ready, tcbs)| ==
            |Readers(ready[1..], tcbs[ready[0] := c])| + if tcbs[ready[0]].cont.InGetchar? then 1 else 0
  {
    assert ready == [ready[0]] + ready[1..];
    ReadersFrame(ready[1..], tcbs, tcbs[ready[0] := c]);
  }

  lemma ReadyPart(k: Kernel, r: Option<Tid>, waking: seq<Tid>)
    requires Waking(k, r, waking)
    ensures ReadyOk(k.tcbs, k.ready) && k.sems.Keys == k.hist.Keys
  {
  }

  /** Grants never outnumber opening value plus signals, and fall short of them only by the value left. */
  lemma GrantBound(s: Sem, h: Hist)
    requires Balanced(s) && HistOf(s, h)
    ensures |h.granted| == h.initial + h.signals - Available(s)
  {
  }

  lemma GetSemGrants(k: Kernel, r: Option<Tid>)
    requires Core(k, r) && GET_SEM in k.sems && GET_SEM in k.hist
    ensures Balanced(k.sems[GET_SEM])
    ensures |k.hist[GET_SEM].granted| == k.hist[GET_SEM].initial + k.hist[GET_SEM].signals - Available(k.sems[GET_SEM])
  {
    SemParts(k.tcbs, k.sems, GET_SEM);
    GrantBound(k.sems[GET_SEM], k.hist[GET_SEM]);
  }

  // ---------------------------------------------------------------- dispatch

  /** A thread leaves the processor for a place other than a finished one. */
  lemma ParkConsoles(k: Kernel, k': Kernel, c: Tcb)
    requires Core(k, Some(k.running)) && k.running in k.tcbs && Consoles(k, 0) && ConsoleSame(k, k')
    requires k'.tcbs == k.tcbs[k.running := c]
    requires k'.ready == k.ready || (k'.ready == k.ready + [k.running] && c.cont.User?)
    ensures Consoles(k', 0)
  {
    CoreParts(k, Some(k.running), []);
    ReadersApart(k.ready, k.tcbs, k.running, c);
    ReadersJoin(k.ready, k.tcbs, k.running, c);
    hide Readers, InputOk, OutputOk;
    ConsolesFrame(k, k', 0);
  }

  lemma GoneConsoles(k: Kernel)
    requires Core(k, Some(k.running)) && Consoles(k, 0)
    ensures Consoles(ParkGone(k), 0)
  {
    CoreParts(k, Some(k.running), []);
    ReadyPart(k, Some(k.running), []);
    ReadersFrame(k.ready, k.tcbs, k.tcbs - {k.running});
    ConsolesFrame(k, ParkGone(k), 0);
  }

  /** A reader that resumes finds its character: getchar never underflows. */
  lemma ReadOk(input: Ring, h: Hist, readers: nat, log: Log, t: Tid)
    requires InputOk(input, h, readers, log, 0) && |log.read| < |log.accepted| && readers > 0
    ensures InputOk(RingGet(input), h, readers - 1, log.(read := log.read + [(t, RingFirst(input))]), 0)
    ensures RingFirst(input) == log.accepted[|log.read|]
  {
    GetHolds(input, log.accepted[|log.read|..]);
    assert log.accepted[|log.read|..][1..] == log.accepted[|log.read| + 1..];
  }

  lemma NextConsoles(k: Kernel)
    requires Core(k, None) && CanDispatch(k) && Consoles(k, 0) && GET_SEM in k.sems
    ensures Consoles(Next(k), 0)
  {
    GetSemGrants(k, None);
    ReadyPart(k, None, []);
    var t, k' := k.ready[0], Next(k);
    var c := k'.tcbs[t];
    assert k'.tcbs == k.tcbs[t := c];
    ReadersLeave(k.ready, k.tcbs, c);
    if k.tcbs[t].cont.InGetchar? {
      ReadOk(k.input, k.hist[GET_SEM], |Readers(k.ready, k.tcbs)|, k.log, t);
    } else {
      ConsolesFrame(k, k', 0);
    }
  }

  /** After parking the running thread, a dispatch restores the whole invariant. */
  lemma DispatchKeeps(k: Kernel)
    requires Core(k, None) && Consoles(k, 0) && k.slice < TIME_SLICE
    ensures Inv(Dispatch(k)) && CanDispatch(k)
  {
    ReadyPart(k, None, []);
    NeverNull(k);
    NextKeeps(k);
    NextEffect(k);
    NextConsoles(k);
  }

  lemma InvShape(k: Kernel)
    requires Inv(k)
    ensures Shape(k)
  {
    ReadyPart(k, Some(k.running), []);
    CoreParts(k, Some(k.running), []);
  }

  /** Timer preemption and thread_dispatch. */
  lemma YieldKeeps(k: Kernel)
    requires Core(k, Some(k.running)) && Consoles(k, 0) && k.running in k.tcbs && k.slice < TIME_SLICE
    ensures Inv(Dispatch(ParkReady(k))) && CanDispatch(ParkReady(k))
  {
    hide Core, Consoles, Dispatch;
    ParkReadyKeeps(k);
    RunningUser(k);
    GetInHist(k);
    ParkConsoles(k, ParkReady(k), k.tcbs[k.running].(place := Ready));
    DispatchKeeps(ParkReady(k));
  }

  lemma GetInHist(k: Kernel)
    requires Consoles(k, 0)
    ensures GET_SEM in k.hist
  {
  }

  lemma RunningUser(k: Kernel)
    requires Core(k, Some(k.running))
    ensures k.running in k.tcbs && k.tcbs[k.running].cont.User?
  {
    ThreadOk(k, Some(k.running), [], k.running);
  }

  lemma ExitKeeps(k: Kernel)
    requires Inv(k) && k.running != IDLE
    ensures Inv(Dispatch(ParkGone(k)))
  {
    ParkGoneKeeps(k);
    GoneConsoles(k);
    DispatchKeeps(ParkGone(k));
  }

  lemma SleepKeeps(k: Kernel, n: int)
    requires Inv(k) && k.running != IDLE && n > 0 && k.running in k.tcbs
    ensures Inv(Dispatch(ParkAsleep(k, n)))
  {
    hide Core, Consoles, Dispatch;
    GetInHist(k);
    ParkAsleepKeeps(k, n);
    ParkConsoles(k, ParkAsleep(k, n), k.tcbs[k.running].(blocked := true, place := Asleep));
    DispatchKeeps(ParkAsleep(k, n));
  }

  lemma BlockKeeps(k: Kernel, s: SemId, cont: Cont)
    requires Inv(k) && Shape(k) && k.running != IDLE && s in k.sems && WouldBlock(k.sems[s])
    requires cont == if s == GET_SEM then InGetchar else InWait
    ensures Inv(Dispatch(ParkQueued(k, s, cont)))
  {
    hide Core, Consoles, Dispatch;
    GetInHist(k);
    ParkQueuedKeeps(k, s, cont);
    ParkConsoles(k, ParkQueued(k, s, cont), k.tcbs[k.running].(blocked := true, cont := cont, place := Queued(s)));
    DispatchKeeps(ParkQueued(k, s, cont));
  }

  // ---------------------------------------------------------------- waits that do not block

  lemma TakeKeeps(k: Kernel, s: SemId)
    requires Core(k, Some(k.running)) && s in k.sems && s in k.hist && !WouldBlock(k.sems[s])
    ensures Core(Taken(k, s), Some(k.running))
  {
    SemParts(k.tcbs, k.sems, s);
    HistParts(k.sems, k.hist, s);
    hide RunOk, ReadyOk, SemsOk, SleepOk, FlagsOk, IdleOk, HistOk, TimesOk;
    var h, t := k.hist[s], k.running;
    assert k.sems[s].queue == [];
    SemsCount(k.tcbs, k.sems, s, WaitOn(k.sems[s], t));
    HistMove(k.sems, k.hist, s, WaitOn(k.sems[s], t), h.(arrivals := h.arrivals + [t], granted := h.granted + [t]));
  }

  /** A getchar that finds a token finds a character too. */
  lemma TakeCharConsoles(k: Kernel)
    requires Inv(k) && Shape(k) && !WouldBlock(k.sems[GET_SEM])
    ensures Consoles(ReadChar(Taken(k, GET_SEM), k.running), 0)
  {
    GetSemGrants(k, Some(k.running));
    var q, n := k.log.accepted, |k.log.read|;
    GetHolds(k.input, q[n..]);
    assert q[n..][1..] == q[n + 1..];
  }

  lemma WaitKeepsInv(k: Kernel, s: SemId, cont: Cont)
    requires Inv(k) && Shape(k) && k.running != IDLE && s in k.sems
    requires cont == if s == GET_SEM then InGetchar else InWait
    ensures Inv(Wait(k, s, cont))
  {
    if WouldBlock(k.sems[s]) {
      BlockKeeps(k, s, cont);
    } else {
      var k1 := Taken(k, s);
      TakeKeeps(k, s);
      if s == GET_SEM {
        TakeCharConsoles(k);
        ReadCharCore(k1, Some(k.running), k.running);
      } else {
        ConsolesFrame(k, k1, 0);
      }
    }
  }

  lemma ReadCharCore(k: Kernel, r: Option<Tid>, t: Tid)
    requires Core(k, r)
    ensures Core(ReadChar(k, t), r)
  {
  }

  // ---------------------------------------------------------------- signals

  lemma SignalOther(k: Kernel, s: SemId, r: Option<Tid>)
    requires Core(k, r) && Consoles(k, 0) && Shape(k) && s in k.sems && s != GET_SEM
    ensures Consoles(Signal(k, s), 0)
  {
    match Woken(k.sems[s])
    case None =>
      SignalEffectNone(k, s);
      ConsolesFrame(k, Signal(k, s), 0);
    case Some(t) =>
      SignalWakes(k, s, r, t);
      SignalEffectSome(k, s, t);
      ThreadOk(k, r, [], t);
      ReadersJoin(k.ready, k.tcbs, t, k.tcbs[t].(blocked := false, place := Ready));
      ConsolesFrame(k, Signal(k, s), 0);
  }

  /** The signal that follows an accepted character: a woken reader is one more ready reader and one more grant. */
  lemma SignalInput(k: Kernel, r: Option<Tid>)
    requires Core(k, r) && Consoles(k, 1) && Shape(k)
    ensures Consoles(Signal(k, GET_SEM), 0)
  {
    match Woken(k.sems[GET_SEM])
    case None =>
      SignalEffectNone(k, GET_SEM);
    case Some(t) =>
      SignalWakes(k, GET_SEM, r, t);
      SignalEffectSome(k, GET_SEM, t);
      ThreadOk(k, r, [], t);
      ReadersJoin(k.ready, k.tcbs, t, k.tcbs[t].(blocked := false, place := Ready));
  }

  lemma SignalKeepsInv(k: Kernel, s: SemId)
    requires Inv(k) && Shape(k) && s in k.sems && s != GET_SEM
    ensures Inv(Signal(k, s))
  {
    hide Core, Consoles, Signal;
    SignalKeeps(k, s, Some(k.running));
    SignalOther(k, s, Some(k.running));
  }

  // ---------------------------------------------------------------- console traffic

  lemma ReceiveKeeps(k: Kernel, c: char)
    requires Inv(k) && Shape(k)
    ensures Inv(Receive(k, c)) && Shape(Receive(k, c))
  {
    if k.input.size < BUFFER_SIZE {
      var k1 := k.(input := RingPut(k.input, c), log := k.log.(accepted := k.log.accepted + [c]));
      var q, n := k.log.accepted, |k.log.read|;
      PutHolds(k.input, q[n..], c);
      assert (q + [c])[n..] == q[n..] + [c];
      assert Consoles(k1, 1);
      assert Core(k1, Some(k.running));
      SignalKeeps(k1, GET_SEM, Some(k.running));
      SignalInput(k1, Some(k.running));
      hide Core, Consoles, Signal;
      InvShape(Receive(k, c));
    }
  }

  lemma {:induction false} ReceiveAllKeeps(k: Kernel, rx: seq<char>)
    requires Inv(k) && Shape(k)
    ensures Inv(ReceiveAll(k, rx))
    decreases |rx|
  {
    hide Inv, Receive;
    if rx != [] {
      ReceiveKeeps(k, rx[0]);
      ReceiveAllKeeps(Receive(k, rx[0]), rx[1..]);
    }
  }

  /** Characters leave for the device in the order they were printed. */
  lemma SendOk(output: Ring, log: Log)
    requires OutputOk(output, log) && output.size != 0
    ensures OutputOk(RingGet(output), log.(sent := log.sent + [RingFirst(output)]))
  {
    var q, n := log.printed, |log.sent|;
    GetHolds(output, q[n..]);
    assert q[n..][1..] == q[n + 1..];
  }

  /** Buffers, slices and counters play no part in the core of the invariant. */
  lemma CoreFrame(k: Kernel, k': Kernel, r: Option<Tid>)
    requires Core(k, r)
    requires k'.tcbs == k.tcbs && k'.ready == k.ready && k'.sems == k.sems && k'.sleepers == k.sleepers
    requires k'.hist == k.hist && k'.log.released == k.log.released
    ensures Core(k', r)
  {
  }

  function SendOne(k: Kernel): Kernel {
    k.(output := RingGet(k.output), log := k.log.(sent := k.log.sent + [RingFirst(k.output)]))
  }

  lemma SendOneKeeps(k: Kernel)
    requires Inv(k) && k.output.size != 0
    ensures Inv(SendOne(k))
  {
    CoreFrame(k, SendOne(k), Some(k.running));
    SendOk(k.output, k.log);
    hide Core, Readers, RingHolds, RingGet, RingFirst;
  }

  lemma {:induction false} TransmitKeeps(k: Kernel, n: nat)
    requires Inv(k)
    ensures Inv(Transmit(k, n))
    decreases n
  {
    hide Inv;
    if n > 0 && k.output.size != 0 {
      SendOneKeeps(k);
      TransmitKeeps(SendOne(k), n - 1);
    }
  }

  lemma HandleKeeps(k: Kernel, d: Device)
    requires Inv(k)
    ensures Inv(Handle(k, d))
  {
    hide Inv;
    TransmitKeeps(k, d.txReady);
    InvShape(Transmit(k, d.txReady));
    ReceiveAllKeeps(Transmit(k, d.txReady), d.rx);
  }

  lemma PrintedKeeps(k: Kernel, c: char)
    requires Inv(k) && k.output.size != BUFFER_SIZE
    ensures Inv(k.(output := RingPut(k.output, c), log := k.log.(printed := k.log.printed + [c])))
  {
    var k1 := k.(output := RingPut(k.output, c), log := k.log.(printed := k.log.printed + [c]));
    var q, n := k.log.printed, |k.log.sent|;
    CoreFrame(k, k1, Some(k.running));
    PutHolds(k.output, q[n..], c);
    assert (q + [c])[n..] == q[n..] + [c];
    hide Core, Readers, RingHolds, RingPut;
  }

  lemma PutcharKeeps(k: Kernel, c: char, d: Device)
    requires Inv(k)
    ensures Inv(Putchar(k, c, d))
  {
    hide Inv;
    if k.output.size != BUFFER_SIZE {
      PrintedKeeps(k, c);
      HandleKeeps(k.(output := RingPut(k.output, c), log := k.log.(printed := k.log.printed + [c])), d);
    }
  }

  // ---------------------------------------------------------------- timer

  lemma WakeConsoles(k: Kernel, r: Option<Tid>, waking: seq<Tid>)
    requires Waking(k, r, waking) && waking != [] && Consoles(k, 0)
    ensures Consoles(MakeReady(k, waking[0]), 0)
  {
    var t := waking[0];
    WakeKeeps(k, r, waking);
    ThreadOk(k, r, waking, t);
    ReadersJoin(k.ready, k.tcbs, t, k.tcbs[t].(blocked := false, place := Ready));
    ConsolesFrame(k, MakeReady(k, t), 0);
  }

  lemma {:induction false} WakeAllConsoles(k: Kernel, r: Option<Tid>, waking: seq<Tid>)
    requires Waking(k, r, waking) && Consoles(k, 0)
    ensures Consoles(MakeAllReady(k, waking), 0)
    decreases |waking|
  {
    hide Waking, Consoles, MakeReady;
    if waking != [] {
      WakeConsoles(k, r, waking);
      WakeKeeps(k, r, waking);
      WakeAllConsoles(MakeReady(k, waking[0]), r, waking[1..]);
    }
  }

  lemma UpdateTimeConsoles(k: Kernel, r: Option<Tid>)
    requires Core(k, r) && Consoles(k, 0)
    ensures Consoles(UpdateTime(k), 0)
  {
    UpdateTimeWaking(k, r);
    var k1 := k.(sleepers := Remaining(k.sleepers));
    ConsolesFrame(k, k1, 0);
    WakeAllConsoles(k1, r, Expired(k.sleepers));
  }

  function Ticked(k: Kernel): Kernel {
    UpdateTime(k.(slice := k.slice + 1, log := k.log.(ticks := k.log.ticks + 1)))
  }

  lemma TickedKeeps(k: Kernel)
    requires Core(k, Some(k.running)) && Consoles(k, 0)
    ensures Core(Ticked(k), Some(k.running)) && Consoles(Ticked(k), 0)
    ensures Ticked(k).running == k.running && Ticked(k).slice == k.slice + 1 && k.running in Ticked(k).tcbs
  {
    hide UpdateTime, Core, Consoles;
    var k0 := k.(slice := k.slice + 1, log := k.log.(ticks := k.log.ticks + 1));
    CoreFrame(k, k0, Some(k.running));
    CountersConsoles(k, k0);
    UpdateTimeKeeps(k0, Some(k.running));
    UpdateTimeConsoles(k0, Some(k.running));
    RunningUser(Ticked(k));
  }

  lemma TickCases(k: Kernel)
    requires k.running in k.tcbs && k.running in Ticked(k).tcbs && Ticked(k).running == k.running
    ensures Tick(k) == if Ticked(k).slice >= TIME_SLICE then Dispatch(ParkReady(Ticked(k).(slice := 0))) else Ticked(k)
  {
    hide UpdateTime, Dispatch, ParkReady;
  }

  /** A tick that ends the slice: the state behind the reset of the slice is in order. */
  lemma SliceEnds(k: Kernel)
    requires Inv(k)
    ensures Core(Ticked(k), Some(k.running)) && Consoles(Ticked(k), 0)
    ensures Ticked(k).running == k.running && Ticked(k).slice == k.slice + 1 && k.running in Ticked(k).tcbs
    ensures Core(Ticked(k).(slice := 0), Some(k.running)) && Consoles(Ticked(k).(slice := 0), 0)
  {
    hide Core, Consoles, UpdateTime, Ticked;
    InvParts(k);
    TickedKeeps(k);
    CoreFrame(Ticked(k), Ticked(k).(slice := 0), Some(k.running));
    CountersConsoles(Ticked(k), Ticked(k).(slice := 0));
  }

  lemma TickKeeps(k: Kernel)
    requires Inv(k) && k.running in k.tcbs
    ensures Inv(Tick(k))
  {
    hide Core, Consoles, Dispatch, ParkReady, Tick, Ticked, UpdateTime;
    InvParts(k);
    SliceEnds(k);
    TickCases(k);
    if Ticked(k).slice >= TIME_SLICE {
      YieldKeeps(Ticked(k).(slice := 0));
    }
  }

  lemma CountersConsoles(k: Kernel, k': Kernel)
    requires Consoles(k, 0) && k' == k.(slice := k'.slice, log := k.log.(ticks := k'.log.ticks))
    ensures Consoles(k', 0)
  {
  }

  // ---------------------------------------------------------------- every trap

  lemma SpawnKeepsInv(k: Kernel, t: Tid, paused: bool)
    requires Inv(k) && t !in k.tcbs
    ensures Inv(Spawn(k, t, paused))
  {
    SpawnKeeps(k, t, paused);
    ReadyPart(k, Some(k.running), []);
    var c := Tcb(false, false, paused, User, if paused then Paused else Ready);
    ReadersApart(k.ready, k.tcbs, t, c);
    ReadersJoin(k.ready, k.tcbs, t, c);
    ConsolesFrame(k, Spawn(k, t, paused), 0);
  }

  lemma StartKeepsInv(k: Kernel, t: Tid)
    requires Inv(k) && t in k.tcbs && k.tcbs[t].bornPaused
    ensures Inv(StartThread(k, t))
  {
    StartKeeps(k, t);
    ReadyPart(k, Some(k.running), []);
    ThreadOk(k, Some(k.running), [], t);
    if !k.tcbs[t].started {
      ReadersJoin(k.ready, k.tcbs, t, k.tcbs[t].(started := true, place := Ready));
      ConsolesFrame(k, StartThread(k, t), 0);
    }
  }

  lemma OpenKeepsInv(k: Kernel, s: SemId, val: nat)
    requires Inv(k) && s !in k.sems && val < 0x8000_0000
    ensures Inv(Open(k, s, val))
  {
    OpenKeeps(k, s, val);
    ReadyPart(k, Some(k.running), []);
    ConsolesFrame(k, Open(k, s, val), 0);
  }

  lemma {:induction false} ReadersAppendNone(ready: seq<Tid>, q: seq<Tid>, tcbs: Tcbs)
    requires forall t :: t in q ==> t in tcbs && !tcbs[t].cont.InGetchar?
    ensures Readers(ready + q, tcbs) == Readers(ready, tcbs)
    decreases |q|
  {
    if q == [] {
      assert ready + q == ready;
    } else {
      assert ready + q == (ready + [q[0]]) + q[1..];
      ReadersAppend(ready, q[0], tcbs);
      ReadersAppendNone(ready + [q[0]], q[1..], tcbs);
    }
  }

  lemma CloseReaders(k: Kernel, s: SemId, r: Option<Tid>)
    requires Core(k, r) && s in k.sems && s != GET_SEM
    ensures Readers(Close(k, s).ready, Close(k, s).tcbs) == Readers(k.ready, k.tcbs)
  {
    SemParts(k.tcbs, k.sems, s);
    ReadyPart(k, r, []);
    var q, tcbs' := k.sems[s].queue, Close(k, s).tcbs;
    forall t | t in q
      ensures t in tcbs' && !tcbs'[t].cont.InGetchar?
    {
      ThreadOk(k, r, [], t);
    }
    ReadersAppendNone(k.ready, q, tcbs');
    ReadersFrame(k.ready, k.tcbs, tcbs');
  }

  lemma CloseKeepsInv(k: Kernel, s: SemId)
    requires Inv(k) && s in k.sems && s != GET_SEM
    ensures Inv(Close(k, s))
  {
    CloseKeeps(k, s);
    CloseReaders(k, s, Some(k.running));
    ConsolesFrame(k, Close(k, s), 0);
  }

  lemma SliceKeeps(k: Kernel)
    requires Inv(k)
    ensures Inv(k.(slice := 0))
  {
  }

  /** Every trap of every thread keeps the invariant. */
  lemma StepKeeps(k: Kernel, e: Event)
    requires Inv(k) && Legal(k, e)
    ensures Inv(Step(k, e))
  {
    hide Inv;
    SliceKeeps(k);
    match e
    case ThreadCreate(t) => SpawnKeepsInv(k, t, false);
    case PausedThreadCreate(t) => SpawnKeepsInv(k, t, true);
    case Start(t) => StartKeepsInv(k, t);
    case ThreadDispatch => InvParts(k.(slice := 0)); YieldKeeps(k.(slice := 0));
    case ThreadExit => ExitKeeps(k);
    case SemOpen(s, val) => OpenKeepsInv(k, s, val);
    case SemClose(s) => CloseKeepsInv(k, s);
    case SemWait(s) => WaitKeepsInv(k, s, InWait);
    case SemSignal(s) => SignalKeepsInv(k, s);
    case TimeSleep(n) => if n > 0 { SleepKeeps(k.(slice := 0), n); }
    case Getc => WaitKeepsInv(k, GET_SEM, InGetchar);
    case Putc(c, d) => PutcharKeeps(k, c, d);
    case TimerTick => TickKeeps(k);
    case ConsoleInterrupt(d) => HandleKeeps(k, d);
  }

  lemma InvParts(k: Kernel)
    requires Inv(k)
    ensures Core(k, Some(k.running)) && Consoles(k, 0) && k.slice < TIME_SLICE
  {
  }
}
