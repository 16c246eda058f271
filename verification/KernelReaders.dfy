/** Which reader gets which character: readers take theirs in the order their tokens were granted, unless a getchar that
    does not block overtakes a reader that was woken but has not resumed. */
module KernelReaders {
  import opened Wrappers
  import opened Semaphores
  import opened Rings
  import opened KernelSpec
  import opened KernelInvariant
  import opened KernelSteps
  import opened KernelTheorems
  import opened KernelSchedule

  /** The threads that have taken a character, in order. */
  function Takers(read: seq<(Tid, char)>): seq<Tid> {
    seq(|read|, i requires 0 <= i < |read| => read[i].0)
  }

  function Granted(k: Kernel): seq<Tid> {
    if GET_SEM in k.hist then k.hist[GET_SEM].granted else []
  }

  /** Those who took a character, followed by the woken readers in ready order, are those who were granted one. */
  ghost predicate InLine(k: Kernel) {
    Granted(k) == Takers(k.log.read) + Readers(k.ready, k.tcbs)
  }

  /** Somebody took a character whose token was granted to somebody else. */
  ghost predicate OutOfTurn(k: Kernel) {
    exists i :: 0 <= i < |k.log.read| && i < |Granted(k)| && k.log.read[i].0 != Granted(k)[i]
  }

  /** What was granted and read stays so. */
  ghost predicate Extends(k: Kernel, k': Kernel) {
    Granted(k) <= Granted(k') && k.log.read <= k'.log.read
  }

  ghost predicate LineKept(k: Kernel, k': Kernel) {
    Extends(k, k') && (InLine(k) ==> InLine(k'))
  }

  lemma ExtendsOutOfTurn(k: Kernel, k': Kernel)
    requires Extends(k, k') && OutOfTurn(k)
    ensures OutOfTurn(k')
  {
    var i :| 0 <= i < |k.log.read| && i < |Granted(k)| && k.log.read[i].0 != Granted(k)[i];
    assert k'.log.read[i] == k.log.read[i] && Granted(k')[i] == Granted(k)[i];
  }

  /** Nothing this law looks at changes. */
  lemma SameLine(k: Kernel, k': Kernel)
    requires k'.log.read == k.log.read && Granted(k') == Granted(k)
    requires Readers(k'.ready, k'.tcbs) == Readers(k.ready, k.tcbs)
    ensures LineKept(k, k')
  {
  }

  lemma TakersAppend(read: seq<(Tid, char)>, t: Tid, c: char)
    ensures Takers(read + [(t, c)]) == Takers(read) + [t]
  {
  }

  // ---------------------------------------------------------------- readers

  lemma ReadersJoined(ready: seq<Tid>, tcbs: Tcbs, t: Tid, c: Tcb)
    requires ReadyOk(tcbs, ready) && !Was(tcbs, t, Ready)
    ensures Readers(ready + [t], tcbs[t := c]) == Readers(ready, tcbs) + if c.cont.InGetchar? then [t] else []
  {
    ReadersApart(ready, tcbs, t, c);
    ReadersAppend(ready, t, tcbs[t := c]);
  }

  lemma ReadersLeft(ready: seq<Tid>, tcbs: Tcbs, c: Tcb)
    requires ReadyOk(tcbs, ready) && ready != [] && ready[0] in tcbs
    ensures Readers(ready, tcbs) ==
            (if tcbs[ready[0]].cont.InGetchar? then [ready[0]] else []) + Readers(ready[1..], tcbs[ready[0] := c])
  {
    assert ready == [ready[0]] + ready[1..];
    ReadersFrame(ready[1..], tcbs, tcbs[ready[0] := c]);
  }

  lemma {:induction false} ReadersReady(ready: seq<Tid>, tcbs: Tcbs)
    ensures forall t :: t in Readers(ready, tcbs) ==> t in ready
    decreases |ready|
  {
    if ready != [] {
      ReadersReady(ready[1..], tcbs);
      assert ready == [ready[0]] + ready[1..];
    }
  }

  // ---------------------------------------------------------------- dispatch

  lemma ParkLine(k: Kernel, k': Kernel, c: Tcb)
    requires Core(k, Some(k.running)) && k.running in k.tcbs && k'.log.read == k.log.read && Granted(k') == Granted(k)
    requires k'.tcbs == k.tcbs[k.running := c]
    requires k'.ready == k.ready || (k'.ready == k.ready + [k.running] && c.cont.User?)
    ensures LineKept(k, k')
  {
    CoreParts(k, Some(k.running), []);
    ReadyPart(k, Some(k.running), []);
    hide Core, Readers;
    ReadersApart(k.ready, k.tcbs, k.running, c);
    ReadersJoined(k.ready, k.tcbs, k.running, c);
    assert Readers(k.ready, k.tcbs) + [] == Readers(k.ready, k.tcbs);
    SameLine(k, k');
  }

  lemma GoneLine(k: Kernel)
    requires Core(k, Some(k.running))
    ensures LineKept(k, ParkGone(k))
  {
    CoreParts(k, Some(k.running), []);
    ReadyPart(k, Some(k.running), []);
    hide Core, Readers;
    ReadersFrame(k.ready, k.tcbs, k.tcbs - {k.running});
    SameLine(k, ParkGone(k));
  }

  /** The reader that a dispatch resumes is the first of the woken ones. */
  lemma NextLine(k: Kernel)
    requires Core(k, None) && CanDispatch(k)
    ensures LineKept(k, Next(k))
  {
    ReadyPart(k, None, []);
    NextEffect(k);
    NextGrants(k);
    hide Core, Readers, Next, Granted, ReadyOk;
    var t, k' := k.ready[0], Next(k);
    ReadersLeft(k.ready, k.tcbs, k'.tcbs[t]);
    ResumedLine(k, k', t, RingFirst(k.input), k.tcbs[t].cont.InGetchar?);
  }

  lemma NextGrants(k: Kernel)
    requires CanDispatch(k)
    ensures Granted(Next(k)) == Granted(k)
    ensures Next(k).log.read == k.log.read + if k.tcbs[k.ready[0]].cont.InGetchar? then [(k.ready[0], RingFirst(k.input))] else []
  {
  }

  lemma ResumedLine(k: Kernel, k': Kernel, t: Tid, c: char, reader: bool)
    requires Granted(k') == Granted(k) && k'.log.read == k.log.read + if reader then [(t, c)] else []
    requires Readers(k.ready, k.tcbs) == (if reader then [t] else []) + Readers(k'.ready, k'.tcbs)
    ensures LineKept(k, k')
  {
    hide Readers, Granted;
    TakersAppend(k.log.read, t, c);
    var a, b := Takers(k.log.read), Readers(k'.ready, k'.tcbs);
    assert a + ([t] + b) == (a + [t]) + b;
    assert [] + b == b && k.log.read + [] == k.log.read;
  }

  lemma DispatchLine(k: Kernel, p: Kernel)
    requires Core(p, None) && LineKept(k, p)
    ensures LineKept(k, Dispatch(p))
  {
    NeverNull(p);
    NextLine(p);
    hide Core, InLine, Next, Granted;
  }

  lemma YieldLine(k: Kernel, k1: Kernel)
    requires Core(k1, Some(k1.running)) && k1.running in k1.tcbs && LineKept(k, k1)
    ensures LineKept(k, Dispatch(ParkReady(k1)))
  {
    hide Core, InLine, Dispatch, Granted;
    ParkReadyKeeps(k1);
    RunningUser(k1);
    ParkedSame(k1);
    ParkLine(k1, ParkReady(k1), k1.tcbs[k1.running].(place := Ready));
    DispatchLine(k, ParkReady(k1));
  }

  lemma ParkedSame(k: Kernel)
    requires k.running in k.tcbs
    ensures ParkReady(k).log == k.log && Granted(ParkReady(k)) == Granted(k)
  {
  }

  // ---------------------------------------------------------------- semaphores

  lemma SignalLine(k: Kernel, s: SemId, r: Option<Tid>)
    requires Core(k, r) && Shape(k) && s in k.sems
    ensures LineKept(k, Signal(k, s))
  {
    hide Core, Readers, Signal, LineKept;
    match Woken(k.sems[s])
    case None => CountLine(k, s);
    case Some(t) => WokenLine(k, s, r, t);
  }

  lemma CountLine(k: Kernel, s: SemId)
    requires Shape(k) && s in k.sems && Woken(k.sems[s]).None?
    ensures LineKept(k, Signal(k, s))
  {
    SignalEffectNone(k, s);
    hide Readers, Signal;
    SameLine(k, Signal(k, s));
  }

  lemma WokenLine(k: Kernel, s: SemId, r: Option<Tid>, t: Tid)
    requires Core(k, r) && Shape(k) && s in k.sems && Woken(k.sems[s]) == Some(t)
    ensures LineKept(k, Signal(k, s))
  {
    hide Readers, Signal, ReadyOk, SignalOn, LineKept, Core, Shape, Woken;
    WokenWas(k, s, r, t);
    WokenQueue(k, s, t);
    ReadersJoined(k.ready, k.tcbs, t, k.tcbs[t].(blocked := false, place := Ready));
    GrantedLine(k, Signal(k, s), t, s == GET_SEM);
  }

  lemma WokenWas(k: Kernel, s: SemId, r: Option<Tid>, t: Tid)
    requires Core(k, r) && Shape(k) && s in k.sems && Woken(k.sems[s]) == Some(t)
    ensures Was(k.tcbs, t, Queued(s)) && (k.tcbs[t].cont.InGetchar? <==> s == GET_SEM) && ReadyOk(k.tcbs, k.ready)
  {
    SignalWakes(k, s, r, t);
    ThreadOk(k, r, [], t);
    ReadyPart(k, r, []);
    hide Core, Signal;
  }

  lemma WokenQueue(k: Kernel, s: SemId, t: Tid)
    requires Shape(k) && s in k.sems && Woken(k.sems[s]) == Some(t) && t in k.tcbs
    ensures var k' := Signal(k, s);
      && k'.ready == k.ready + [t] && k'.tcbs == k.tcbs[t := k.tcbs[t].(blocked := false, place := Ready)]
      && k'.log == k.log && Granted(k') == Granted(k) + if s == GET_SEM then [t] else []
  {
    SignalEffectSome(k, s, t);
    hide Signal;
  }

  /** A grant to a waiting reader makes it the last of the woken ones. */
  lemma GrantedLine(k: Kernel, k': Kernel, t: Tid, reader: bool)
    requires k'.log == k.log
    requires Granted(k') == Granted(k) + if reader then [t] else []
    requires Readers(k'.ready, k'.tcbs) == Readers(k.ready, k.tcbs) + if reader then [t] else []
    ensures LineKept(k, k')
  {
    var a, b := Takers(k.log.read), Readers(k.ready, k.tcbs);
    assert a + (b + [t]) == (a + b) + [t];
    assert b + [] == b && Granted(k) + [] == Granted(k);
  }

  /** A getchar that takes a token although woken readers have not resumed. */
  predicate Overtakes(k: Kernel, e: Event) {
    e.Getc? && GET_SEM in k.sems && !WouldBlock(k.sems[GET_SEM]) && Readers(k.ready, k.tcbs) != []
  }

  lemma TakeLine(k: Kernel)
    requires Inv(k) && Shape(k) && !WouldBlock(k.sems[GET_SEM])
    ensures var k' := Wait(k, GET_SEM, InGetchar);
      && Extends(k, k')
      && (InLine(k) && Readers(k.ready, k.tcbs) == [] ==> InLine(k'))
      && (InLine(k) && Readers(k.ready, k.tcbs) != [] ==> OutOfTurn(k'))
  {
    var k', a, b := Wait(k, GET_SEM, InGetchar), Takers(k.log.read), Readers(k.ready, k.tcbs);
    TakersAppend(k.log.read, k.running, RingFirst(k.input));
    TakenGrant(k);
    assert k'.ready == k.ready && k'.tcbs == k.tcbs;
    if InLine(k) && b == [] {
      assert a + [] == a;
      assert (a + [k.running]) + [] == a + [k.running];
    }
    if InLine(k) && b != [] {
      ReadersReady(k.ready, k.tcbs);
      InvParts(k);
      CoreParts(k, Some(k.running), []);
      ReadyPart(k, Some(k.running), []);
      hide Inv, Core, Readers, Wait;
      assert b[0] in k.ready && b[0] != k.running;
      assert k'.log.read[|a|].0 == k.running && Granted(k')[|a|] == b[0];
    }
  }

  lemma TakenGrant(k: Kernel)
    requires Shape(k) && !WouldBlock(k.sems[GET_SEM])
    ensures var k' := Wait(k, GET_SEM, InGetchar);
      && Granted(k') == Granted(k) + [k.running] && k'.ready == k.ready && k'.tcbs == k.tcbs
      && k'.log.read == k.log.read + [(k.running, RingFirst(k.input))]
  {
  }

  lemma BlockLine(k: Kernel, s: SemId, cont: Cont)
    requires Inv(k) && Shape(k) && k.running != IDLE && s in k.sems && WouldBlock(k.sems[s])
    requires cont == if s == GET_SEM then InGetchar else InWait
    ensures LineKept(k, Wait(k, s, cont))
  {
    InvParts(k);
    hide Inv, Core, Consoles, InLine, Dispatch;
    var p := ParkQueued(k, s, cont);
    ParkQueuedKeeps(k, s, cont);
    ParkLine(k, p, k.tcbs[k.running].(blocked := true, cont := cont, place := Queued(s)));
    DispatchLine(k, p);
  }

  lemma OtherTaken(k: Kernel, s: SemId)
    requires Shape(k) && s in k.sems && s != GET_SEM && !WouldBlock(k.sems[s])
    ensures LineKept(k, Wait(k, s, InWait))
  {
    SameLine(k, Wait(k, s, InWait));
  }

  lemma CloseLine(k: Kernel, s: SemId)
    requires Inv(k) && s in k.sems && s != GET_SEM
    ensures LineKept(k, Close(k, s))
  {
    CloseReaders(k, s, Some(k.running));
    SameLine(k, Close(k, s));
  }

  // ---------------------------------------------------------------- console

  lemma ReceiveLine(k: Kernel, c: char)
    requires Inv(k) && Shape(k)
    ensures LineKept(k, Receive(k, c))
  {
    if k.input.size == BUFFER_SIZE {
      SameLine(k, k);
    } else {
      var k1 := k.(input := RingPut(k.input, c), log := k.log.(accepted := k.log.accepted + [c]));
      InvParts(k);
      CoreFrame(k, k1, Some(k.running));
      SameLine(k, k1);
      hide Inv, Core, Consoles, InLine, Signal, Readers;
      SignalLine(k1, GET_SEM, Some(k.running));
    }
  }

  lemma {:induction false} ReceiveAllLine(k: Kernel, rx: seq<char>)
    requires Inv(k)
    ensures LineKept(k, ReceiveAll(k, rx))
    decreases |rx|
  {
    hide Inv, Receive, InLine;
    InvShape(k);
    if rx != [] {
      ReceiveKeeps(k, rx[0]);
      ReceiveLine(k, rx[0]);
      ReceiveAllLine(Receive(k, rx[0]), rx[1..]);
    }
  }

  lemma {:induction false} TransmitLine(k: Kernel, n: nat)
    ensures LineKept(k, Transmit(k, n))
    decreases n
  {
    hide InLine, Readers;
    if n > 0 && k.output.size != 0 {
      SameLine(k, SendOne(k));
      TransmitLine(SendOne(k), n - 1);
    }
  }

  lemma HandleLine(k: Kernel, k1: Kernel, d: Device)
    requires Inv(k1) && LineKept(k, k1)
    ensures LineKept(k, Handle(k1, d))
  {
    hide Inv, InLine;
    TransmitKeeps(k1, d.txReady);
    TransmitLine(k1, d.txReady);
    ReceiveAllLine(Transmit(k1, d.txReady), d.rx);
  }

  lemma PutcharLine(k: Kernel, c: char, d: Device)
    requires Inv(k)
    ensures LineKept(k, Putchar(k, c, d))
  {
    hide Inv, InLine, Readers;
    if k.output.size == BUFFER_SIZE {
      SameLine(k, k);
    } else {
      var k1 := k.(output := RingPut(k.output, c), log := k.log.(printed := k.log.printed + [c]));
      PrintedKeeps(k, c);
      SameLine(k, k1);
      HandleLine(k, k1, d);
    }
  }

  // ---------------------------------------------------------------- timer, creation

  lemma WakeLine(k: Kernel, r: Option<Tid>, waking: seq<Tid>)
    requires Waking(k, r, waking) && waking != []
    ensures LineKept(k, MakeReady(k, waking[0]))
  {
    var t := waking[0];
    WakeKeeps(k, r, waking);
    ThreadOk(k, r, waking, t);
    ReadyPart(k, r, waking);
    hide Waking, Readers;
    ReadersJoined(k.ready, k.tcbs, t, k.tcbs[t].(blocked := false, place := Ready));
    GrantedLine(k, MakeReady(k, t), t, false);
  }

  lemma {:induction false} WakeAllLine(k: Kernel, r: Option<Tid>, waking: seq<Tid>)
    requires Waking(k, r, waking)
    ensures LineKept(k, MakeAllReady(k, waking))
    decreases |waking|
  {
    hide Waking, InLine, MakeReady;
    if waking != [] {
      WakeLine(k, r, waking);
      WakeKeeps(k, r, waking);
      WakeAllLine(MakeReady(k, waking[0]), r, waking[1..]);
    }
  }

  lemma TickedLine(k: Kernel)
    requires Core(k, Some(k.running))
    ensures LineKept(k, Ticked(k))
  {
    hide Core, InLine, Readers, MakeAllReady;
    var k0 := k.(slice := k.slice + 1, log := k.log.(ticks := k.log.ticks + 1));
    CoreFrame(k, k0, Some(k.running));
    UpdateTimeWaking(k0, Some(k.running));
    var k1 := k0.(sleepers := Remaining(k0.sleepers));
    SameLine(k, k1);
    WakeAllLine(k1, Some(k.running), Expired(k0.sleepers));
  }

  lemma TickLine(k: Kernel)
    requires Inv(k) && Shape(k)
    ensures LineKept(k, Tick(k))
  {
    hide Inv, Core, Consoles, InLine, Readers, UpdateTime, Dispatch, ParkReady, Tick, Ticked, Granted, Extends;
    InvParts(k);
    SliceEnds(k);
    TickedLine(k);
    TickCases(k);
    SliceLine(Ticked(k));
    if Ticked(k).slice >= TIME_SLICE {
      LineJoined(k, Ticked(k), Ticked(k).(slice := 0));
      YieldLine(k, Ticked(k).(slice := 0));
    }
  }

  lemma LineJoined(k: Kernel, k1: Kernel, k2: Kernel)
    requires LineKept(k, k1) && LineKept(k1, k2)
    ensures LineKept(k, k2)
  {
    hide InLine, Granted;
  }

  lemma SpawnLine(k: Kernel, t: Tid, paused: bool)
    requires Inv(k) && t !in k.tcbs
    ensures LineKept(k, Spawn(k, t, paused))
  {
    ReadyPart(k, Some(k.running), []);
    var c := Tcb(false, false, paused, User, if paused then Paused else Ready);
    hide Inv, Readers;
    ReadersApart(k.ready, k.tcbs, t, c);
    ReadersJoined(k.ready, k.tcbs, t, c);
    GrantedLine(k, Spawn(k, t, paused), t, false);
  }

  lemma StartLine(k: Kernel, t: Tid)
    requires Inv(k) && t in k.tcbs && k.tcbs[t].bornPaused
    ensures LineKept(k, StartThread(k, t))
  {
    ReadyPart(k, Some(k.running), []);
    ThreadOk(k, Some(k.running), [], t);
    hide Inv, Readers;
    if k.tcbs[t].started {
      SameLine(k, k);
    } else {
      ReadersJoined(k.ready, k.tcbs, t, k.tcbs[t].(started := true, place := Ready));
      GrantedLine(k, StartThread(k, t), t, false);
    }
  }

  lemma OpenLine(k: Kernel, s: SemId, val: nat)
    requires Inv(k) && s !in k.sems
    ensures LineKept(k, Open(k, s, val))
  {
    InvShape(k);
    hide Inv, Readers;
    SameLine(k, Open(k, s, val));
  }

  lemma SleepLine(k: Kernel, n: nat)
    requires Inv(k) && Shape(k) && k.running != IDLE && n > 0
    ensures LineKept(k, Dispatch(ParkAsleep(k.(slice := 0), n)))
  {
    InvParts(k);
    hide Inv, Core, Consoles, InLine, Readers, Dispatch;
    var k1 := k.(slice := 0);
    CoreFrame(k, k1, Some(k.running));
    SameLine(k, k1);
    ParkAsleepKeeps(k1, n);
    ParkLine(k1, ParkAsleep(k1, n), k.tcbs[k.running].(blocked := true, place := Asleep));
    DispatchLine(k, ParkAsleep(k1, n));
  }

  lemma ExitLine(k: Kernel)
    requires Inv(k) && k.running != IDLE
    ensures LineKept(k, Dispatch(ParkGone(k)))
  {
    InvParts(k);
    hide Inv, Core, Consoles, InLine, Dispatch;
    ParkGoneKeeps(k);
    GoneLine(k);
    DispatchLine(k, ParkGone(k));
  }

  // ---------------------------------------------------------------- every trap

  lemma WaitLine(k: Kernel, s: SemId)
    requires Inv(k) && Shape(k) && k.running != IDLE && s in k.sems && s != GET_SEM
    ensures LineKept(k, Wait(k, s, InWait))
  {
    hide Inv, LineKept, Wait;
    if WouldBlock(k.sems[s]) {
      BlockLine(k, s, InWait);
    } else {
      OtherTaken(k, s);
    }
  }

  lemma DispatchTrapLine(k: Kernel)
    requires Inv(k) && Shape(k)
    ensures LineKept(k, Dispatch(ParkReady(k.(slice := 0))))
  {
    InvParts(k);
    hide Inv, Core, Consoles, InLine, Readers, Dispatch, ParkReady;
    CoreFrame(k, k.(slice := 0), Some(k.running));
    SameLine(k, k.(slice := 0));
    YieldLine(k, k.(slice := 0));
  }

  lemma SliceLine(k: Kernel)
    ensures LineKept(k, k.(slice := 0)) && LineKept(k, k)
  {
    SameLine(k, k);
    SameLine(k, k.(slice := 0));
  }

  /** Every trap but an overtaking getchar keeps readers in line. */
  lemma StepLine(k: Kernel, e: Event)
    requires Inv(k) && Legal(k, e) && !(e.Getc? && !WouldBlock(k.sems[GET_SEM]))
    ensures LineKept(k, Step(k, e))
  {
    hide Inv, LineKept, Dispatch, Wait, Tick, Handle, Signal, Close, Putchar, ParkReady, ParkGone, ParkAsleep, Open, Spawn;
    hide StartThread;
    SliceLine(k);
    InvParts(k);
    match e
    case ThreadCreate(t) => SpawnLine(k, t, false);
    case PausedThreadCreate(t) => SpawnLine(k, t, true);
    case Start(t) => StartLine(k, t);
    case ThreadDispatch => DispatchTrapLine(k);
    case ThreadExit => ExitLine(k);
    case SemOpen(s, val) => OpenLine(k, s, val);
    case SemClose(s) => CloseLine(k, s);
    case SemWait(s) => WaitLine(k, s);
    case SemSignal(s) => SignalLine(k, s, Some(k.running));
    case TimeSleep(n) => if n > 0 { SleepLine(k, n); }
    case Getc => BlockLine(k, GET_SEM, InGetchar);
    case Putc(c, d) => PutcharLine(k, c, d);
    case TimerTick => TickLine(k);
    case ConsoleInterrupt(d) => HandleLine(k, k, d);
  }

  lemma StepInTurn(k: Kernel, e: Event)
    requires Inv(k) && Legal(k, e)
    ensures Extends(k, Step(k, e))
    ensures InLine(k) && !Overtakes(k, e) ==> InLine(Step(k, e))
    ensures InLine(k) && Overtakes(k, e) ==> OutOfTurn(Step(k, e))
  {
    hide Inv, Extends, InLine, OutOfTurn, Wait, Readers;
    InvShape(k);
    if e.Getc? && !WouldBlock(k.sems[GET_SEM]) {
      TakeLine(k);
    } else {
      StepLine(k, e);
      hide Step, Legal;
    }
  }

  // ---------------------------------------------------------------- whole runs

  /** Some getchar of the run overtakes a woken reader. */
  ghost predicate SomeoneOvertakes(k: Kernel, es: seq<Event>)
    requires LegalRun(k, es)
    decreases |es|
  {
    es != [] && (Overtakes(k, es[0]) || SomeoneOvertakes(Step(k, es[0]), es[1..]))
  }

  lemma {:induction false} RunInTurn(k: Kernel, es: seq<Event>)
    requires Inv(k) && LegalRun(k, es)
    ensures OutOfTurn(k) ==> OutOfTurn(Run(k, es))
    ensures InLine(k) ==> if SomeoneOvertakes(k, es) then OutOfTurn(Run(k, es)) else InLine(Run(k, es))
    decreases |es|
  {
    hide Inv, Step, Legal, InLine, OutOfTurn, Extends, Overtakes;
    if es != [] {
      var k' := Step(k, es[0]);
      StepKeeps(k, es[0]);
      StepInTurn(k, es[0]);
      if OutOfTurn(k) { ExtendsOutOfTurn(k, k'); }
      RunInTurn(k', es[1..]);
    }
  }

  /** The k-th character goes to the k-th reader to be granted one, over the whole run, exactly when no getchar of the run
      takes a token while a woken reader has not resumed. */
  lemma ReadersInTurnExactly(es: seq<Event>)
    requires LegalRun(Init(), es)
    ensures var k := Run(Init(), es);
      Takers(k.log.read) <= Granted(k) <==> !SomeoneOvertakes(Init(), es)
  {
    InitInv();
    RunInTurn(Init(), es);
    InitInLine();
    hide Inv, Run, Init, InLine, OutOfTurn, SomeoneOvertakes;
    TurnOrNot(Run(Init(), es));
  }

  lemma InitInLine()
    ensures InLine(Init())
  {
  }

  lemma TurnOrNot(k: Kernel)
    ensures InLine(k) ==> Takers(k.log.read) <= Granted(k)
    ensures OutOfTurn(k) ==> !(Takers(k.log.read) <= Granted(k))
  {
    if OutOfTurn(k) {
      var i :| 0 <= i < |k.log.read| && i < |Granted(k)| && k.log.read[i].0 != Granted(k)[i];
      assert Takers(k.log.read)[i] != Granted(k)[i];
    }
  }

  // ---------------------------------------------------------------- a run out of turn

  function UserAt(p: Place): Tcb {
    Tcb(false, false, false, User, p)
  }

  /** A state with threads 0 (main), 1 (idle) and 5 in which nobody sleeps and nothing was printed. */
  function Small(running: Tid, ready: seq<Tid>, p0: Place, p1: Place, c5: Tcb, sem: Sem, hist: Hist, input: Ring,
                 dispatches: nat, accepted: seq<char>, read: seq<(Tid, char)>): Kernel
  {
    Kernel(running, ready, map[0 := UserAt(p0), 1 := UserAt(p1), 5 := c5],
           map[GET_SEM := sem, MAIN_SEM := Sem(0, [])], [], 0, input, EmptyRing(),
           map[GET_SEM := hist, MAIN_SEM := Hist(0, 0, [], [])], Log(0, dispatches, [], {}, accepted, read, [], []))
  }

  /** A new thread 5, and two dispatches that put it on the processor. */
  lemma StartFive()
    ensures Legal(Init(), ThreadCreate(5))
    ensures var k1 := Step(Init(), ThreadCreate(5));
      && Legal(k1, ThreadDispatch)
      && k1 == Small(0, [1, 5], Running, Ready, UserAt(Ready), Sem(0, []), Hist(0, 0, [], []), EmptyRing(), 0, [], [])
  {
    hide EmptyRing;
    assert [1] + [5] == [1, 5];
  }

  lemma MainYields(five: Tcb, sem: Sem, hist: Hist, input: Ring, n: nat, accepted: seq<char>, read: seq<(Tid, char)>)
    requires five.place == Ready
    ensures var k := Small(0, [1, 5], Running, Ready, five, sem, hist, input, n, accepted, read);
      Legal(k, ThreadDispatch) && Step(k, ThreadDispatch) ==
                                  Small(1, [5, 0], Ready, Running, five, sem, hist, input, n + 1, accepted, read)
  {
    hide EmptyRing;
    assert [1, 5] + [0] == [1, 5, 0];
    assert [1, 5, 0][1..] == [5, 0];
  }

  lemma IdleYields(five: Tcb, sem: Sem, hist: Hist, input: Ring, n: nat, accepted: seq<char>, read: seq<(Tid, char)>)
    requires five == UserAt(Ready)
    ensures var k := Small(1, [5, 0], Ready, Running, five, sem, hist, input, n, accepted, read);
      Legal(k, ThreadDispatch) && Step(k, ThreadDispatch) ==
                                  Small(5, [0, 1], Ready, Ready, UserAt(Running), sem, hist, input, n + 1, accepted, read)
  {
    hide EmptyRing;
    assert [5, 0] + [1] == [5, 0, 1];
    assert [5, 0, 1][1..] == [0, 1];
  }

  const BLOCKED_FIVE: Tcb := Tcb(true, false, false, InGetchar, Queued(GET_SEM))
  const WOKEN_FIVE: Tcb := Tcb(false, false, false, InGetchar, Ready)

  /** Thread 5 waits for a character. */
  lemma FiveWaits(n: nat)
    ensures var k := Small(5, [0, 1], Ready, Ready, UserAt(Running), Sem(0, []), Hist(0, 0, [], []), EmptyRing(), n, [], []);
      Legal(k, Getc) && Step(k, Getc) ==
                        Small(0, [1], Running, Ready, BLOCKED_FIVE, Sem(-1, [5]), Hist(0, 0, [5], []), EmptyRing(), n + 1, [], [])
  {
    hide EmptyRing;
    assert [0, 1][1..] == [1] && [] + [5] == [5];
  }

  /** The first character wakes it, the second stays a token. */
  lemma TwoArrive(n: nat)
    ensures var k := Small(0, [1], Running, Ready, BLOCKED_FIVE, Sem(-1, [5]), Hist(0, 0, [5], []), EmptyRing(), n, [], []);
      var e := ConsoleInterrupt(Device(0, ['a', 'b']));
      Legal(k, e) && Step(k, e) ==
                     Small(0, [1, 5], Running, Ready, WOKEN_FIVE, Sem(1, []), Hist(0, 2, [5], [5]),
                           RingPut(RingPut(EmptyRing(), 'a'), 'b'), n, ['a', 'b'], [])
  {
    var k := Small(0, [1], Running, Ready, BLOCKED_FIVE, Sem(-1, [5]), Hist(0, 0, [5], []), EmptyRing(), n, [], []);
    var r1 := RingPut(EmptyRing(), 'a');
    FirstArrives(n);
    SecondArrives(r1, n);
    hide Receive, Small, EmptyRing, RingPut, Shape, Transmit;
    TwoReceived(k);
  }

  lemma TwoReceived(k: Kernel)
    requires Shape(k) && Shape(Receive(k, 'a')) && k.running != IDLE && Transmit(k, 0) == k
    ensures var e := ConsoleInterrupt(Device(0, ['a', 'b']));
      Legal(k, e) && Step(k, e) == Receive(Receive(k, 'a'), 'b')
  {
    hide Receive, Shape, Transmit;
    assert ['a', 'b'][1..] == ['b'] && ['b'][1..] == [];
    assert ReceiveAll(Receive(Receive(k, 'a'), 'b'), []) == Receive(Receive(k, 'a'), 'b');
    assert ReceiveAll(Receive(k, 'a'), ['b']) == Receive(Receive(k, 'a'), 'b');
  }

  lemma FirstArrives(n: nat)
    ensures var k := Small(0, [1], Running, Ready, BLOCKED_FIVE, Sem(-1, [5]), Hist(0, 0, [5], []), EmptyRing(), n, [], []);
      Shape(k) && Transmit(k, 0) == k && Receive(k, 'a') ==
                  Small(0, [1, 5], Running, Ready, WOKEN_FIVE, Sem(0, []), Hist(0, 1, [5], [5]), RingPut(EmptyRing(), 'a'), n,
                        ['a'], [])
    ensures RingPut(EmptyRing(), 'a').size == 1
  {
    assert EmptyRing().size == 0;
    hide RingPut;
    assert [5][1..] == [] && [1] + [5] == [1, 5] && [] + [5] == [5];
    assert [] + ['a'] == ['a'];
  }

  lemma SecondArrives(r: Ring, n: nat)
    requires r.size == 1
    ensures var k := Small(0, [1, 5], Running, Ready, WOKEN_FIVE, Sem(0, []), Hist(0, 1, [5], [5]), r, n, ['a'], []);
      Shape(k) && Receive(k, 'b') ==
                  Small(0, [1, 5], Running, Ready, WOKEN_FIVE, Sem(1, []), Hist(0, 2, [5], [5]), RingPut(r, 'b'), n, ['a', 'b'], [])
  {
    hide EmptyRing, RingPut;
    assert ['a'] + ['b'] == ['a', 'b'];
  }

  /** Main takes the first character, although thread 5 was granted the first token. */
  lemma MainOvertakes(r: Ring, n: nat)
    ensures var k := Small(0, [1, 5], Running, Ready, WOKEN_FIVE, Sem(1, []), Hist(0, 2, [5], [5]), r, n, ['a', 'b'], []);
      Legal(k, Getc) && Overtakes(k, Getc) && Step(k, Getc) ==
                        Small(0, [1, 5], Running, Ready, WOKEN_FIVE, Sem(0, []), Hist(0, 2, [5, 0], [5, 0]), RingGet(r), n,
                              ['a', 'b'], [(0, RingFirst(r))])
  {
    FiveIsWoken();
    hide EmptyRing, RingGet, RingFirst, Readers;
    assert [5] + [0] == [5, 0];
  }

  lemma FiveIsWoken()
    ensures Readers([1, 5], map[0 := UserAt(Running), 1 := UserAt(Ready), 5 := WOKEN_FIVE]) != []
  {
    ReadersAppend([1], 5, map[0 := UserAt(Running), 1 := UserAt(Ready), 5 := WOKEN_FIVE]);
    assert [1] + [5] == [1, 5];
  }

  /** Thread 5 resumes and takes what is left. */
  lemma FiveResumes(hist: Hist, r: Ring, n: nat, c: char)
    ensures var k := Small(1, [5, 0], Ready, Running, WOKEN_FIVE, Sem(0, []), hist, r, n, ['a', 'b'], [(0, c)]);
      Legal(k, ThreadDispatch) && Step(k, ThreadDispatch) ==
                                  Small(5, [0, 1], Ready, Ready, UserAt(Running), Sem(0, []), hist, RingGet(r), n + 1,
                                        ['a', 'b'], [(0, c), (5, RingFirst(r))])
  {
    hide EmptyRing, RingGet, RingFirst;
    assert [5, 0] + [1] == [5, 0, 1];
    assert [5, 0, 1][1..] == [0, 1];
    assert [(0, c)] + [(5, RingFirst(r))] == [(0, c), (5, RingFirst(r))];
  }

  lemma TwoInRing()
    ensures var r := RingPut(RingPut(EmptyRing(), 'a'), 'b'); RingFirst(r) == 'a' && RingFirst(RingGet(r)) == 'b'
  {
  }

  function OvertakingRun(): seq<Event> {
    [ThreadCreate(5), ThreadDispatch, ThreadDispatch, Getc, ConsoleInterrupt(Device(0, ['a', 'b'])), Getc, ThreadDispatch,
     ThreadDispatch]
  }

  lemma RunCons(k: Kernel, e: Event, es: seq<Event>)
    requires Legal(k, e) && LegalRun(Step(k, e), es)
    ensures LegalRun(k, [e] + es) && Run(k, [e] + es) == Run(Step(k, e), es)
    ensures SomeoneOvertakes(k, [e] + es) <==> Overtakes(k, e) || SomeoneOvertakes(Step(k, e), es)
  {
    assert ([e] + es)[1..] == es;
    hide Legal, Step, Overtakes;
  }

  /** From the two tokens on: main overtakes, and thread 5 gets what is left. */
  lemma LastSteps(r: Ring)
    requires RingFirst(r) == 'a' && RingFirst(RingGet(r)) == 'b'
    ensures var k := Small(0, [1, 5], Running, Ready, WOKEN_FIVE, Sem(1, []), Hist(0, 2, [5], [5]), r, 3, ['a', 'b'], []);
      var es := [Getc, ThreadDispatch, ThreadDispatch];
      && LegalRun(k, es) && SomeoneOvertakes(k, es)
      && Granted(Run(k, es)) == [5, 0] && Run(k, es).log.read == [(0, 'a'), (5, 'b')]
  {
    var h := Hist(0, 2, [5, 0], [5, 0]);
    var k := Small(0, [1, 5], Running, Ready, WOKEN_FIVE, Sem(1, []), Hist(0, 2, [5], [5]), r, 3, ['a', 'b'], []);
    var k1 := Small(0, [1, 5], Running, Ready, WOKEN_FIVE, Sem(0, []), h, RingGet(r), 3, ['a', 'b'], [(0, 'a')]);
    var k2 := Small(1, [5, 0], Ready, Running, WOKEN_FIVE, Sem(0, []), h, RingGet(r), 4, ['a', 'b'], [(0, 'a')]);
    MainOvertakes(r, 3);
    MainYields(WOKEN_FIVE, Sem(0, []), h, RingGet(r), 3, ['a', 'b'], [(0, 'a')]);
    FiveResumes(h, RingGet(r), 4, 'a');
    var k3 := Step(k2, ThreadDispatch);
    assert Granted(k3) == [5, 0];
    hide Small, Step, Legal, Overtakes, RingGet, RingFirst, Granted;
    RunCons(k2, ThreadDispatch, []);
    RunCons(k1, ThreadDispatch, [ThreadDispatch]);
    RunCons(k, Getc, [ThreadDispatch, ThreadDispatch]);
    assert [ThreadDispatch] + [] == [ThreadDispatch];
    assert [ThreadDispatch] + [ThreadDispatch] == [ThreadDispatch, ThreadDispatch];
    assert [Getc] + [ThreadDispatch, ThreadDispatch] == [Getc, ThreadDispatch, ThreadDispatch];
  }

  /** Thread 5 waits, two characters arrive, and the rest. */
  lemma MiddleSteps()
    ensures var k := Small(5, [0, 1], Ready, Ready, UserAt(Running), Sem(0, []), Hist(0, 0, [], []), EmptyRing(), 2, [], []);
      var es := [Getc, ConsoleInterrupt(Device(0, ['a', 'b'])), Getc, ThreadDispatch, ThreadDispatch];
      && LegalRun(k, es) && SomeoneOvertakes(k, es)
      && Granted(Run(k, es)) == [5, 0] && Run(k, es).log.read == [(0, 'a'), (5, 'b')]
  {
    var e := ConsoleInterrupt(Device(0, ['a', 'b']));
    var k3 := Small(5, [0, 1], Ready, Ready, UserAt(Running), Sem(0, []), Hist(0, 0, [], []), EmptyRing(), 2, [], []);
    var k4 := Small(0, [1], Running, Ready, BLOCKED_FIVE, Sem(-1, [5]), Hist(0, 0, [5], []), EmptyRing(), 3, [], []);
    hide Small, Step, Legal, Overtakes, EmptyRing, RingPut, RingGet, RingFirst, Granted, Run, LegalRun, SomeoneOvertakes;
    TwoInRing();
    FiveWaits(2);
    TwoArrive(3);
    LastSteps(RingPut(RingPut(EmptyRing(), 'a'), 'b'));
    var es := [Getc, ThreadDispatch, ThreadDispatch];
    RunCons(k4, e, es);
    assert [e] + es == [e, Getc, ThreadDispatch, ThreadDispatch];
    RunCons(k3, Getc, [e] + es);
    assert [Getc] + [e, Getc, ThreadDispatch, ThreadDispatch] == [Getc, e, Getc, ThreadDispatch, ThreadDispatch];
  }

  lemma WholeRun()
    ensures var es := [Getc, ConsoleInterrupt(Device(0, ['a', 'b'])), Getc, ThreadDispatch, ThreadDispatch];
      [ThreadCreate(5)] + ([ThreadDispatch] + ([ThreadDispatch] + es)) == OvertakingRun()
  {
  }

  /** The run is legal, and the reader that was granted the first character gets the second. */
  lemma OvertakingGetchar()
    ensures LegalRun(Init(), OvertakingRun()) && SomeoneOvertakes(Init(), OvertakingRun())
    ensures var k := Run(Init(), OvertakingRun());
      Granted(k) == [5, 0] && k.log.read == [(0, 'a'), (5, 'b')]
  {
    var h := Hist(0, 0, [], []);
    var k1 := Small(0, [1, 5], Running, Ready, UserAt(Ready), Sem(0, []), h, EmptyRing(), 0, [], []);
    var k2 := Small(1, [5, 0], Ready, Running, UserAt(Ready), Sem(0, []), h, EmptyRing(), 1, [], []);
    hide Small, Step, Legal, Overtakes, EmptyRing, Init, Granted, Run, LegalRun, SomeoneOvertakes;
    StartFive();
    MainYields(UserAt(Ready), Sem(0, []), h, EmptyRing(), 0, [], []);
    IdleYields(UserAt(Ready), Sem(0, []), h, EmptyRing(), 1, [], []);
    MiddleSteps();
    var es := [Getc, ConsoleInterrupt(Device(0, ['a', 'b'])), Getc, ThreadDispatch, ThreadDispatch];
    RunCons(k2, ThreadDispatch, es);
    RunCons(k1, ThreadDispatch, [ThreadDispatch] + es);
    RunCons(Init(), ThreadCreate(5), [ThreadDispatch] + ([ThreadDispatch] + es));
    WholeRun();
  }
}
