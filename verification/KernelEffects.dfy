/** What each trap does, field by field, to every legal state that keeps the invariant. */
module KernelEffects {
  import opened Wrappers
  import opened Semaphores
  import opened Rings
  import opened KernelSpec
  import opened KernelInvariant
  import opened KernelSteps

  // ---------------------------------------------------------------- the processor

  /** Nobody changes place: the running thread goes on. */
  ghost predicate GoesOn(k: Kernel, k': Kernel) {
    && k'.running == k.running
    && k'.log.dispatches == k.log.dispatches && k'.log.results == k.log.results && k'.log.read == k.log.read
  }

  /** The processor goes to the head of q, the ready queue, whose blocked flag is cleared; tcbs are the kTCBs as the thread
      before it left them. A wait it resumes returns -1 exactly when the flag was still set; a getchar it resumes takes the
      oldest unread character. */
  ghost predicate Switched(k: Kernel, tcbs: Tcbs, q: seq<Tid>, k': Kernel) {
    && q != [] && q[0] in tcbs
    && var c := tcbs[q[0]];
    && k'.running == q[0] && k'.ready == q[1..]
    && k'.tcbs == tcbs[q[0] := c.(blocked := false, cont := User, place := Running)]
    && k'.log.dispatches == k.log.dispatches + 1
    && k'.log.results == k.log.results + (if c.cont.InWait? then [(q[0], if c.blocked then -1 else 0)] else [])
    && (if c.cont.InGetchar? then
          |k.log.read| < |k.log.accepted| && k'.log.read == k.log.read + [(q[0], k.log.accepted[|k.log.read|])]
        else k'.log.read == k.log.read)
  }

  /** Nothing is printed, sent or accepted, and no tick passes. */
  ghost predicate Quiet(k: Kernel, k': Kernel) {
    && k'.output == k.output
    && k'.log.accepted == k.log.accepted && k'.log.printed == k.log.printed && k'.log.sent == k.log.sent
    && k'.log.ticks == k.log.ticks
  }

  /** The kTCBs once the threads of q are ready with their blocked flags cleared. */
  ghost function WithReady(tcbs: Tcbs, q: seq<Tid>): Tcbs {
    map t | t in tcbs :: if t in q then tcbs[t].(blocked := false, place := Ready) else tcbs[t]
  }

  // ---------------------------------------------------------------- threads

  /** A new thread, behind all ready ones unless it is paused. */
  ghost predicate Created(k: Kernel, t: Tid, paused: bool, k': Kernel) {
    && GoesOn(k, k') && Quiet(k, k') && k'.sems == k.sems && k'.sleepers == k.sleepers && k'.slice == k.slice
    && k'.ready == (if paused then k.ready else k.ready + [t])
    && k'.tcbs == k.tcbs[t := Tcb(false, false, paused, User, if paused then Paused else Ready)]
  }

  /** A thread not yet started goes behind all ready ones; any other stays as it is. */
  ghost predicate StartedNow(k: Kernel, t: Tid, k': Kernel)
    requires t in k.tcbs
  {
    && GoesOn(k, k') && Quiet(k, k') && k'.sems == k.sems && k'.sleepers == k.sleepers && k'.slice == k.slice
    && if k.tcbs[t].started then k'.ready == k.ready && k'.tcbs == k.tcbs
       else k'.ready == k.ready + [t] && k'.tcbs == k.tcbs[t := k.tcbs[t].(started := true, place := Ready)]
  }

  /** The running thread goes behind all ready ones, and the slice starts anew. */
  ghost predicate Yielded(k: Kernel, k': Kernel)
    requires k.running in k.tcbs
  {
    && Quiet(k, k') && k'.sems == k.sems && k'.sleepers == k.sleepers && k'.slice == 0
    && Switched(k, k.tcbs[k.running := k.tcbs[k.running].(place := Ready)], k.ready + [k.running], k')
  }

  /** The running thread is gone: it has no kTCB any more and is on no queue. */
  ghost predicate Exited(k: Kernel, k': Kernel) {
    && Quiet(k, k') && k'.sems == k.sems && k'.sleepers == k.sleepers && k'.slice == k.slice
    && k.running !in k'.tcbs && k'.running != k.running && k.running !in k'.ready
    && (forall t :: t in k.tcbs && t != k.running && t != k'.running ==> t in k'.tcbs && k'.tcbs[t] == k.tcbs[t])
    && Switched(k, k.tcbs - {k.running}, k.ready, k')
  }

  /** The running thread goes to the front of the sleep queue, unless it asked for no time. */
  ghost predicate Slept(k: Kernel, n: nat, k': Kernel)
    requires k.running in k.tcbs
  {
    && Quiet(k, k') && k'.sems == k.sems && k'.slice == 0
    && if n == 0 then GoesOn(k, k') && k'.ready == k.ready && k'.tcbs == k.tcbs && k'.sleepers == k.sleepers
       else
         && k'.sleepers == [Sleeper(k.running, n)] + k.sleepers
         && Switched(k, k.tcbs[k.running := k.tcbs[k.running].(blocked := true, place := Asleep)], k.ready, k')
  }

  // ---------------------------------------------------------------- semaphores

  ghost predicate Opened(k: Kernel, s: SemId, val: nat, k': Kernel) {
    && GoesOn(k, k') && Quiet(k, k') && k'.sleepers == k.sleepers && k'.slice == k.slice
    && k'.ready == k.ready && k'.tcbs == k.tcbs
    && k'.sems == k.sems[s := Sem(val, [])]
  }

  /** All waiters become ready, first come first, with their blocked flags still set. */
  ghost predicate Closed(k: Kernel, s: SemId, k': Kernel)
    requires s in k.sems
  {
    && GoesOn(k, k') && Quiet(k, k') && k'.sleepers == k.sleepers && k'.slice == k.slice
    && k'.sems == k.sems - {s}
    && k'.ready == k.ready + k.sems[s].queue
    && k'.tcbs.Keys == k.tcbs.Keys
    && (forall t :: t in k.tcbs ==>
          k'.tcbs[t] == if t in k.sems[s].queue then k.tcbs[t].(blocked := true, place := Ready) else k.tcbs[t])
  }

  /** The value falls by one. Exactly when it was not positive the caller queues up and gives up the processor. */
  ghost predicate Waited(k: Kernel, s: SemId, cont: Cont, k': Kernel)
    requires s in k.sems && k.running in k.tcbs
  {
    var sem := k.sems[s];
    && Quiet(k, k') && k'.sleepers == k.sleepers && k'.slice == k.slice
    && if sem.value > 0 then
         && k'.sems == k.sems[s := Sem(sem.value - 1, sem.queue)]
         && k'.running == k.running && k'.ready == k.ready && k'.tcbs == k.tcbs
         && k'.log.dispatches == k.log.dispatches && k'.log.results == k.log.results
         && (if cont.InGetchar? then
               |k.log.read| < |k.log.accepted| && k'.log.read == k.log.read + [(k.running, k.log.accepted[|k.log.read|])]
             else k'.log.read == k.log.read)
       else
         && k'.sems == k.sems[s := Sem(sem.value - 1, sem.queue + [k.running])]
         && Switched(k, k.tcbs[k.running := k.tcbs[k.running].(blocked := true, cont := cont, place := Queued(s))], k.ready, k')
  }

  /** The value rises by one. Exactly when somebody waits, the first one moves to the end of the ready queue. */
  ghost predicate Signalled(k: Kernel, s: SemId, k': Kernel)
    requires s in k.sems
  {
    var sem := k.sems[s];
    && GoesOn(k, k') && Quiet(k, k') && k'.sleepers == k.sleepers && k'.slice == k.slice
    && if sem.queue == [] then
         && k'.sems == k.sems[s := Sem(sem.value + 1, [])]
         && k'.ready == k.ready && k'.tcbs == k.tcbs
       else
         && sem.queue[0] in k.tcbs
         && k'.sems == k.sems[s := Sem(sem.value + 1, sem.queue[1..])]
         && k'.ready == k.ready + [sem.queue[0]]
         && k'.tcbs == k.tcbs[sem.queue[0] := k.tcbs[sem.queue[0]].(blocked := false, place := Ready)]
  }

  // ---------------------------------------------------------------- devices

  function Least(a: int, b: int): int {
    if a <= b then a else b
  }

  /** The characters the input buffer has room for are accepted, and each wakes the reader that has waited longest; what
      was printed goes out in order as often as the device can transmit. */
  ghost predicate DeviceServed(k: Kernel, printed: seq<char>, d: Device, k': Kernel) {
    var m := Least(|d.rx|, BUFFER_SIZE - (|k.log.accepted| - |k.log.read|));
    && GoesOn(k, k') && k'.sleepers == k.sleepers && k'.slice == k.slice && k'.log.ticks == k.log.ticks
    && 0 <= m <= |d.rx| && k'.log.accepted == k.log.accepted + d.rx[..m]
    && k'.log.printed == printed
    && |k.log.sent| <= |printed| && k'.log.sent == printed[..Least(|k.log.sent| + d.txReady, |printed|)]
    && ReadersServed(k, m, k')
  }

  /** m signals of the semaphore that counts the unread characters. */
  ghost predicate ReadersServed(k: Kernel, m: nat, k': Kernel) {
    && GET_SEM in k.sems
    && var q := k.sems[GET_SEM].queue;
    && var w := Least(m, |q|);
    && k'.sems == k.sems[GET_SEM := Sem(k.sems[GET_SEM].value + m, q[w..])]
    && k'.ready == k.ready + q[..w]
    && k'.tcbs == WithReady(k.tcbs, q[..w])
  }

  /** A character is dropped when 1024 are waiting to go out. */
  ghost predicate Printed(k: Kernel, c: char, d: Device, k': Kernel) {
    if |k.log.printed| - |k.log.sent| == BUFFER_SIZE then k' == k
    else DeviceServed(k, k.log.printed + [c], d, k')
  }

  /** Sleepers whose countdown has ended are ready; the running thread goes behind them when its slice has ended. */
  ghost predicate TickPassed(k: Kernel, k': Kernel)
    requires k.running in k.tcbs
  {
    var woken := Expired(k.sleepers);
    && k'.output == k.output && k'.log.accepted == k.log.accepted && k'.log.printed == k.log.printed
    && k'.log.sent == k.log.sent && k'.log.ticks == k.log.ticks + 1
    && k'.sems == k.sems && k'.sleepers == Remaining(k.sleepers)
    && if k.slice + 1 < TIME_SLICE then
         GoesOn(k, k') && k'.slice == k.slice + 1 && k'.ready == k.ready + woken && k'.tcbs == WithReady(k.tcbs, woken)
       else
         && k'.slice == 0
         && Switched(k, WithReady(k.tcbs, woken)[k.running := k.tcbs[k.running].(place := Ready)],
                     k.ready + woken + [k.running], k')
  }

  // ---------------------------------------------------------------- every trap

  ghost predicate Effect(k: Kernel, e: Event, k': Kernel)
    requires Legal(k, e)
  {
    match e
    case ThreadCreate(t) => Created(k, t, false, k')
    case PausedThreadCreate(t) => Created(k, t, true, k')
    case Start(t) => StartedNow(k, t, k')
    case ThreadDispatch => Yielded(k, k')
    case ThreadExit => Exited(k, k')
    case SemOpen(s, val) => Opened(k, s, val, k')
    case SemClose(s) => Closed(k, s, k')
    case SemWait(s) => Waited(k, s, InWait, k')
    case SemSignal(s) => Signalled(k, s, k')
    case TimeSleep(n) => Slept(k, n, k')
    case Getc => Waited(k, GET_SEM, InGetchar, k')
    case Putc(c, d) => Printed(k, c, d, k')
    case TimerTick => TickPassed(k, k')
    case ConsoleInterrupt(d) => DeviceServed(k, k.log.printed, d, k')
  }

  // ---------------------------------------------------------------- dispatch

  lemma ReadyFlags(k: Kernel, t: Tid)
    requires Core(k, None) && Was(k.tcbs, t, Ready)
    ensures k.tcbs[t].cont.User? ==> !k.tcbs[t].blocked
  {
    ThreadOk(k, None, [], t);
  }

  lemma NextLog(k: Kernel)
    requires CanDispatch(k)
    ensures var t, c, k' := k.ready[0], k.tcbs[k.ready[0]], Next(k);
      && k'.log.accepted == k.log.accepted && k'.log.printed == k.log.printed && k'.log.sent == k.log.sent
      && k'.log.results == k.log.results + (if c.cont.InWait? then [(t, if c.blocked then -1 else 0)] else [])
      && k'.log.read == k.log.read + (if c.cont.InGetchar? then [(t, RingFirst(k.input))] else [])
  {
  }

  lemma ReadNext(k: Kernel, t: Tid, c: char)
    requires Inv(k) && k.log.read != [] && k.log.read[|k.log.read| - 1] == (t, c)
    ensures |k.log.read| <= |k.log.accepted| && c == k.log.accepted[|k.log.read| - 1]
  {
  }

  /** After parking, a dispatch hands the processor on. */
  lemma DispatchSwitches(k: Kernel)
    requires Core(k, None) && Consoles(k, 0) && k.slice < TIME_SLICE
    ensures var k' := Dispatch(k);
      Switched(k, k.tcbs, k.ready, k') && Quiet(k, k') && k'.sems == k.sems && k'.sleepers == k.sleepers && k'.slice == k.slice
  {
    DispatchKeeps(k);
    NeverNull(k);
    NextEffect(k);
    NextLog(k);
    hide Core, Consoles, Next, Inv;
    var t, k' := k.ready[0], Dispatch(k);
    ReadyFlags(k, t);
    if k.tcbs[t].cont.InGetchar? {
      ReadNext(k', t, RingFirst(k.input));
    }
  }

  /** The same, seen from before the parking. */
  lemma ParkedSwitches(k: Kernel, p: Kernel)
    requires Core(p, None) && Consoles(p, 0) && p.slice < TIME_SLICE && p.log == k.log && p.output == k.output
    ensures var k' := Dispatch(p);
      Switched(k, p.tcbs, p.ready, k') && Quiet(k, k') && k'.sems == p.sems && k'.sleepers == p.sleepers && k'.slice == p.slice
  {
    hide Core, Consoles, Dispatch;
    DispatchSwitches(p);
  }

  lemma YieldEffect(k: Kernel)
    requires Inv(k) && Shape(k)
    ensures Yielded(k, Dispatch(ParkReady(k.(slice := 0))))
  {
    var k0 := k.(slice := 0);
    SliceKeeps(k);
    InvParts(k0);
    hide Core, Consoles, Dispatch, Inv, Switched, Quiet;
    ParkedReady(k0);
    ParkedSwitches(k, ParkReady(k0));
  }

  lemma ParkedReady(k: Kernel)
    requires Core(k, Some(k.running)) && Consoles(k, 0) && k.running in k.tcbs
    ensures Core(ParkReady(k), None) && Consoles(ParkReady(k), 0)
  {
    hide Core, Consoles, Dispatch;
    ParkReadyKeeps(k);
    RunningUser(k);
    GetInHist(k);
    ParkConsoles(k, ParkReady(k), k.tcbs[k.running].(place := Ready));
  }

  lemma ExitEffect(k: Kernel)
    requires Inv(k) && k.running != IDLE
    ensures Exited(k, Dispatch(ParkGone(k)))
  {
    var p := ParkGone(k);
    InvParts(k);
    ParkGoneKeeps(k);
    GoneConsoles(k);
    GoneFromReady(k);
    hide Core, Consoles, Dispatch, Inv, Quiet;
    ParkedSwitches(k, p);
    NotAgain(k, k.tcbs - {k.running}, Dispatch(p));
  }

  lemma NotAgain(k: Kernel, tcbs: Tcbs, k': Kernel)
    requires Switched(k, tcbs, k.ready, k') && k.running !in k.ready && tcbs == k.tcbs - {k.running}
    ensures k.running !in k'.tcbs && k'.running != k.running && k.running !in k'.ready
    ensures forall t :: t in k.tcbs && t != k.running && t != k'.running ==> t in k'.tcbs && k'.tcbs[t] == k.tcbs[t]
  {
    assert k.ready[0] in k.ready;
    assert forall t :: t in k.ready[1..] ==> t in k.ready;
  }

  lemma GoneFromReady(k: Kernel)
    requires Inv(k)
    ensures k.running !in k.ready
  {
  }

  lemma SleepEffect(k: Kernel, n: nat)
    requires Inv(k) && Shape(k) && k.running != IDLE
    ensures Slept(k, n, if n == 0 then k.(slice := 0) else Dispatch(ParkAsleep(k.(slice := 0), n)))
  {
    hide Switched, Dispatch, Inv;
    if n > 0 {
      SliceKeeps(k);
      FallAsleep(k, k.(slice := 0), n);
    }
  }

  lemma FallAsleep(k: Kernel, k0: Kernel, n: nat)
    requires Inv(k0) && k0 == k.(slice := 0) && Shape(k) && k.running != IDLE && n > 0
    ensures Slept(k, n, Dispatch(ParkAsleep(k0, n)))
  {
    InvParts(k0);
    hide Core, Consoles, Dispatch, Inv, Switched, Quiet;
    GetInHist(k0);
    ParkAsleepKeeps(k0, n);
    ParkConsoles(k0, ParkAsleep(k0, n), k0.tcbs[k0.running].(blocked := true, place := Asleep));
    ParkedSwitches(k, ParkAsleep(k0, n));
  }

  // ---------------------------------------------------------------- semaphores

  lemma BlockEffect(k: Kernel, s: SemId, cont: Cont)
    requires Inv(k) && Shape(k) && k.running != IDLE && s in k.sems && k.sems[s].value <= 0
    requires cont == if s == GET_SEM then InGetchar else InWait
    ensures Waited(k, s, cont, Wait(k, s, cont))
  {
    hide Core, Consoles, Dispatch, Inv, Switched, Quiet, Waited, Wait;
    QueuedParks(k, s, cont);
    ParkedSwitches(k, ParkQueued(k, s, cont));
    WaitBlocks(k, s, cont);
    QueuedSwitches(k, s, cont, Dispatch(ParkQueued(k, s, cont)));
  }

  lemma QueuedParks(k: Kernel, s: SemId, cont: Cont)
    requires Inv(k) && Shape(k) && k.running != IDLE && s in k.sems && k.sems[s].value <= 0
    requires cont == if s == GET_SEM then InGetchar else InWait
    ensures var p := ParkQueued(k, s, cont);
      Core(p, None) && Consoles(p, 0) && p.slice == k.slice < TIME_SLICE && p.log == k.log && p.output == k.output
  {
    InvParts(k);
    hide Core, Consoles, Inv;
    GetInHist(k);
    ParkQueuedKeeps(k, s, cont);
    ParkConsoles(k, ParkQueued(k, s, cont), k.tcbs[k.running].(blocked := true, cont := cont, place := Queued(s)));
  }

  lemma WaitBlocks(k: Kernel, s: SemId, cont: Cont)
    requires Shape(k) && s in k.sems && k.sems[s].value <= 0
    ensures Wait(k, s, cont) == Dispatch(ParkQueued(k, s, cont))
  {
    hide Dispatch;
  }

  lemma QueuedSwitches(k: Kernel, s: SemId, cont: Cont, k': Kernel)
    requires Shape(k) && s in k.sems && k.sems[s].value <= 0
    requires var p := ParkQueued(k, s, cont);
      Switched(k, p.tcbs, p.ready, k') && Quiet(k, k') && k'.sems == p.sems && k'.sleepers == p.sleepers && k'.slice == p.slice
    ensures Waited(k, s, cont, k')
  {
    hide Switched, Quiet;
  }

  lemma TakeEffect(k: Kernel, s: SemId, cont: Cont)
    requires Inv(k) && Shape(k) && k.running != IDLE && s in k.sems && k.sems[s].value > 0
    requires cont == if s == GET_SEM then InGetchar else InWait
    ensures Waited(k, s, cont, Wait(k, s, cont))
  {
    hide Inv, Switched, Dispatch;
    WaitKeepsInv(k, s, cont);
    var k' := if cont.InGetchar? then ReadChar(Taken(k, s), k.running) else Taken(k, s);
    assert Wait(k, s, cont) == k';
    hide Wait;
    if s == GET_SEM {
      ReadNext(k', k.running, RingFirst(k.input));
    }
  }

  lemma SignalEffect(k: Kernel, s: SemId)
    requires Core(k, Some(k.running)) && Shape(k) && s in k.sems
    ensures Signalled(k, s, Signal(k, s))
  {
    QueueState(k, s);
    hide Core;
    if k.sems[s].queue == [] {
      SignalEffectNone(k, s);
    } else {
      SignalEffectSome(k, s, k.sems[s].queue[0]);
    }
  }

  lemma QueueState(k: Kernel, s: SemId)
    requires Core(k, Some(k.running)) && s in k.sems
    ensures k.sems[s].queue == [] <==> k.sems[s].value >= 0
    ensures Distinct(k.sems[s].queue) && forall t :: t in k.sems[s].queue ==> t in k.tcbs && k.tcbs[t].blocked
  {
    SemParts(k.tcbs, k.sems, s);
    forall t | t in k.sems[s].queue
      ensures t in k.tcbs && k.tcbs[t].blocked
    {
      ThreadOk(k, Some(k.running), [], t);
    }
  }

  lemma CloseEffect(k: Kernel, s: SemId)
    requires Inv(k) && s in k.sems
    ensures Closed(k, s, Close(k, s))
  {
    QueueState(k, s);
  }

  // ---------------------------------------------------------------- devices

  /** Only the output buffer and what was sent change: up to n more of the printed characters. */
  ghost predicate Sent(k: Kernel, n: nat, k': Kernel) {
    && k' == k.(output := k'.output, log := k.log.(sent := k'.log.sent))
    && |k.log.sent| <= |k.log.printed|
    && k'.log.sent == k.log.printed[..Least(|k.log.sent| + n, |k.log.printed|)]
  }

  lemma {:induction false} TransmitEffect(k: Kernel, n: nat)
    requires Inv(k)
    ensures Sent(k, n, Transmit(k, n))
    decreases n
  {
    OutputSize(k);
    hide Inv, Sent, SendOne;
    if n > 0 && k.output.size != 0 {
      SendOneKeeps(k);
      TransmitEffect(SendOne(k), n - 1);
      SentMore(k, n, Transmit(k, n));
    } else {
      SentNone(k, n);
    }
  }

  lemma SentMore(k: Kernel, n: nat, k': Kernel)
    requires n > 0 && |k.log.sent| < |k.log.printed| && Sent(SendOne(k), n - 1, k')
    ensures Sent(k, n, k')
  {
  }

  lemma SentNone(k: Kernel, n: nat)
    requires |k.log.sent| <= |k.log.printed| && k.log.sent == k.log.printed[..|k.log.sent|]
    requires n == 0 || |k.log.sent| == |k.log.printed|
    ensures Sent(k, n, k)
  {
  }

  lemma OutputSize(k: Kernel)
    requires Inv(k)
    ensures |k.log.sent| <= |k.log.printed| && k.log.sent == k.log.printed[..|k.log.sent|]
    ensures k.output.size == |k.log.printed| - |k.log.sent| <= BUFFER_SIZE
  {
  }

  lemma InputSize(k: Kernel)
    requires Inv(k)
    ensures 0 <= k.input.size == |k.log.accepted| - |k.log.read| <= BUFFER_SIZE
  {
  }

  ghost predicate Received(k: Kernel, rx: seq<char>, k': Kernel) {
    var m := Least(|rx|, BUFFER_SIZE - (|k.log.accepted| - |k.log.read|));
    && GoesOn(k, k') && k'.sleepers == k.sleepers && k'.slice == k.slice
    && 0 <= m <= |rx|
    && k'.log == k.log.(released := k'.log.released, accepted := k.log.accepted + rx[..m]) && k'.output == k.output
    && ReadersServed(k, m, k')
  }

  ghost predicate ReceivedOne(k: Kernel, c: char, k': Kernel) {
    && GoesOn(k, k') && k'.sleepers == k.sleepers && k'.slice == k.slice && k'.output == k.output
    && k'.log == k.log.(released := k'.log.released, accepted := k.log.accepted + [c]) && ReadersServed(k, 1, k')
  }

  lemma OneServed(k: Kernel, k1: Kernel, k': Kernel)
    requires GET_SEM in k.sems && k1.sems == k.sems && k1.ready == k.ready && k1.tcbs == k.tcbs
    requires Signalled(k1, GET_SEM, k')
    ensures ReadersServed(k, 1, k')
  {
    var q := k.sems[GET_SEM].queue;
    if q == [] {
      assert q[..0] == [] && q[0..] == q && k.ready + [] == k.ready;
      assert WithReady(k.tcbs, []) == k.tcbs;
    } else {
      assert q[..1] == [q[0]];
      assert WithReady(k.tcbs, [q[0]]) == k.tcbs[q[0] := k.tcbs[q[0]].(blocked := false, place := Ready)];
    }
  }

  lemma ServedNone(k: Kernel)
    requires GET_SEM in k.sems
    ensures ReadersServed(k, 0, k)
  {
    var q := k.sems[GET_SEM].queue;
    assert q[..0] == [] && q[0..] == q && k.ready + [] == k.ready;
    assert WithReady(k.tcbs, []) == k.tcbs;
  }

  lemma ReadyTwice(tcbs: Tcbs, a: seq<Tid>, b: seq<Tid>)
    ensures WithReady(WithReady(tcbs, a), b) == WithReady(tcbs, a + b)
  {
  }

  lemma ServedMore(k: Kernel, k1: Kernel, m: nat, k': Kernel)
    requires ReadersServed(k, 1, k1) && ReadersServed(k1, m, k')
    ensures ReadersServed(k, m + 1, k')
  {
    var q, q1 := k.sems[GET_SEM].queue, k1.sems[GET_SEM].queue;
    var w1, w := Least(1, |q|), Least(m, |q1|);
    assert q[..w1] + q1[..w] == q[..w1 + w];
    assert q1[w..] == q[w1 + w..];
    ReadyTwice(k.tcbs, q[..w1], q1[..w]);
    hide WithReady;
    assert k.ready + q[..w1] + q1[..w] == k.ready + (q[..w1] + q1[..w]);
  }

  lemma ReceiveEffect(k: Kernel, c: char)
    requires Inv(k) && Shape(k) && k.input.size < BUFFER_SIZE
    ensures ReceivedOne(k, c, Receive(k, c))
  {
    var k1 := k.(input := RingPut(k.input, c), log := k.log.(accepted := k.log.accepted + [c]));
    InvParts(k);
    CoreFrame(k, k1, Some(k.running));
    hide Core, Inv;
    SignalEffect(k1, GET_SEM);
    SignalLog(k1, GET_SEM);
    OneServed(k, k1, Receive(k, c));
  }

  lemma SignalLog(k: Kernel, s: SemId)
    requires Shape(k) && s in k.sems
    ensures Signal(k, s).log == k.log
  {
  }

  lemma ReceivedMore(k: Kernel, rx: seq<char>, k1: Kernel, k': Kernel)
    requires rx != [] && |k.log.accepted| - |k.log.read| < BUFFER_SIZE
    requires ReceivedOne(k, rx[0], k1) && Received(k1, rx[1..], k')
    ensures Received(k, rx, k')
  {
    hide ReadersServed;
    var m := Least(|rx| - 1, BUFFER_SIZE - (|k1.log.accepted| - |k1.log.read|));
    AcceptedMore(k.log.accepted, rx, m);
    ServedMore(k, k1, m, k');
    LogMore(k.log, rx, m, k1.log, k'.log);
  }

  lemma LogMore(g: Log, rx: seq<char>, m: nat, g1: Log, g': Log)
    requires rx != [] && m < |rx|
    requires g1 == g.(released := g1.released, accepted := g.accepted + [rx[0]])
    requires g' == g1.(released := g'.released, accepted := g1.accepted + rx[1..][..m])
    ensures g' == g.(released := g'.released, accepted := g.accepted + rx[..m + 1])
  {
    AcceptedMore(g.accepted, rx, m);
  }

  lemma AcceptedMore(a: seq<char>, rx: seq<char>, m: nat)
    requires rx != [] && m < |rx|
    ensures a + [rx[0]] + rx[1..][..m] == a + rx[..m + 1]
  {
    assert rx[..m + 1] == [rx[0]] + rx[1..][..m];
  }

  lemma ReceivedNone(k: Kernel, rx: seq<char>)
    requires GET_SEM in k.sems
    requires |k.log.read| <= |k.log.accepted| && |k.log.accepted| - |k.log.read| <= BUFFER_SIZE
    requires rx == [] || |k.log.accepted| - |k.log.read| == BUFFER_SIZE
    ensures Received(k, rx, k)
  {
    ServedNone(k);
    hide ReadersServed;
    assert rx[..0] == [] && k.log.accepted + [] == k.log.accepted;
  }

  lemma {:induction false} ReceiveAllEffect(k: Kernel, rx: seq<char>)
    requires Inv(k) && Shape(k)
    ensures Received(k, rx, ReceiveAll(k, rx))
    decreases |rx|
  {
    InputSize(k);
    SemsKept(k);
    hide Inv, Receive, ReceivedOne, Received;
    if rx == [] || k.input.size == BUFFER_SIZE {
      ReceiveFull(k, rx);
      ReceivedNone(k, rx);
    } else {
      var k1 := Receive(k, rx[0]);
      ReceiveKeeps(k, rx[0]);
      ReceiveEffect(k, rx[0]);
      ReceiveAllEffect(k1, rx[1..]);
      ReceivedMore(k, rx, k1, ReceiveAll(k1, rx[1..]));
    }
  }

  lemma SemsKept(k: Kernel)
    requires Shape(k)
    ensures GET_SEM in k.sems
  {
  }

  lemma {:induction false} ReceiveFull(k: Kernel, rx: seq<char>)
    requires rx == [] || k.input.size == BUFFER_SIZE
    ensures ReceiveAll(k, rx) == k
    decreases |rx|
  {
    if rx != [] && Shape(k) {
      assert Receive(k, rx[0]) == k;
      ReceiveFull(k, rx[1..]);
    }
  }

  /** Sending before receiving. */
  lemma SentThenReceived(k: Kernel, k1: Kernel, d: Device, k': Kernel)
    requires Sent(k, d.txReady, k1) && Received(k1, d.rx, k')
    ensures DeviceServed(k, k.log.printed, d, k')
  {
    hide Least, WithReady;
  }

  lemma HandleEffect(k: Kernel, d: Device)
    requires Inv(k)
    ensures DeviceServed(k, k.log.printed, d, Handle(k, d))
  {
    var k1 := Transmit(k, d.txReady);
    TransmitEffect(k, d.txReady);
    TransmitKeeps(k, d.txReady);
    InvShape(k1);
    hide Inv, Transmit, ReceiveAll, Received, DeviceServed, Sent;
    ReceiveAllEffect(k1, d.rx);
    SentThenReceived(k, k1, d, ReceiveAll(k1, d.rx));
  }

  /** Printing before the device is served. */
  lemma PrintedThenServed(k: Kernel, k1: Kernel, printed: seq<char>, d: Device, k': Kernel)
    requires k1 == k.(output := k1.output, log := k.log.(printed := printed)) && DeviceServed(k1, printed, d, k')
    ensures DeviceServed(k, printed, d, k')
  {
    hide Least, WithReady;
  }

  lemma PutcharEffect(k: Kernel, c: char, d: Device)
    requires Inv(k)
    ensures Printed(k, c, d, Putchar(k, c, d))
  {
    OutputSize(k);
    if k.output.size != BUFFER_SIZE {
      var k1 := k.(output := RingPut(k.output, c), log := k.log.(printed := k.log.printed + [c]));
      PrintedKeeps(k, c);
      hide Inv, Handle, Least, DeviceServed;
      HandleEffect(k1, d);
      PrintedThenServed(k, k1, k.log.printed + [c], d, Handle(k1, d));
    }
  }

  // ---------------------------------------------------------------- timer

  lemma {:induction false} WokenEffect(k: Kernel, r: Option<Tid>, waking: seq<Tid>)
    requires Waking(k, r, waking)
    ensures MakeAllReady(k, waking) == k.(ready := k.ready + waking, tcbs := WithReady(k.tcbs, waking))
    decreases |waking|
  {
    hide Waking;
    if waking == [] {
      assert k.ready + [] == k.ready && WithReady(k.tcbs, []) == k.tcbs;
    } else {
      var t, k1 := waking[0], MakeReady(k, waking[0]);
      WakeKeeps(k, r, waking);
      WokenEffect(k1, r, waking[1..]);
      assert WithReady(k.tcbs, [t]) == k1.tcbs;
      ReadyTwice(k.tcbs, [t], waking[1..]);
      assert waking == [t] + waking[1..];
      assert k.ready + [t] + waking[1..] == k.ready + ([t] + waking[1..]);
    }
  }

  lemma UpdateEffect(k: Kernel)
    requires Core(k, Some(k.running))
    ensures UpdateTime(k) == k.(sleepers := Remaining(k.sleepers), ready := k.ready + Expired(k.sleepers),
                                tcbs := WithReady(k.tcbs, Expired(k.sleepers)))
  {
    hide Core, Waking, WithReady, Expired, Remaining, MakeAllReady;
    UpdateTimeWaking(k, Some(k.running));
    WokenEffect(k.(sleepers := Remaining(k.sleepers)), Some(k.running), Expired(k.sleepers));
  }

  lemma TickedEffect(k: Kernel)
    requires Core(k, Some(k.running))
    ensures Ticked(k) == k.(slice := k.slice + 1, log := k.log.(ticks := k.log.ticks + 1), sleepers := Remaining(k.sleepers),
                            ready := k.ready + Expired(k.sleepers), tcbs := WithReady(k.tcbs, Expired(k.sleepers)))
  {
    hide Core, WithReady, Expired, Remaining, UpdateTime;
    var k0 := k.(slice := k.slice + 1, log := k.log.(ticks := k.log.ticks + 1));
    CoreFrame(k, k0, Some(k.running));
    UpdateEffect(k0);
  }

  lemma RunningNotWoken(k: Kernel)
    requires Inv(k)
    ensures k.running !in Expired(k.sleepers) && k.running in k.tcbs
  {
    assert [] + Threads(k.sleepers) == Threads(k.sleepers);
    TickSplits(k.sleepers);
    assert k.running !in Threads(k.sleepers);
    assert forall t :: t in Expired(k.sleepers) ==> t in Expired(k.sleepers) + Threads(Remaining(k.sleepers));
  }

  lemma TickEffect(k: Kernel)
    requires Inv(k) && Shape(k)
    ensures TickPassed(k, Tick(k))
  {
    InvParts(k);
    RunningNotWoken(k);
    SliceEnds(k);
    TickedEffect(k);
    TickCases(k);
    hide Core, Consoles, Inv, Ticked, Tick, Dispatch, TickPassed, ParkReady;
    if k.slice + 1 >= TIME_SLICE {
      StillThere(k, Ticked(k));
      TickYields(k, Ticked(k), Ticked(k).(slice := 0));
    } else {
      TickGoesOn(k, Ticked(k));
    }
  }

  lemma StillThere(k: Kernel, k1: Kernel)
    requires k.running in k.tcbs && k.running !in Expired(k.sleepers) && k1.tcbs == WithReady(k.tcbs, Expired(k.sleepers))
    ensures k.running in k1.tcbs && k1.tcbs[k.running] == k.tcbs[k.running]
  {
  }

  lemma TickGoesOn(k: Kernel, k1: Kernel)
    requires k.running in k.tcbs && k.slice + 1 < TIME_SLICE
    requires k1 == k.(slice := k.slice + 1, log := k.log.(ticks := k.log.ticks + 1), sleepers := Remaining(k.sleepers),
                      ready := k.ready + Expired(k.sleepers), tcbs := WithReady(k.tcbs, Expired(k.sleepers)))
    ensures TickPassed(k, k1)
  {
    hide Expired, Remaining, WithReady, Switched;
  }

  lemma TickYields(k: Kernel, k1: Kernel, k0: Kernel)
    requires Inv(k) && k.running in k.tcbs && k.running in k1.tcbs && k1.tcbs[k.running] == k.tcbs[k.running]
    requires k1 == k.(slice := k1.slice, log := k.log.(ticks := k.log.ticks + 1), sleepers := Remaining(k.sleepers),
                      ready := k.ready + Expired(k.sleepers), tcbs := WithReady(k.tcbs, Expired(k.sleepers)))
    requires k0 == k1.(slice := 0) && Core(k0, Some(k.running)) && Consoles(k0, 0)
    requires k.slice + 1 >= TIME_SLICE
    ensures TickPassed(k, Dispatch(ParkReady(k0)))
  {
    hide Core, Consoles, Inv, Dispatch, Expired, Remaining, WithReady;
    ParkedReady(k0);
    DispatchSwitches(ParkReady(k0));
  }

  // ---------------------------------------------------------------- every trap

  lemma SpawnEffect(k: Kernel, t: Tid, paused: bool)
    ensures Created(k, t, paused, Spawn(k, t, paused))
  {
  }

  lemma StartEffect(k: Kernel, t: Tid)
    requires t in k.tcbs
    ensures StartedNow(k, t, StartThread(k, t))
  {
  }

  lemma OpenEffect(k: Kernel, s: SemId, val: nat)
    requires val < 0x8000_0000
    ensures Opened(k, s, val, Open(k, s, val))
  {
  }

  /** Every trap of every legal state does what its effect says, field by field. */
  lemma StepEffect(k: Kernel, e: Event)
    requires Inv(k) && Legal(k, e)
    ensures Effect(k, e, Step(k, e))
  {
    InvParts(k);
    hide Inv, Core, Consoles, Switched, Dispatch, Wait, Signal, Close, Handle, Putchar, Tick, Closed, Waited, Signalled, Exited,
         TickPassed, DeviceServed, Printed, Yielded, Slept, Created, StartedNow, Opened, Spawn, StartThread, Open;
    match e
    case ThreadCreate(t) => SpawnEffect(k, t, false);
    case PausedThreadCreate(t) => SpawnEffect(k, t, true);
    case Start(t) => StartEffect(k, t);
    case ThreadDispatch => YieldEffect(k);
    case ThreadExit => ExitEffect(k);
    case SemOpen(s, val) => OpenEffect(k, s, val);
    case SemClose(s) => CloseEffect(k, s);
    case SemWait(s) => WaitEffect(k, s, InWait);
    case SemSignal(s) => SignalEffect(k, s);
    case TimeSleep(n) => SleepEffect(k, n);
    case Getc => WaitEffect(k, GET_SEM, InGetchar);
    case Putc(c, d) => PutcharEffect(k, c, d);
    case TimerTick => TickEffect(k);
    case ConsoleInterrupt(d) => HandleEffect(k, d);
  }

  lemma WaitEffect(k: Kernel, s: SemId, cont: Cont)
    requires Inv(k) && Shape(k) && k.running != IDLE && s in k.sems
    requires cont == if s == GET_SEM then InGetchar else InWait
    ensures Waited(k, s, cont, Wait(k, s, cont))
  {
    hide Inv, Wait, Waited;
    if k.sems[s].value > 0 { TakeEffect(k, s, cont); } else { BlockEffect(k, s, cont); }
  }
}
