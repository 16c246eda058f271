/**
 The kernel as its code works it: static fields and flags updated in place, one method per routine. Every
 trap method is proved to take the state exactly where Step of the specification takes it.
 */
module KernelMachine {
  import opened Wrappers
  import opened Semaphores
  import opened Rings
  import opened KernelSpec
  import opened KernelInvariant
  import opened KernelSteps
  import opened KernelEffects
  import opened KernelTheorems
  import opened KernelSchedule

  class Machine {
    var running: Tid
    var runningTimeSlice: nat
    var readyThreadQueue: seq<Tid>
    var tcbs: map<Tid, Tcb>
    var sems: map<SemId, Sem>
    var sleepers: seq<Sleeper>

    const getBuffer: array<char>
    var getHead: int
    var getTail: int
    var getSize: int
    const putBuffer: array<char>
    var putHead: int
    var putTail: int
    var putSize: int

    ghost var hist: map<SemId, Hist>
    ghost var log: Log

    /** The specification state the fields stand for. */
    ghost function State(): Kernel
      reads this, getBuffer, putBuffer
    {
      Kernel(running, readyThreadQueue, tcbs, sems, sleepers, runningTimeSlice,
             Ring(getBuffer[..], getHead, getTail, getSize), Ring(putBuffer[..], putHead, putTail, putSize), hist, log)
    }

    ghost predicate Valid()
      reads this, getBuffer, putBuffer
    {
      getBuffer != putBuffer && Inv(State())
    }

    ghost predicate Buffers()
      reads this
    {
      && getBuffer != putBuffer && getBuffer.Length == BUFFER_SIZE == putBuffer.Length
      && 0 <= getHead < BUFFER_SIZE && 0 <= getTail < BUFFER_SIZE
      && 0 <= putHead < BUFFER_SIZE && 0 <= putTail < BUFFER_SIZE
      && GET_SEM in sems && hist.Keys == sems.Keys
    }

    /** Enough for the routines below to find what they index. */
    ghost predicate Sound()
      reads this
    {
      Buffers() && running in tcbs
    }

    constructor ()
      ensures Valid() && State() == Init()
    {
      running, runningTimeSlice, readyThreadQueue := MAIN, 0, [IDLE];
      tcbs := map[MAIN := Tcb(false, false, false, User, Running), IDLE := Tcb(false, false, false, User, Ready)];
      sems, sleepers := map[GET_SEM := Sem(0, []), MAIN_SEM := Sem(0, [])], [];
      getBuffer := new char[BUFFER_SIZE](_ => ' ');
      putBuffer := new char[BUFFER_SIZE](_ => ' ');
      getHead, getTail, getSize, putHead, putTail, putSize := 0, 0, 0, 0, 0, 0;
      hist := map[GET_SEM := Hist(0, 0, [], []), MAIN_SEM := Hist(0, 0, [], [])];
      log := Log(0, 0, [], {}, [], [], [], []);
      new;
      assert getBuffer[..] == EmptyRing().buf && putBuffer[..] == EmptyRing().buf;
      InitInv();
    }

    // -------------------------------------------------------------- processor

    /** retval = getBuffer[getHead] and the rest of getchar. */
    method TakeChar() returns (c: char)
      requires Sound()
      modifies this`getHead, this`getSize, this`log
      ensures Sound() && State() == ReadChar(old(State()), running)
      ensures c == RingFirst(old(State()).input)
    {
      c := getBuffer[getHead];
      getHead := (getHead + 1) % BUFFER_SIZE;
      getSize := getSize - 1;
      log := log.(read := log.read + [(running, c)]);
    }

    /** The end of the trap of the thread just switched to. */
    method ResumeRunning(ghost c: Tcb)
      requires Sound() && tcbs[running] == c
      modifies this
      ensures Sound() && State() == Resume(old(State()), running, c)
    {
      match tcbs[running].cont {
        case User =>
          tcbs := tcbs[running := tcbs[running].(place := Running)];
        case InWait =>
          var ret := 0;
          if tcbs[running].blocked {
            ret := -1;
          }
          tcbs := tcbs[running := tcbs[running].(blocked := false, cont := User, place := Running)];
          log := log.(results := log.results + [(running, ret)], released := log.released - {running});
        case InGetchar =>
          tcbs := tcbs[running := tcbs[running].(blocked := false, cont := User, place := Running)];
          log := log.(released := log.released - {running});
          var ch := TakeChar();
      }
    }

    /** running = kScheduler::get() and the switch. */
    method RunNext()
      requires Buffers() && CanDispatch(State())
      modifies this
      ensures Sound() && State() == Next(old(State()))
    {
      running := readyThreadQueue[0];
      readyThreadQueue := readyThreadQueue[1..];
      log := log.(dispatches := log.dispatches + 1);
      ResumeRunning(tcbs[running]);
    }

    /** dispatch: a thread that is neither finished nor blocked goes to the end of the ready queue. */
    method Dispatch(finished: bool)
      requires Sound() && CanDispatch(Parked(State(), finished))
      modifies this
      ensures Sound() && State() == KernelSpec.Dispatch(Parked(old(State()), finished))
    {
      hide Next, Resume;
      var previous := running;
      if !finished {
        if !tcbs[previous].blocked {
          readyThreadQueue := readyThreadQueue + [previous];
          tcbs := tcbs[previous := tcbs[previous].(place := Ready)];
        }
      } else {
        tcbs := tcbs - {previous};
      }
      assert State() == Parked(old(State()), finished);
      RunNext();
    }

    // -------------------------------------------------------------- semaphores

    /** --value, and block when that is negative; otherwise the flag test of semWait finds nothing. */
    method Decrement(s: SemId, cont: Cont) returns (blocked: bool)
      requires Sound() && s in sems && Inv(State()) && running != IDLE
      requires cont == if s == GET_SEM then InGetchar else InWait
      modifies this
      ensures Sound() && blocked == WouldBlock(old(sems)[s])
      ensures State() == if blocked then KernelSpec.Dispatch(ParkQueued(old(State()), s, cont))
                         else Taken(old(State()), s)
    {
      hide Inv, KernelSpec.Dispatch, Waking;
      ghost var k := State();
      InvParts(k);
      var sem, t := sems[s], running;
      ghost var h := hist[s];
      blocked := sem.value - 1 < 0;
      if blocked {
        ParkQueuedKeeps(k, s, cont);
        NeverNull(ParkQueued(k, s, cont));
        sems := sems[s := Sem(sem.value - 1, sem.queue + [t])];
        hist := hist[s := h.(arrivals := h.arrivals + [t])];
        tcbs := tcbs[t := tcbs[t].(blocked := true, cont := cont, place := Queued(s))];
        assert State() == ParkQueued(k, s, cont);
        Dispatch(false);
      } else {
        sems := sems[s := Sem(sem.value - 1, sem.queue)];
        hist := hist[s := h.(arrivals := h.arrivals + [t], granted := h.granted + [t])];
      }
    }

    lemma ValidSound()
      requires Valid()
      ensures Sound() && Shape(State())
    {
      InvShape(State());
      ReadyPart(State(), Some(running), []);
    }

    /** semWait. A wait that blocks returns later; its result is then in the log. */
    method SemWait(sem: Option<SemId>) returns (ret: Option<int>)
      requires Valid() && (sem.Some? ==> Legal(State(), Event.SemWait(sem.value)))
      modifies this
      ensures Valid()
      ensures sem == None ==> State() == old(State()) && ret == Some(-1)
      ensures sem.Some? ==> Follows(old(State()), State(), Event.SemWait(sem.value)) &&
                            ret == if BlocksOn(old(State()), sem.value) then None else Some(0)
    {
      hide Inv, KernelSpec.Dispatch, Effect;
      if sem == None {
        return Some(-1);
      }
      ValidSound();
      TrapKeeps(State(), Event.SemWait(sem.value));
      var blocked := Decrement(sem.value, InWait);
      ret := if blocked then None else Some(0);
    }

    /** getchar. */
    method Getchar()
      requires Valid() && Legal(State(), Getc)
      modifies this
      ensures Valid() && Follows(old(State()), State(), Getc)
    {
      hide Inv, KernelSpec.Dispatch, Effect;
      ValidSound();
      TrapKeeps(State(), Getc);
      var blocked := Decrement(GET_SEM, InGetchar);
      if !blocked {
        var c := TakeChar();
      }
    }

    /** unblock: the first waiter loses its blocked flag and becomes ready. */
    method Unblock(s: SemId)
      requires Sound() && s in sems && sems[s].queue != [] && sems[s].queue[0] in tcbs
      modifies this`sems, this`tcbs, this`readyThreadQueue
      ensures Sound()
      ensures var q := old(sems)[s].queue;
        && sems == old(sems)[s := old(sems)[s].(queue := q[1..])]
        && tcbs == old(tcbs)[q[0] := old(tcbs)[q[0]].(blocked := false, place := Ready)]
        && readyThreadQueue == old(readyThreadQueue) + [q[0]]
    {
      var t := sems[s].queue[0];
      sems := sems[s := sems[s].(queue := sems[s].queue[1..])];
      tcbs := tcbs[t := tcbs[t].(blocked := false, place := Ready)];
      readyThreadQueue := readyThreadQueue + [t];
    }

    /** ++value, and unblock when that is not positive. */
    method Increment(s: SemId)
      requires Sound() && s in sems
      requires sems[s].value + 1 <= 0 ==> sems[s].queue != [] && sems[s].queue[0] in tcbs
      modifies this`sems, this`tcbs, this`readyThreadQueue, this`hist
      ensures Sound()
      ensures var (sem, h) := (old(sems)[s], old(hist)[s]);
        if sem.value + 1 <= 0 then
          var t := sem.queue[0];
          && sems == old(sems)[s := Sem(sem.value + 1, sem.queue[1..])]
          && hist == old(hist)[s := h.(signals := h.signals + 1, granted := h.granted + [t])]
          && tcbs == old(tcbs)[t := old(tcbs)[t].(blocked := false, place := Ready)]
          && readyThreadQueue == old(readyThreadQueue) + [t]
        else
          && sems == old(sems)[s := Sem(sem.value + 1, sem.queue)]
          && hist == old(hist)[s := h.(signals := h.signals + 1)]
          && tcbs == old(tcbs) && readyThreadQueue == old(readyThreadQueue)
    {
      ghost var h, sem := hist[s], sems[s];
      sems := sems[s := sems[s].(value := sems[s].value + 1)];
      if sems[s].value <= 0 {
        Unblock(s);
        hist := hist[s := h.(signals := h.signals + 1, granted := h.granted + [sem.queue[0]])];
      } else {
        hist := hist[s := h.(signals := h.signals + 1)];
      }
    }

    method SignalSemaphore(s: SemId)
      requires Sound() && s in sems && Core(State(), Some(running))
      modifies this`sems, this`tcbs, this`readyThreadQueue, this`hist
      ensures Sound() && State() == Signal(old(State()), s)
    {
      hide Waking, Core, Signal, Inv, Woken, SignalOn, MakeReady;
      ghost var k := State();
      WokenFacts(k, s);
      if sems[s].value + 1 <= 0 { SignalEffectSome(k, s, sems[s].queue[0]); } else { SignalEffectNone(k, s); }
      Increment(s);
    }

    /** A signal that leaves the value at zero or below always finds a waiter to wake. */
    static lemma WokenFacts(k: Kernel, s: SemId)
      requires Core(k, Some(k.running)) && s in k.sems
      ensures var sem := k.sems[s];
        && (sem.value + 1 <= 0 ==>
              sem.queue != [] && sem.queue[0] in k.tcbs && Woken(sem) == Some(sem.queue[0])
              && SignalOn(sem) == Sem(sem.value + 1, sem.queue[1..]))
        && (sem.value + 1 > 0 ==> Woken(sem) == None && SignalOn(sem) == Sem(sem.value + 1, sem.queue))
    {
      SemParts(k.tcbs, k.sems, s);
      SignalBalanced(k.sems[s]);
    }

    /** semSignal. */
    method SemSignal(sem: Option<SemId>) returns (ret: int)
      requires Valid() && (sem.Some? ==> Legal(State(), Event.SemSignal(sem.value)))
      modifies this
      ensures Valid()
      ensures sem == None ==> State() == old(State()) && ret == -1
      ensures sem.Some? ==> Follows(old(State()), State(), Event.SemSignal(sem.value)) && ret == 0
    {
      hide Inv, Signal, Effect;
      if sem == None {
        return -1;
      }
      ValidSound();
      TrapKeeps(State(), Event.SemSignal(sem.value));
      InvParts(State());
      SignalSemaphore(sem.value);
      ret := 0;
    }

    /** semOpen: -1 for a null handle, 1 when no semaphore can be had (slot is what kSemaphoreCache gives). The invariant
        survives exactly when the value does not turn negative as an int. */
    method SemOpen(handle: bool, slot: Option<SemId>, val: nat) returns (ret: int)
      requires Valid() && running != IDLE && val < 0x1_0000_0000 && (slot.Some? ==> slot.value !in sems)
      modifies this
      ensures !handle ==> ret == -1 && State() == old(State())
      ensures handle && slot == None ==> ret == 1 && State() == old(State())
      ensures handle && slot.Some? ==> ret == 0 && State() == Open(old(State()), slot.value, val)
      ensures handle && slot.Some? ==>
                sems == old(sems)[slot.value := Sem(SignedValue(val), [])]
      ensures Valid() <==> !handle || slot == None || val < 0x8000_0000
    {
      if !handle {
        return -1;
      }
      if slot == None {
        return 1;
      }
      var s := slot.value;
      OpenKept(State(), s, val);
      SignedIs(val);
      hide Inv, AsInt, SignedValue;
      sems := sems[s := Sem(AsInt(val), [])];
      hist := hist[s := Hist(AsInt(val), 0, [], [])];
      ret := 0;
    }

    /** semClose: waiters become ready one by one, blocked flags still set. */
    method SemClose(sem: Option<SemId>) returns (ret: int)
      requires Valid() && (sem.Some? ==> Legal(State(), Event.SemClose(sem.value)))
      modifies this
      ensures Valid()
      ensures sem == None ==> State() == old(State()) && ret == -1
      ensures sem.Some? ==> Follows(old(State()), State(), Event.SemClose(sem.value)) && ret == 0
    {
      hide Inv, Close, Effect;
      if sem == None {
        return -1;
      }
      ValidSound();
      TrapKeeps(State(), Event.SemClose(sem.value));
      QueuedExist(sem.value);
      Delete(sem.value);
      ret := 0;
    }

    method Delete(s: SemId)
      requires Sound() && s in sems && forall t :: t in sems[s].queue ==> t in tcbs
      modifies this`readyThreadQueue, this`tcbs, this`sems, this`hist, this`log
      ensures State() == Close(old(State()), s)
    {
      hide AllReady;
      Drain(s);
      ghost var q := old(sems)[s].queue;
      assert sems - {s} == old(sems) - {s};
      sems := sems - {s};
      hist := hist - {s};
      log := log.(released := log.released + (set t | t in q));
    }

    method Drain(s: SemId)
      requires s in sems && forall t :: t in sems[s].queue ==> t in tcbs
      modifies this`readyThreadQueue, this`tcbs, this`sems
      ensures var q := old(sems)[s].queue;
        && readyThreadQueue == old(readyThreadQueue) + q
        && tcbs == AllReady(old(tcbs), q)
      ensures sems.Keys == old(sems).Keys && forall u :: u in sems && u != s ==> sems[u] == old(sems)[u]
    {
      ghost var q, i := sems[s].queue, 0;
      assert q[..0] == [] && q[0..] == q;
      while sems[s].queue != []
        invariant 0 <= i <= |q| && s in sems
        invariant sems == old(sems)[s := old(sems)[s].(queue := q[i..])]
        invariant readyThreadQueue == old(readyThreadQueue) + q[..i]
        invariant tcbs == AllReady(old(tcbs), q[..i])
        decreases |q| - i
      {
        var t := sems[s].queue[0];
        assert t == q[i] && q[i..][1..] == q[i + 1..] && q[..i + 1] == q[..i] + [t];
        sems := sems[s := sems[s].(queue := sems[s].queue[1..])];
        readyThreadQueue := readyThreadQueue + [t];
        tcbs := tcbs[t := tcbs[t].(place := Ready)];
        i := i + 1;
      }
      assert q[..i] == q;
    }

    // -------------------------------------------------------------- timer

    /** put of the sleep queue, behind the reset of the time slice. */
    method TimeSleep(n: nat) returns (ret: int)
      requires Valid() && Legal(State(), Event.TimeSleep(n))
      modifies this
      ensures Valid() && Follows(old(State()), State(), Event.TimeSleep(n)) && ret == 0
    {
      hide Inv, KernelSpec.Dispatch, Waking, Effect;
      ValidSound();
      TrapKeeps(State(), Event.TimeSleep(n));
      InvParts(State());
      runningTimeSlice := 0;
      if n == 0 {
        return 0;
      }
      ghost var k := State();
      CoreFrame(old(State()), k, Some(running));
      ParkAsleepKeeps(k, n);
      NeverNull(ParkAsleep(k, n));
      sleepers := [Sleeper(running, n)] + sleepers;
      tcbs := tcbs[running := tcbs[running].(blocked := true, place := Asleep)];
      assert State() == ParkAsleep(k, n);
      Dispatch(false);
      ret := 0;
    }

    /** awake: every sleeper whose countdown is zero leaves the list and becomes ready. */
    method Awake(ghost base: Kernel)
      requires base.ready == readyThreadQueue && base.tcbs == tcbs
      requires forall t :: t in Threads(sleepers) ==> t in tcbs
      modifies this`sleepers, this`tcbs, this`readyThreadQueue
      ensures sleepers == Waiting(old(sleepers))
      ensures base.(ready := readyThreadQueue, tcbs := tcbs) == MakeAllReady(base, Ended(old(sleepers)))
    {
      hide AwakeInv, Waiting, Ended, Threads, MakeAllReady;
      ghost var d, n := sleepers, 0;
      ghost var goal := MakeAllReady(base, Ended(d));
      AwakeBegin(base, d, readyThreadQueue, tcbs);
      var cur := 0;
      while cur < |sleepers|
        invariant 0 <= cur && n <= |d|
        invariant AwakeInv(base, goal, d, n, cur, sleepers, readyThreadQueue, tcbs)
        decreases |d| - n
      {
        AwakeIteration(base, goal, d, n, cur, sleepers, readyThreadQueue, tcbs);
        var e := sleepers[cur];
        if e.time == 0 {
          tcbs := tcbs[e.thread := tcbs[e.thread].(blocked := false, place := Ready)];
          readyThreadQueue := readyThreadQueue + [e.thread];
          sleepers := sleepers[..cur] + sleepers[cur + 1..];
        } else {
          cur := cur + 1;
        }
        n := n + 1;
      }
      AwakeEnd(base, goal, d, n, cur, sleepers, readyThreadQueue, tcbs);
    }

    lemma QueuedExist(s: SemId)
      requires Valid() && s in sems
      ensures forall t :: t in sems[s].queue ==> t in tcbs
    {
      SemParts(tcbs, sems, s);
    }

    /** updateTime. */
    method UpdateTime()
      requires Sound() && forall t :: t in Threads(sleepers) ==> t in tcbs
      modifies this`sleepers, this`tcbs, this`readyThreadQueue
      ensures Sound() && State() == KernelSpec.UpdateTime(old(State()))
    {
      hide MakeAllReady, Expired, Remaining, Decremented, Ended, Waiting, Threads;
      CountDown();
      TickIsAwake(old(sleepers));
      ghost var base := old(State()).(sleepers := Remaining(old(sleepers)));
      MakeAllReadyKeys(base, Expired(old(sleepers)));
      Awake(base);
    }

    method CountDown()
      modifies this`sleepers
      ensures sleepers == Decremented(old(sleepers))
    {
      ghost var q := sleepers;
      assert q[0..] == q;
      var i := 0;
      while i < |sleepers|
        invariant 0 <= i <= |q| == |sleepers|
        invariant Decremented(q) == sleepers[..i] + Decremented(q[i..]) && sleepers[i..] == q[i..]
      {
        assert q[i..][1..] == q[i + 1..] && q[i..][0] == q[i] && sleepers[i] == sleepers[i..][0];
        sleepers := sleepers[i := sleepers[i].(time := sleepers[i].time - 1)];
        i := i + 1;
      }
    }

    lemma SleepersExist()
      requires Valid()
      ensures forall t :: t in Threads(sleepers) ==> t in tcbs
    {
      assert [] + Threads(sleepers) == Threads(sleepers);
    }

    /** The timer branch of the trap handler. */
    method TimerInterrupt()
      requires Valid() && Legal(State(), TimerTick)
      modifies this
      ensures Valid() && Follows(old(State()), State(), TimerTick)
    {
      hide Inv, KernelSpec.Dispatch, KernelSpec.UpdateTime, Waking, Tick, ParkReady, Step, Legal, Consoles, Effect;
      ghost var k := State();
      ValidSound();
      SleepersExist();
      TrapKeeps(k, TimerTick);
      InvParts(k);
      TickedKeeps(k);
      TickCases(k);
      LegalTick(k);
      runningTimeSlice := runningTimeSlice + 1;
      log := log.(ticks := log.ticks + 1);
      UpdateTime();
      if runningTimeSlice >= TIME_SLICE {
        runningTimeSlice := 0;
        CoreFrame(Ticked(k), State(), Some(running));
        YieldRunning();
      }
    }

    /** yield of a thread that is neither blocked nor finished. */
    method YieldRunning()
      requires Sound() && Core(State(), Some(running))
      modifies this
      ensures Sound() && State() == KernelSpec.Dispatch(ParkReady(old(State())))
    {
      hide Inv, KernelSpec.Dispatch, Waking;
      ParkReadyKeeps(State());
      NeverNull(ParkReady(State()));
      RunningNotBlocked(State());
      Dispatch(false);
    }

    static lemma RunningNotBlocked(k: Kernel)
      requires Core(k, Some(k.running))
      ensures k.running in k.tcbs && !k.tcbs[k.running].blocked
    {
      ThreadOk(k, Some(k.running), [], k.running);
    }

    // -------------------------------------------------------------- console

    /** The transmit loop: while the device is ready and something is waiting, send the oldest character. */
    method TransmitLoop(txReady: nat)
      requires Sound()
      modifies this`putHead, this`putSize, this`log
      ensures Sound() && State() == Transmit(old(State()), txReady)
    {
      hide Transmit;
      var n := txReady;
      ghost var goal := Transmit(State(), txReady);
      while n > 0 && putSize != 0
        invariant 0 <= n && Sound() && Transmit(State(), n) == goal
        decreases n
      {
        TransmitOne(State(), n);
        SendChar();
        n := n - 1;
      }
      TransmitDone(State(), n);
    }

    method SendChar()
      requires Sound()
      modifies this`putHead, this`putSize, this`log
      ensures Sound() && State() == SendOne(old(State()))
    {
      log := log.(sent := log.sent + [putBuffer[putHead]]);
      putHead := (putHead + 1) % BUFFER_SIZE;
      putSize := putSize - 1;
    }

    /** One received character: dropped when the buffer is full, else stored and signalled. */
    method Accept(c: char)
      requires Sound() && Core(State(), Some(running))
      modifies this, getBuffer
      ensures Sound() && State() == Receive(old(State()), c)
    {
      hide Waking, Signal;
      if getSize == BUFFER_SIZE {
        return;
      }
      ghost var k := State();
      getBuffer[getTail] := c;
      getTail := (getTail + 1) % BUFFER_SIZE;
      getSize := getSize + 1;
      log := log.(accepted := log.accepted + [c]);
      ghost var k1 := k.(input := RingPut(k.input, c), log := k.log.(accepted := k.log.accepted + [c]));
      assert State() == k1;
      CoreFrame(k, k1, Some(running));
      SignalSemaphore(GET_SEM);
    }

    /** handle: the transmit loop, then the receive loop, until the device has nothing more to say. */
    method Handle(d: Device)
      requires Valid()
      modifies this, getBuffer
      ensures Valid() && State() == KernelSpec.Handle(old(State()), d)
    {
      hide Inv, Transmit, Receive, Signal;
      ValidSound();
      TransmitKeeps(State(), d.txReady);
      TransmitLoop(d.txReady);
      ghost var k := State();
      var i := 0;
      assert d.rx[0..] == d.rx;
      while i < |d.rx|
        invariant 0 <= i <= |d.rx| && Valid() && ReceiveAll(State(), d.rx[i..]) == ReceiveAll(k, d.rx)
      {
        ValidSound();
        InvParts(State());
        ReceiveKeeps(State(), d.rx[i]);
        assert d.rx[i..][1..] == d.rx[i + 1..];
        Accept(d.rx[i]);
        i := i + 1;
      }
    }

    /** Console interrupt. */
    method ConsoleInterruptTrap(d: Device)
      requires Valid() && Legal(State(), ConsoleInterrupt(d))
      modifies this, getBuffer
      ensures Valid() && Follows(old(State()), State(), ConsoleInterrupt(d))
    {
      hide Inv, KernelSpec.Handle, Effect;
      TrapKeeps(State(), ConsoleInterrupt(d));
      Handle(d);
    }

    /** putchar: dropped when the buffer is full, else stored and handed on. */
    method PutcharTrap(c: char, d: Device)
      requires Valid() && Legal(State(), Putc(c, d))
      modifies this, getBuffer, putBuffer
      ensures Valid() && Follows(old(State()), State(), Putc(c, d))
    {
      hide Inv, KernelSpec.Handle, Effect;
      TrapKeeps(State(), Putc(c, d));
      ValidSound();
      if putSize == BUFFER_SIZE {
        return;
      }
      ghost var k := State();
      PrintedKeeps(k, c);
      putBuffer[putTail] := c;
      putTail := (putTail + 1) % BUFFER_SIZE;
      putSize := putSize + 1;
      log := log.(printed := log.printed + [c]);
      assert State() == k.(output := RingPut(k.output, c), log := k.log.(printed := k.log.printed + [c]));
      Handle(d);
    }

    // -------------------------------------------------------------- threads

    /** threadCreate: 1 when no kTCB can be had (slot is what kTCBCache gives). A thread without a body is put on no
        queue, like a paused one. */
    method CreateThread(slot: Option<Tid>, hasBody: bool) returns (ret: int)
      requires Valid() && running != IDLE && (slot.Some? ==> slot.value !in tcbs)
      modifies this
      ensures Valid()
      ensures slot == None ==> ret == 1 && State() == old(State())
      ensures slot.Some? && hasBody ==> ret == 0 && Follows(old(State()), State(), ThreadCreate(slot.value))
      ensures slot.Some? && !hasBody ==> ret == 0 && Follows(old(State()), State(), PausedThreadCreate(slot.value))
    {
      if slot == None {
        return 1;
      }
      if hasBody { Create(slot.value); } else { CreateAside(slot.value); }
      ret := 0;
    }

    /** A new kTCB behind all ready ones. */
    method Create(t: Tid)
      requires Valid() && running != IDLE && t !in tcbs
      modifies this`tcbs, this`readyThreadQueue
      ensures Valid() && Follows(old(State()), State(), ThreadCreate(t))
    {
      hide Inv, Follows;
      ghost var k := State();
      CreatedFollows(k, t);
      readyThreadQueue := readyThreadQueue + [t];
      tcbs := tcbs[t := Tcb(false, false, false, User, Ready)];
      assert State() == k.(tcbs := tcbs, ready := readyThreadQueue);
    }

    /** A new kTCB on no queue. */
    method CreateAside(t: Tid)
      requires Valid() && running != IDLE && t !in tcbs
      modifies this`tcbs
      ensures Valid() && Follows(old(State()), State(), PausedThreadCreate(t))
    {
      hide Inv, Follows;
      ghost var k := State();
      CreatedFollows(k, t);
      tcbs := tcbs[t := Tcb(false, false, true, User, Paused)];
      assert State() == k.(tcbs := tcbs);
    }

    /** pausedThreadCreate likewise, on no queue with or without a body. */
    method CreatePausedThread(slot: Option<Tid>) returns (ret: int)
      requires Valid() && running != IDLE && (slot.Some? ==> slot.value !in tcbs)
      modifies this
      ensures Valid()
      ensures slot == None ==> ret == 1 && State() == old(State())
      ensures slot.Some? ==> ret == 0 && Follows(old(State()), State(), PausedThreadCreate(slot.value))
    {
      if slot == None {
        return 1;
      }
      CreateAside(slot.value);
      ret := 0;
    }

    /** start. */
    method StartPaused(thread: Option<Tid>) returns (ret: int)
      requires Valid() && (thread.Some? ==> Legal(State(), Start(thread.value)))
      modifies this
      ensures Valid()
      ensures thread == None ==> State() == old(State()) && ret == -1
      ensures thread.Some? ==> Follows(old(State()), State(), Start(thread.value)) &&
                               ret == if HasStarted(old(State()), thread.value) then -1 else 0
    {
      hide Inv, Effect;
      if thread == None {
        return -1;
      }
      var t := thread.value;
      TrapKeeps(State(), Start(t));
      if tcbs[t].started {
        return -1;
      }
      tcbs := tcbs[t := tcbs[t].(started := true, place := Ready)];
      readyThreadQueue := readyThreadQueue + [t];
      ret := 0;
    }

    /** The thread_dispatch branch of the trap handler. */
    method ThreadDispatchTrap()
      requires Valid() && Legal(State(), ThreadDispatch)
      modifies this
      ensures Valid() && Follows(old(State()), State(), ThreadDispatch)
    {
      hide Inv, KernelSpec.Dispatch, Waking, Effect;
      ghost var k := State();
      ValidSound();
      TrapKeeps(k, ThreadDispatch);
      InvParts(k);
      runningTimeSlice := 0;
      CoreFrame(k, State(), Some(running));
      YieldRunning();
    }

    /** threadExit. */
    method ExitThread()
      requires Valid() && Legal(State(), ThreadExit)
      modifies this
      ensures Valid() && Follows(old(State()), State(), ThreadExit)
    {
      hide Inv, KernelSpec.Dispatch, Waking, Effect;
      ValidSound();
      TrapKeeps(State(), ThreadExit);
      InvParts(State());
      ParkGoneKeeps(State());
      NeverNull(ParkGone(State()));
      Dispatch(true);
    }
  }

  /** The sleepers awake removes, and those it leaves. */
  function Ended(d: seq<Sleeper>): seq<Tid> {
    if d == [] then [] else (if d[0].time == 0 then [d[0].thread] else []) + Ended(d[1..])
  }

  function Waiting(d: seq<Sleeper>): seq<Sleeper> {
    if d == [] then [] else (if d[0].time == 0 then [] else [d[0]]) + Waiting(d[1..])
  }

  function Decremented(q: seq<Sleeper>): seq<Sleeper> {
    if q == [] then [] else [q[0].(time := q[0].time - 1)] + Decremented(q[1..])
  }

  lemma {:induction false} TickIsAwake(q: seq<Sleeper>)
    ensures Ended(Decremented(q)) == Expired(q) && Waiting(Decremented(q)) == Remaining(q)
    ensures Threads(Decremented(q)) == Threads(q)
    decreases |q|
  {
    if q != [] {
      TickIsAwake(q[1..]);
      assert Decremented(q)[1..] == Decremented(q[1..]);
    }
  }

  lemma WaitingCons(e: Sleeper, q: seq<Sleeper>)
    ensures Waiting([e] + q) == if e.time == 0 then Waiting(q) else [e] + Waiting(q)
  {
    assert ([e] + q)[1..] == q;
  }

  lemma {:induction false} WaitingAppend(a: seq<Sleeper>, e: Sleeper)
    ensures Waiting(a + [e]) == if e.time == 0 then Waiting(a) else Waiting(a) + [e]
    decreases |a|
  {
    WaitingCons(e, []);
    if a == [] {
      assert a + [e] == [e] + [];
    } else {
      var h, t := a[0], a[1..];
      WaitingCons(h, t);
      WaitingCons(h, t + [e]);
      WaitingAppend(t, e);
      assert a == [h] + t && a + [e] == [h] + (t + [e]);
      assert ([h] + Waiting(t)) + [e] == [h] + (Waiting(t) + [e]);
    }
  }

  lemma AwakeStep(d: seq<Sleeper>, n: nat)
    requires n < |d|
    ensures Waiting(d[..n + 1]) == if d[n].time == 0 then Waiting(d[..n]) else Waiting(d[..n]) + [d[n]]
    ensures Ended(d[n..]) == if d[n].time == 0 then [d[n].thread] + Ended(d[n + 1..]) else Ended(d[n + 1..])
    ensures d[n].thread in Threads(d)
  {
    hide Waiting, Ended, Threads;
    PartAt(d, n);
    WaitingAppend(d[..n], d[n]);
    EndedCons(d[n], d[n + 1..]);
    ThreadListed(d, n);
  }

  lemma PartAt(d: seq<Sleeper>, n: nat)
    requires n < |d|
    ensures d[..n + 1] == d[..n] + [d[n]] && d[n..] == [d[n]] + d[n + 1..]
  {
  }

  lemma EndedCons(e: Sleeper, q: seq<Sleeper>)
    ensures Ended([e] + q) == if e.time == 0 then [e.thread] + Ended(q) else Ended(q)
  {
    assert ([e] + q)[1..] == q;
  }

  lemma {:induction false} ThreadListed(q: seq<Sleeper>, i: nat)
    requires i < |q|
    ensures q[i].thread in Threads(q)
    decreases i
  {
    if i > 0 {
      ThreadListed(q[1..], i - 1);
    }
  }

  /** The n first elements of the list d have been looked at; cur is the place in what is left of it. */
  ghost predicate AwakeInv(base: Kernel, goal: Kernel, d: seq<Sleeper>, n: nat, cur: nat, left: seq<Sleeper>,
                           ready: seq<Tid>, tcbs: map<Tid, Tcb>)
  {
    && n <= |d| && cur == |Waiting(d[..n])| && left == Waiting(d[..n]) + d[n..]
    && (forall t :: t in Threads(d) ==> t in tcbs)
    && MakeAllReady(base.(ready := ready, tcbs := tcbs), Ended(d[n..])) == goal
  }

  lemma AwakeBegin(base: Kernel, d: seq<Sleeper>, ready: seq<Tid>, tcbs: map<Tid, Tcb>)
    requires base.ready == ready && base.tcbs == tcbs && forall t :: t in Threads(d) ==> t in tcbs
    ensures AwakeInv(base, MakeAllReady(base, Ended(d)), d, 0, 0, d, ready, tcbs)
  {
    assert d[..0] == [] && d[0..] == d;
    assert base.(ready := ready, tcbs := tcbs) == base;
  }

  lemma AwakeIteration(base: Kernel, goal: Kernel, d: seq<Sleeper>, n: nat, cur: nat, left: seq<Sleeper>,
                       ready: seq<Tid>, tcbs: map<Tid, Tcb>)
    requires AwakeInv(base, goal, d, n, cur, left, ready, tcbs) && cur < |left|
    ensures n < |d| && left[cur] == d[n] && d[n].thread in tcbs
    ensures var t := d[n].thread;
      if d[n].time == 0 then
        AwakeInv(base, goal, d, n + 1, cur, left[..cur] + left[cur + 1..], ready + [t],
                 tcbs[t := tcbs[t].(blocked := false, place := Ready)])
      else AwakeInv(base, goal, d, n + 1, cur + 1, left, ready, tcbs)
  {
    hide Waiting, Ended, Threads, MakeAllReady;
    AwakeStep(d, n);
    SkipOne(Waiting(d[..n]), d, n);
    if d[n].time == 0 {
      WakeOne(base.(ready := ready, tcbs := tcbs), d[n].thread, Ended(d[n + 1..]));
    }
  }

  lemma AwakeEnd(base: Kernel, goal: Kernel, d: seq<Sleeper>, n: nat, cur: nat, left: seq<Sleeper>,
                 ready: seq<Tid>, tcbs: map<Tid, Tcb>)
    requires AwakeInv(base, goal, d, n, cur, left, ready, tcbs) && cur >= |left|
    ensures left == Waiting(d) && base.(ready := ready, tcbs := tcbs) == goal
  {
    assert n == |d| && d[..n] == d && d[n..] == [];
  }

  lemma SkipOne(a: seq<Sleeper>, d: seq<Sleeper>, n: nat)
    requires n < |d|
    ensures var l := a + d[n..];
      l[..|a|] + l[|a| + 1..] == a + d[n + 1..] && l == (a + [d[n]]) + d[n + 1..]
  {
  }

  lemma WakeOne(k: Kernel, t: Tid, rest: seq<Tid>)
    requires t in k.tcbs
    ensures MakeAllReady(k, [t] + rest) ==
            MakeAllReady(k.(tcbs := k.tcbs[t := k.tcbs[t].(blocked := false, place := Ready)], ready := k.ready + [t]), rest)
  {
    assert ([t] + rest)[1..] == rest;
  }

  lemma TransmitDone(k: Kernel, n: nat)
    requires n == 0 || k.output.size == 0
    ensures Transmit(k, n) == k
  {
  }

  lemma TransmitOne(k: Kernel, n: nat)
    requires n > 0 && k.output.size != 0
    ensures Transmit(k, n) == Transmit(SendOne(k), n - 1)
  {
  }

  lemma {:induction false} MakeAllReadyKeys(k: Kernel, ts: seq<Tid>)
    ensures MakeAllReady(k, ts).tcbs.Keys == k.tcbs.Keys
    decreases |ts|
  {
    if ts != [] {
      MakeAllReadyKeys(MakeReady(k, ts[0]), ts[1..]);
    }
  }

  predicate HasStarted(k: Kernel, t: Tid) {
    t in k.tcbs && k.tcbs[t].started
  }

  predicate BlocksOn(k: Kernel, s: SemId) {
    s in k.sems && WouldBlock(k.sems[s])
  }

  /** What a new thread adds, with its body to run and without. */
  lemma CreatedFollows(k: Kernel, t: Tid)
    requires Inv(k) && k.running != IDLE && t !in k.tcbs
    ensures var k' := k.(tcbs := k.tcbs[t := Tcb(false, false, false, User, Ready)], ready := k.ready + [t]);
      Inv(k') && Follows(k, k', ThreadCreate(t))
    ensures var k' := k.(tcbs := k.tcbs[t := Tcb(false, false, true, User, Paused)]);
      Inv(k') && Follows(k, k', PausedThreadCreate(t))
  {
    InvShape(k);
    hide Inv, Effect;
    TrapKeeps(k, ThreadCreate(t));
    TrapKeeps(k, PausedThreadCreate(t));
  }

  /** The 32-bit two's complement reading of val. */
  function SignedValue(val: nat): int {
    if val < 0x8000_0000 then val else val - 0x1_0000_0000
  }

  lemma SignedIs(val: nat)
    requires val < 0x1_0000_0000
    ensures AsInt(val) == SignedValue(val)
  {
  }

  /** Opening keeps the invariant exactly when the value stays below 2^31. */
  lemma OpenKept(k: Kernel, s: SemId, val: nat)
    requires Inv(k) && s !in k.sems && val < 0x1_0000_0000
    ensures Inv(Open(k, s, val)) <==> val < 0x8000_0000
  {
    if val < 0x8000_0000 {
      OpenKeepsInv(k, s, val);
    } else {
      OpenBalancedExactly(val);
      hide Balanced, AsInt;
      assert Open(k, s, val).sems[s] == Sem(AsInt(val), []);
      if Inv(Open(k, s, val)) {
        SemParts(Open(k, s, val).tcbs, Open(k, s, val).sems, s);
      }
    }
  }

  /** One trap takes k to k', and so does what its effect says. */
  ghost predicate Follows(k: Kernel, k': Kernel, e: Event) {
    Legal(k, e) && k' == Step(k, e) && Effect(k, e, k')
  }

  lemma TrapKeeps(k: Kernel, e: Event)
    requires Inv(k) && Legal(k, e)
    ensures Inv(Step(k, e)) && Effect(k, e, Step(k, e))
  {
    hide Inv, Step, Effect;
    StepKeeps(k, e);
    StepEffect(k, e);
  }

  /** Where dispatch's tests of the finished and blocked flags leave the running thread. */
  function Parked(k: Kernel, finished: bool): Kernel
    requires k.running in k.tcbs
  {
    if finished then ParkGone(k) else if k.tcbs[k.running].blocked then k else ParkReady(k)
  }
}
