/**
 The thread kernel as a state machine. A step is one trap: a system call of the running thread, a timer
 tick or a console interrupt. A trap that gives up the processor ends with the dispatch, and with it
 everything the thread dispatched to still does before its own trap returns.
 */
module KernelSpec {
  import opened Wrappers
  import opened Semaphores
  import opened Rings

  type SemId = nat

  const MAIN: Tid := 0
  const IDLE: Tid := 1

  /** getSem of src/kconsole.cpp:13; no handle to it ever leaves the kernel. */
  const GET_SEM: SemId := 0

  /** mainsem of src/main.cpp:17. */
  const MAIN_SEM: SemId := 1

  /** DEFAULT_TIME_SLICE of lib/hw.h:16. */
  const TIME_SLICE: nat := 2

  /** What a thread still does inside the kernel when it is next dispatched to. */
  datatype Cont = User | InWait | InGetchar

  /** History: where a thread is. The queues say so too; the invariant ties the two together. */
  datatype Place = Running | Ready | Queued(s: SemId) | Asleep | Paused

  /** A kTCB that has not finished. bornPaused is history: made by pausedThreadCreate. */
  datatype Tcb = Tcb(blocked: bool, started: bool, bornPaused: bool, cont: Cont, place: Place)

  /** ktimeSleepQueue's Elem. */
  datatype Sleeper = Sleeper(thread: Tid, time: int)

  /** History of one semaphore: opening value, signals, and the threads that began a wait and were granted one. */
  datatype Hist = Hist(initial: int, signals: nat, arrivals: seq<Tid>, granted: seq<Tid>)

  /** History of the whole run. results lists the results of waits that had blocked; read the characters getchar gave out. */
  datatype Log = Log(
    ticks: nat,
    dispatches: nat,
    results: seq<(Tid, int)>,
    released: set<Tid>,
    accepted: seq<char>,
    read: seq<(Tid, char)>,
    printed: seq<char>,
    sent: seq<char>)

  datatype Kernel = Kernel(
    running: Tid,
    ready: seq<Tid>,
    tcbs: map<Tid, Tcb>,
    sems: map<SemId, Sem>,
    sleepers: seq<Sleeper>,
    slice: nat,
    input: Ring,
    output: Ring,
    hist: map<SemId, Hist>,
    log: Log)

  /** The kernel when main enables interrupts: main runs and idle is ready (src/main.cpp:26-42). */
  function Init(): Kernel {
    Kernel(MAIN, [IDLE],
           map[MAIN := Tcb(false, false, false, User, Running), IDLE := Tcb(false, false, false, User, Ready)],
           map[GET_SEM := Sem(0, []), MAIN_SEM := Sem(0, [])], [], 0, EmptyRing(), EmptyRing(),
           map[GET_SEM := Hist(0, 0, [], []), MAIN_SEM := Hist(0, 0, [], [])], Log(0, 0, [], {}, [], [], [], []))
  }

  // ---------------------------------------------------------------- leaving the processor

  predicate Shape(k: Kernel) {
    k.running in k.tcbs && GET_SEM in k.sems && k.hist.Keys == k.sems.Keys
  }

  /** kScheduler::put of the running thread in dispatch (src/ktcb.cpp:44-46). */
  function ParkReady(k: Kernel): Kernel
    requires k.running in k.tcbs
  {
    k.(ready := k.ready + [k.running],
       tcbs := k.tcbs[k.running := k.tcbs[k.running].(place := Ready)])
  }

  /** A finished thread is put nowhere and its kTCB is freed (src/ktcb.cpp:50-55). */
  function ParkGone(k: Kernel): Kernel {
    k.(tcbs := k.tcbs - {k.running})
  }

  /** block of src/ksemaphore.cpp:49-54, after the decrement. */
  function ParkQueued(k: Kernel, s: SemId, cont: Cont): Kernel
    requires k.running in k.tcbs && s in k.sems && s in k.hist
  {
    k.(sems := k.sems[s := WaitOn(k.sems[s], k.running)],
       hist := k.hist[s := k.hist[s].(arrivals := k.hist[s].arrivals + [k.running])],
       tcbs := k.tcbs[k.running := k.tcbs[k.running].(blocked := true, cont := cont, place := Queued(s))])
  }

  /** The new head of the sleep queue (src/ktimeSleepQueue.cpp:12-16). */
  function ParkAsleep(k: Kernel, n: int): Kernel
    requires k.running in k.tcbs
  {
    k.(sleepers := [Sleeper(k.running, n)] + k.sleepers,
       tcbs := k.tcbs[k.running := k.tcbs[k.running].(blocked := true, place := Asleep)])
  }

  // ---------------------------------------------------------------- taking the processor

  /** The end of getchar for thread t: one character leaves the input buffer. */
  function ReadChar(k: Kernel, t: Tid): Kernel {
    k.(input := RingGet(k.input),
       log := k.log.(read := k.log.read + [(t, RingFirst(k.input))]))
  }

  /** What the thread just dispatched to does up to the end of its own trap (src/ksemaphore.cpp:11-15). */
  function Resume(k: Kernel, t: Tid, c: Tcb): Kernel {
    match c.cont
    case User => k.(tcbs := k.tcbs[t := c.(place := Running)])
    case InWait =>
      k.(tcbs := k.tcbs[t := c.(blocked := false, cont := User, place := Running)],
         log := k.log.(results := k.log.results + [(t, if c.blocked then -1 else 0)],
                       released := k.log.released - {t}))
    case InGetchar =>
      ReadChar(k.(tcbs := k.tcbs[t := c.(blocked := false, cont := User, place := Running)],
                  log := k.log.(released := k.log.released - {t})), t)
  }

  /** running = kScheduler::get() and the switch to it. With nothing ready the kernel would have no thread to run. */
  function Next(k: Kernel): Kernel
    requires k.ready != [] && k.ready[0] in k.tcbs
  {
    var t := k.ready[0];
    Resume(k.(running := t, ready := k.ready[1..], log := k.log.(dispatches := k.log.dispatches + 1)), t, k.tcbs[t])
  }

  predicate CanDispatch(k: Kernel) {
    k.ready != [] && k.ready[0] in k.tcbs
  }

  /** A parked state with nothing to run is left as it is; no reachable state gets there. */
  function Dispatch(k: Kernel): Kernel {
    if CanDispatch(k) then Next(k) else k
  }

  // ---------------------------------------------------------------- semaphores

  /** A wait that finds a token. */
  function Taken(k: Kernel, s: SemId): Kernel
    requires s in k.sems && s in k.hist
  {
    var h := k.hist[s];
    k.(sems := k.sems[s := WaitOn(k.sems[s], k.running)],
       hist := k.hist[s := h.(arrivals := h.arrivals + [k.running], granted := h.granted + [k.running])])
  }

  function Wait(k: Kernel, s: SemId, cont: Cont): Kernel
    requires Shape(k) && s in k.sems
  {
    if WouldBlock(k.sems[s]) then Dispatch(ParkQueued(k, s, cont))
    else if cont.InGetchar? then ReadChar(Taken(k, s), k.running)
    else Taken(k, s)
  }

  /** kScheduler::put of a woken thread whose blocked flag has been cleared. */
  function MakeReady(k: Kernel, t: Tid): Kernel {
    if t in k.tcbs then k.(ready := k.ready + [t], tcbs := k.tcbs[t := k.tcbs[t].(blocked := false, place := Ready)])
    else k
  }

  function Signal(k: Kernel, s: SemId): Kernel
    requires Shape(k) && s in k.sems
  {
    var h := k.hist[s];
    var k1 := k.(sems := k.sems[s := SignalOn(k.sems[s])]);
    match Woken(k.sems[s])
    case None => k1.(hist := k.hist[s := h.(signals := h.signals + 1)])
    case Some(t) =>
      MakeReady(k1.(hist := k.hist[s := h.(signals := h.signals + 1, granted := h.granted + [t])]), t)
  }

  function AllReady(tcbs: map<Tid, Tcb>, q: seq<Tid>): map<Tid, Tcb> {
    map t | t in tcbs :: if t in q then tcbs[t].(place := Ready) else tcbs[t]
  }

  /** Every waiter becomes ready with its blocked flag still set (src/ksemaphore.cpp:37-47). */
  function Close(k: Kernel, s: SemId): Kernel
    requires s in k.sems
  {
    var q := k.sems[s].queue;
    k.(ready := k.ready + q,
       tcbs := AllReady(k.tcbs, q),
       sems := k.sems - {s},
       hist := k.hist - {s},
       log := k.log.(released := k.log.released + (set t | t in q)))
  }

  /** (int)val of src/ksemaphore.cpp:32 for a 32-bit val. */
  function AsInt(val: nat): int {
    var v := val % 0x1_0000_0000;
    if v < 0x8000_0000 then v else v - 0x1_0000_0000
  }

  function Open(k: Kernel, s: SemId, val: nat): Kernel {
    k.(sems := k.sems[s := Sem(AsInt(val), [])], hist := k.hist[s := Hist(AsInt(val), 0, [], [])])
  }

  // ---------------------------------------------------------------- timer

  /** Sleepers whose countdown this tick ends, in list order. */
  function Expired(q: seq<Sleeper>): seq<Tid> {
    if q == [] then [] else (if q[0].time == 1 then [q[0].thread] else []) + Expired(q[1..])
  }

  /** The sleep queue after one tick: every countdown one less, the ended ones gone. */
  function Remaining(q: seq<Sleeper>): seq<Sleeper> {
    if q == [] then [] else (if q[0].time == 1 then [] else [q[0].(time := q[0].time - 1)]) + Remaining(q[1..])
  }

  function MakeAllReady(k: Kernel, ts: seq<Tid>): Kernel
    decreases |ts|
  {
    if ts == [] then k else MakeAllReady(MakeReady(k, ts[0]), ts[1..])
  }

  /** updateTime with its awake. */
  function UpdateTime(k: Kernel): Kernel {
    MakeAllReady(k.(sleepers := Remaining(k.sleepers)), Expired(k.sleepers))
  }

  /** The timer branch of src/supervisorTrapHandler.cpp:127-141. */
  function Tick(k: Kernel): Kernel
    requires k.running in k.tcbs
  {
    var k1 := UpdateTime(k.(slice := k.slice + 1, log := k.log.(ticks := k.log.ticks + 1)));
    if k1.slice >= TIME_SLICE && k1.running in k1.tcbs then Dispatch(ParkReady(k1.(slice := 0))) else k1
  }

  // ---------------------------------------------------------------- console

  /** What the device reports to one run of handle: how often it can transmit, and the characters it has received. */
  datatype Device = Device(txReady: nat, rx: seq<char>)

  function Transmit(k: Kernel, n: nat): Kernel
    decreases n
  {
    if n == 0 || k.output.size == 0 then k
    else
      Transmit(k.(output := RingGet(k.output), log := k.log.(sent := k.log.sent + [RingFirst(k.output)])), n - 1)
  }

  function Receive(k: Kernel, c: char): Kernel
    requires Shape(k)
  {
    if k.input.size == BUFFER_SIZE then k
    else Signal(k.(input := RingPut(k.input, c), log := k.log.(accepted := k.log.accepted + [c])), GET_SEM)
  }

  function ReceiveAll(k: Kernel, rx: seq<char>): Kernel
    decreases |rx|
  {
    if rx == [] || !Shape(k) then k else ReceiveAll(Receive(k, rx[0]), rx[1..])
  }

  function Handle(k: Kernel, d: Device): Kernel {
    ReceiveAll(Transmit(k, d.txReady), d.rx)
  }

  function Putchar(k: Kernel, c: char, d: Device): Kernel {
    if k.output.size == BUFFER_SIZE then k
    else Handle(k.(output := RingPut(k.output, c), log := k.log.(printed := k.log.printed + [c])), d)
  }

  // ---------------------------------------------------------------- traps

  datatype Event =
    | ThreadCreate(t: Tid)
    | PausedThreadCreate(t: Tid)
    | Start(t: Tid)
    | ThreadDispatch
    | ThreadExit
    | SemOpen(s: SemId, val: nat)
    | SemClose(s: SemId)
    | SemWait(s: SemId)
    | SemSignal(s: SemId)
    | TimeSleep(n: nat)
    | Getc
    | Putc(c: char, d: Device)
    | TimerTick
    | ConsoleInterrupt(d: Device)

  /** What callers must respect: fresh identities for what is created, open semaphores for what is used, start only
      for threads made paused; and idle does nothing but dispatch (src/main.cpp:9-13). */
  predicate Legal(k: Kernel, e: Event) {
    && Shape(k)
    && (k.running == IDLE ==> e.ThreadDispatch? || e.TimerTick? || e.ConsoleInterrupt?)
    && match e
       case ThreadCreate(t) => t !in k.tcbs
       case PausedThreadCreate(t) => t !in k.tcbs
       case Start(t) => t in k.tcbs && k.tcbs[t].bornPaused
       case SemOpen(s, val) => s !in k.sems && val < 0x8000_0000
       case SemClose(s) => s in k.sems && s != GET_SEM
       case SemWait(s) => s in k.sems && s != GET_SEM
       case SemSignal(s) => s in k.sems && s != GET_SEM
       case _ => true
  }

  function Spawn(k: Kernel, t: Tid, paused: bool): Kernel {
    var c := Tcb(false, false, paused, User, if paused then Paused else Ready);
    k.(tcbs := k.tcbs[t := c], ready := if paused then k.ready else k.ready + [t])
  }

  /** start of src/ktcb.cpp:105-112 returns -1 without effect for a thread already started. */
  function StartThread(k: Kernel, t: Tid): Kernel
    requires t in k.tcbs
  {
    if k.tcbs[t].started then k
    else k.(ready := k.ready + [t], tcbs := k.tcbs[t := k.tcbs[t].(started := true, place := Ready)])
  }

  function Step(k: Kernel, e: Event): Kernel
    requires Legal(k, e)
  {
    match e
    case ThreadCreate(t) => Spawn(k, t, false)
    case PausedThreadCreate(t) => Spawn(k, t, true)
    case Start(t) => StartThread(k, t)
    case ThreadDispatch => Dispatch(ParkReady(k.(slice := 0)))
    case ThreadExit => Dispatch(ParkGone(k))
    case SemOpen(s, val) => Open(k, s, val)
    case SemClose(s) => Close(k, s)
    case SemWait(s) => Wait(k, s, InWait)
    case SemSignal(s) => Signal(k, s)
    case TimeSleep(n) => if n == 0 then k.(slice := 0) else Dispatch(ParkAsleep(k.(slice := 0), n))
    case Getc => Wait(k, GET_SEM, InGetchar)
    case Putc(c, d) => Putchar(k, c, d)
    case TimerTick => Tick(k)
    case ConsoleInterrupt(d) => Handle(k, d)
  }
}
