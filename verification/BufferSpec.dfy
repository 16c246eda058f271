/**
 The bounded buffer of test/buffer.cpp as a concurrent protocol: any number of threads run put, get and
 getCnt, and may be preempted between any two statements. One step executes one statement of one thread.
 */
module BufferSpec {
  import opened Wrappers
  import opened Semaphores

  const SPACE: nat := 0
  const ITEM: nat := 1
  const HEAD: nat := 2
  const TAIL: nat := 3

  /** What a thread does next. A Wait point is a thread blocked inside sem_wait. */
  datatype Pc =
    | Idle
    | Done
    | PutWaitSpace(v: int)
    | PutLock(v: int)
    | PutWaitTail(v: int)
    | PutWrite(v: int)
    | PutAdvance
    | PutUnlock
    | PutSignal
    | GetWaitItem
    | GetLock
    | GetWaitHead
    | GetRead
    | GetAdvance(ret: int)
    | GetUnlock(ret: int)
    | GetSignal(ret: int)
    | CntWaitHead
    | CntLockTail
    | CntWaitTail
    | CntCompare
    | CntCompute(ordered: bool)
    | CntUnlockTail(ret: int)
    | CntUnlockHead(ret: int)

  /** What an idle thread decides to do; every other thread just goes on. */
  datatype Action = Put(v: int) | Get | Count | Finish | Go

  /** written and taken are history: the values stored into and loaded from slots so far, in order. */
  datatype Buffer = Buffer(
    capacity: nat,
    slots: seq<int>,
    head: int,
    tail: int,
    sems: seq<Sem>,
    pcs: seq<Pc>,
    written: seq<int>,
    taken: seq<int>)

  /** cap of test/buffer.cpp:3: one slot more than the capacity asked for. */
  function Slots(s: Buffer): nat {
    s.capacity + 1
  }

  function Init(capacity: nat, threads: nat): Buffer {
    Buffer(capacity, seq(capacity + 1, _ => 0), 0, 0,
           [Sem(capacity, []), Sem(0, []), Sem(1, []), Sem(1, [])],
           seq(threads, _ => Idle), [], [])
  }

  /** The semaphore a blocked thread waits for; 4 when it is not blocked. */
  function WaitsFor(p: Pc): nat {
    match p
    case PutWaitSpace(_) => SPACE
    case GetWaitItem => ITEM
    case GetWaitHead => HEAD
    case CntWaitHead => HEAD
    case PutWaitTail(_) => TAIL
    case CntWaitTail => TAIL
    case _ => 4
  }

  /** Where a blocked thread is once its wait has returned. */
  function AfterWait(p: Pc): Pc {
    match p
    case PutWaitSpace(v) => PutLock(v)
    case PutWaitTail(v) => PutWrite(v)
    case GetWaitItem => GetLock
    case GetWaitHead => GetRead
    case CntWaitHead => CntLockTail
    case CntWaitTail => CntCompare
    case _ => p
  }

  /** sem_wait(x) by thread t, which is at `blocked` while it waits. */
  function SemWait(s: Buffer, t: Tid, x: nat, blocked: Pc): Buffer
    requires t < |s.pcs| && x < |s.sems|
  {
    s.(sems := s.sems[x := WaitOn(s.sems[x], t)],
       pcs := s.pcs[t := if WouldBlock(s.sems[x]) then blocked else AfterWait(blocked)])
  }

  function Wake(pcs: seq<Pc>, w: Option<Tid>): seq<Pc> {
    if w.Some? && w.value < |pcs| then pcs[w.value := AfterWait(pcs[w.value])] else pcs
  }

  /** sem_signal(x) by thread t, which is at `next` afterwards. */
  function SemSignal(s: Buffer, t: Tid, x: nat, next: Pc): Buffer
    requires t < |s.pcs| && x < |s.sems|
  {
    s.(sems := s.sems[x := SignalOn(s.sems[x])],
       pcs := Wake(s.pcs[t := next], Woken(s.sems[x])))
  }

  predicate Blocked(p: Pc) {
    WaitsFor(p) < 4
  }

  /** A thread can take a step when it is neither finished nor blocked, and the action fits where it is. */
  predicate Enabled(s: Buffer, t: Tid, a: Action) {
    && t < |s.pcs|
    && s.pcs[t] != Done
    && !Blocked(s.pcs[t])
    && (s.pcs[t] == Idle <==> a != Go)
  }

  predicate Shape(s: Buffer) {
    |s.sems| == 4 && |s.slots| == Slots(s) && 0 <= s.head < Slots(s) && 0 <= s.tail < Slots(s)
  }

  function Step(s: Buffer, t: Tid, a: Action): Buffer
    requires Shape(s) && Enabled(s, t, a)
  {
    match s.pcs[t]
    case Idle =>
      (match a
       case Put(v) => SemWait(s, t, SPACE, PutWaitSpace(v))
       case Get => SemWait(s, t, ITEM, GetWaitItem)
       case Count => SemWait(s, t, HEAD, CntWaitHead)
       case _ => s.(pcs := s.pcs[t := Done]))
    case PutLock(v) => SemWait(s, t, TAIL, PutWaitTail(v))
    case PutWrite(v) =>
      s.(slots := s.slots[s.tail := v], written := s.written + [v], pcs := s.pcs[t := PutAdvance])
    case PutAdvance => s.(tail := (s.tail + 1) % Slots(s), pcs := s.pcs[t := PutUnlock])
    case PutUnlock => SemSignal(s, t, TAIL, PutSignal)
    case PutSignal => SemSignal(s, t, ITEM, Idle)
    case GetLock => SemWait(s, t, HEAD, GetWaitHead)
    case GetRead =>
      s.(taken := s.taken + [s.slots[s.head]], pcs := s.pcs[t := GetAdvance(s.slots[s.head])])
    case GetAdvance(r) => s.(head := (s.head + 1) % Slots(s), pcs := s.pcs[t := GetUnlock(r)])
    case GetUnlock(r) => SemSignal(s, t, HEAD, GetSignal(r))
    case GetSignal(r) => SemSignal(s, t, SPACE, Idle)
    case CntLockTail => SemWait(s, t, TAIL, CntWaitTail)
    case CntCompare => s.(pcs := s.pcs[t := CntCompute(s.tail >= s.head)])
    case CntCompute(ordered) =>
      s.(pcs := s.pcs[t := CntUnlockTail(if ordered then s.tail - s.head else Slots(s) - s.head + s.tail)])
    case CntUnlockTail(r) => SemSignal(s, t, TAIL, CntUnlockHead(r))
    case CntUnlockHead(r) => SemSignal(s, t, HEAD, Idle)
    case _ => s
  }
}
