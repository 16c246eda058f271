/** test/buffer.cpp in place: the buffer array, head and tail, moved one statement of one thread at a time. */
module SharedBuffers {
  import opened Wrappers
  import opened Semaphores
  import opened BufferSpec
  import opened BufferInvariant
  import opened BufferSteps
  import BufferTheorems

  class SharedBuffer {
    const capacity: nat
    const buffer: array<int>
    var head: int
    var tail: int
    /** spaceAvailable, itemAvailable, mutexHead and mutexTail. */
    var sems: seq<Sem>
    /** The statement each thread comes to next. */
    var pcs: seq<Pc>
    ghost var written: seq<int>
    ghost var taken: seq<int>

    ghost function State(): Buffer
      reads this, buffer
    {
      Buffer(capacity, buffer[..], head, tail, sems, pcs, written, taken)
    }

    ghost predicate Valid()
      reads this, buffer
    {
      Inv(State())
    }

    constructor (capacity: nat, threads: nat)
      ensures Valid() && State() == Init(capacity, threads)
    {
      this.capacity := capacity;
      buffer := new int[capacity + 1](_ => 0);
      head, tail := 0, 0;
      sems := [Sem(capacity, []), Sem(0, []), Sem(1, []), Sem(1, [])];
      pcs := seq(threads, _ => Idle);
      written, taken := [], [];
      new;
      BufferTheorems.InitInv(capacity, threads);
      assert buffer[..] == seq(capacity + 1, _ => 0);
    }

    /** sem_wait(x) by thread t. */
    method Wait(t: Tid, x: nat, blocked: Pc)
      requires t < |pcs| && x < |sems|
      modifies this`sems, this`pcs
      ensures State() == BufferSpec.SemWait(old(State()), t, x, blocked)
    {
      var s := sems[x];
      if s.value - 1 < 0 {
        sems := sems[x := Sem(s.value - 1, s.queue + [t])];
        pcs := pcs[t := blocked];
      } else {
        sems := sems[x := Sem(s.value - 1, s.queue)];
        pcs := pcs[t := AfterWait(blocked)];
      }
    }

    /** sem_signal(x) by thread t. */
    method Signal(t: Tid, x: nat, next: Pc)
      requires t < |pcs| && x < |sems|
      modifies this`sems, this`pcs
      ensures State() == BufferSpec.SemSignal(old(State()), t, x, next)
    {
      pcs := pcs[t := next];
      var s := sems[x];
      if s.value + 1 <= 0 && s.queue != [] {
        var w := s.queue[0];
        if w < |pcs| {
          pcs := pcs[w := AfterWait(pcs[w])];
        }
        sems := sems[x := Sem(s.value + 1, s.queue[1..])];
      } else {
        sems := sems[x := Sem(s.value + 1, s.queue)];
      }
    }

    /** put up to its next statement boundary. */
    method PutStep(t: Tid)
      requires Shape(State()) && Enabled(State(), t, Go) && InPut(pcs[t])
      modifies this, buffer
      ensures State() == Step(old(State()), t, Go)
    {
      hide BufferSpec.SemWait, BufferSpec.SemSignal;
      match pcs[t]
      case PutLock(v) => Wait(t, TAIL, PutWaitTail(v));
      case PutWrite(v) =>
        buffer[tail] := v;
        written := written + [v];
        pcs := pcs[t := PutAdvance];
      case PutAdvance =>
        tail := (tail + 1) % buffer.Length;
        pcs := pcs[t := PutUnlock];
      case PutUnlock => Signal(t, TAIL, PutSignal);
      case PutSignal => Signal(t, ITEM, Idle);
    }

    /** get up to its next statement boundary. */
    method GetStep(t: Tid)
      requires Shape(State()) && Enabled(State(), t, Go) && InGet(pcs[t])
      modifies this
      ensures State() == Step(old(State()), t, Go)
    {
      hide BufferSpec.SemWait, BufferSpec.SemSignal;
      match pcs[t]
      case GetLock => Wait(t, HEAD, GetWaitHead);
      case GetRead =>
        var ret := buffer[head];
        taken := taken + [ret];
        pcs := pcs[t := GetAdvance(ret)];
      case GetAdvance(r) =>
        head := (head + 1) % buffer.Length;
        pcs := pcs[t := GetUnlock(r)];
      case GetUnlock(r) => Signal(t, HEAD, GetSignal(r));
      case GetSignal(r) => Signal(t, SPACE, Idle);
    }

    /** getCnt up to its next statement boundary. */
    method CountStep(t: Tid)
      requires Shape(State()) && Enabled(State(), t, Go) && InCount(pcs[t])
      modifies this
      ensures State() == Step(old(State()), t, Go)
    {
      hide BufferSpec.SemWait, BufferSpec.SemSignal;
      match pcs[t]
      case CntLockTail => Wait(t, TAIL, CntWaitTail);
      case CntCompare => pcs := pcs[t := CntCompute(tail >= head)];
      case CntCompute(ordered) =>
        pcs := pcs[t := CntUnlockTail(if ordered then tail - head else buffer.Length - head + tail)];
      case CntUnlockTail(r) => Signal(t, TAIL, CntUnlockHead(r));
      case CntUnlockHead(r) => Signal(t, HEAD, Idle);
    }

    /** An idle thread calls an operation, which begins with a wait, or finishes. */
    method Begin(t: Tid, a: Action)
      requires Shape(State()) && Enabled(State(), t, a) && pcs[t] == Idle
      modifies this
      ensures State() == Step(old(State()), t, a)
    {
      hide BufferSpec.SemWait, BufferSpec.SemSignal;
      match a
      case Put(v) => Wait(t, SPACE, PutWaitSpace(v));
      case Get => Wait(t, ITEM, GetWaitItem);
      case Count => Wait(t, HEAD, CntWaitHead);
      case Finish => pcs := pcs[t := Done];
      case Go => assert false;
    }

    /** Any thread that can move moves by one statement; the buffer stays in order whichever it is. */
    method Advance(t: Tid, a: Action)
      requires Valid() && Enabled(State(), t, a)
      modifies this, buffer
      ensures Valid() && State() == Step(old(State()), t, a)
    {
      InvShape(State());
      hide Inv, Step;
      StepKeeps(State(), t, a);
      if pcs[t] == Idle {
        Begin(t, a);
      } else if InPut(pcs[t]) {
        PutStep(t);
      } else if InGet(pcs[t]) {
        GetStep(t);
      } else {
        CountStep(t);
      }
    }
  }

  /** Between the statements of put, of get and of getCnt. */
  predicate InPut(p: Pc) {
    p.PutLock? || p.PutWrite? || p.PutAdvance? || p.PutUnlock? || p.PutSignal?
  }

  predicate InGet(p: Pc) {
    p.GetLock? || p.GetRead? || p.GetAdvance? || p.GetUnlock? || p.GetSignal?
  }

  predicate InCount(p: Pc) {
    p.CntLockTail? || p.CntCompare? || p.CntCompute? || p.CntUnlockTail? || p.CntUnlockHead?
  }

  lemma InvShape(s: Buffer)
    requires Inv(s)
    ensures Shape(s)
  {
  }
}
