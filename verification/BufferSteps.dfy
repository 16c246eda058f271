/** The statements of put, get and getCnt that touch the ring keep the invariant. */
module BufferSteps {
  import opened Semaphores
  import opened BufferSpec
  import opened BufferInvariant

  /** Program counters after a step of t that touches no semaphore. */
  ghost predicate LocalMove(s: Buffer, s': Buffer, t: Tid) {
    && t < |s.pcs| == |s'.pcs| && s'.sems == s.sems && s'.pcs == s.pcs[t := s'.pcs[t]] && s'.capacity == s.capacity
    && !Blocked(s.pcs[t]) && !Blocked(s'.pcs[t])
  }

  lemma LocalQueues(s: Buffer, s': Buffer, t: Tid)
    requires Queues(s.sems, s.pcs) && LocalMove(s, s', t)
    ensures Queues(s'.sems, s'.pcs)
  {
    forall y | 0 <= y < 4
      ensures QueueOf(s'.sems[y], s'.pcs, y)
    {
      assert QueueOf(s.sems[y], s.pcs, y);
    }
  }

  lemma LocalTokens(s: Buffer, s': Buffer, t: Tid)
    requires Tokens(s) && LocalMove(s, s', t)
    requires forall y :: 0 <= y < 4 ==> Supply(s', y) - Supply(s, y) == Bit(y, s'.pcs[t]) - Bit(y, s.pcs[t])
    ensures Tokens(s')
  {
    hide Available, Supply, Holds;
    MoveTally(s.pcs, t, s'.pcs[t]);
    forall y | 0 <= y < 4
      ensures TokensOf(s', y)
    {
      assert TokensOf(s, y);
    }
  }

  /** Nobody else is between the two mutexes of getCnt while t is inside either critical section. */
  lemma NobodyCounting(s: Buffer, t: Tid)
    requires Inv(s) && t < |s.pcs| && (Holds(HEAD, s.pcs[t]) || Holds(TAIL, s.pcs[t]))
    ensures forall u :: 0 <= u < |s.pcs| && u != t ==> NotCounting(s.pcs[u])
  {
    forall u | 0 <= u < |s.pcs| && u != t
      ensures NotCounting(s.pcs[u])
    {
      OnlyHolder(s, t, u, HEAD);
      OnlyHolder(s, t, u, TAIL);
    }
  }

  /** A thread about to store has reserved a slot that is not unread. */
  lemma SlotReserved(s: Buffer, t: Tid)
    requires Inv(s) && t < |s.pcs| && s.pcs[t].PutWrite?
    ensures s.tail == |s.written| % Slots(s)
    ensures Unread(s) < s.capacity
    ensures forall i :: |s.taken| <= i < |s.written| ==> i % Slots(s) != s.tail
  {
    assert TokensOf(s, SPACE);
    TallyPositive(s.pcs, t, SPACE);
    NothingPending(s, t);
    forall i | |s.taken| <= i < |s.written|
      ensures i % Slots(s) != s.tail
    {
      RingDiffer(|s.written|, i, Slots(s));
    }
  }

  /** A thread about to load finds the oldest unread value. */
  lemma ValueReserved(s: Buffer, t: Tid)
    requires Inv(s) && t < |s.pcs| && s.pcs[t].GetRead?
    ensures s.head == |s.taken| % Slots(s)
    ensures Unread(s) > 0 && s.slots[s.head] == s.written[|s.taken|]
  {
    assert TokensOf(s, ITEM);
    TallyPositive(s.pcs, t, ITEM);
    NothingPending(s, t);
  }

  ghost predicate At(s: Buffer, t: Tid) {
    Inv(s) && Shape(s) && Enabled(s, t, Go)
  }

  /** Assembles the invariant after a local step from the data part and the shift in token supply. */
  lemma LocalKeeps(s: Buffer, s': Buffer, t: Tid)
    requires Inv(s) && DataInv(s') && LocalMove(s, s', t)
    requires forall y :: 0 <= y < 4 ==> Supply(s', y) - Supply(s, y) == Bit(y, s'.pcs[t]) - Bit(y, s.pcs[t])
    requires CountInv(s')
    ensures Inv(s')
  {
    hide Inv, DataInv, CountInv, Supply, Bit, Queues, Tokens;
    InvParts(s);
    LocalQueues(s, s', t);
    LocalTokens(s, s', t);
    InvParts(s');
  }

  /** After a step inside a critical section nobody else is counting. */
  lemma AloneCounts(s: Buffer, s': Buffer, t: Tid)
    requires Inv(s) && t < |s.pcs| && (Holds(HEAD, s.pcs[t]) || Holds(TAIL, s.pcs[t]))
    requires LocalMove(s, s', t) && NotCounting(s'.pcs[t])
    ensures CountInv(s')
  {
    NobodyCounting(s, t);
  }

  lemma WriteData(s: Buffer, t: Tid)
    requires At(s, t) && s.pcs[t].PutWrite?
    ensures DataInv(Step(s, t, Go))
  {
    SlotReserved(s, t);
    MoveTally(s.pcs, t, PutAdvance);
    NothingPending(s, t);
  }

  /** buffer[tail] = val */
  lemma WriteKeeps(s: Buffer, t: Tid)
    requires At(s, t) && s.pcs[t].PutWrite?
    ensures Inv(Step(s, t, Go))
  {
    var s' := Step(s, t, Go);
    WriteData(s, t);
    AloneCounts(s, s', t);
    LocalKeeps(s, s', t);
  }

  lemma AdvanceTailData(s: Buffer, t: Tid)
    requires At(s, t) && s.pcs[t].PutAdvance?
    ensures DataInv(Step(s, t, Go))
  {
    MoveTally(s.pcs, t, PutUnlock);
    NothingPending(s, t);
    RingNext(|s.written| - 1, Slots(s));
  }

  /** tail = (tail + 1) % cap */
  lemma AdvanceTailKeeps(s: Buffer, t: Tid)
    requires At(s, t) && s.pcs[t].PutAdvance?
    ensures Inv(Step(s, t, Go))
  {
    var s' := Step(s, t, Go);
    AdvanceTailData(s, t);
    AloneCounts(s, s', t);
    LocalKeeps(s, s', t);
  }

  lemma ReadData(s: Buffer, t: Tid)
    requires At(s, t) && s.pcs[t].GetRead?
    ensures DataInv(Step(s, t, Go))
  {
    ValueReserved(s, t);
    MoveTally(s.pcs, t, GetAdvance(s.slots[s.head]));
    NothingPending(s, t);
  }

  /** ret = buffer[head] */
  lemma ReadKeeps(s: Buffer, t: Tid)
    requires At(s, t) && s.pcs[t].GetRead?
    ensures Inv(Step(s, t, Go))
  {
    var s' := Step(s, t, Go);
    ReadData(s, t);
    AloneCounts(s, s', t);
    LocalKeeps(s, s', t);
  }

  lemma AdvanceHeadData(s: Buffer, t: Tid)
    requires At(s, t) && s.pcs[t].GetAdvance?
    ensures DataInv(Step(s, t, Go))
  {
    MoveTally(s.pcs, t, GetUnlock(s.pcs[t].ret));
    NothingPending(s, t);
    RingNext(|s.taken| - 1, Slots(s));
  }

  /** head = (head + 1) % cap */
  lemma AdvanceHeadKeeps(s: Buffer, t: Tid)
    requires At(s, t) && s.pcs[t].GetAdvance?
    ensures Inv(Step(s, t, Go))
  {
    var s' := Step(s, t, Go);
    AdvanceHeadData(s, t);
    AloneCounts(s, s', t);
    LocalKeeps(s, s', t);
  }

  /** The distance getCnt computes is the number of unread values. */
  lemma CountIsUnread(s: Buffer, t: Tid)
    requires Inv(s) && t < |s.pcs| && Holds(HEAD, s.pcs[t]) && Holds(TAIL, s.pcs[t])
    requires !s.pcs[t].PutAdvance? && !s.pcs[t].GetAdvance?
    ensures Unread(s) == if s.tail >= s.head then s.tail - s.head else Slots(s) - s.head + s.tail
  {
    NothingPending(s, t);
    RingDistance(|s.written|, |s.taken|, Slots(s));
  }

  lemma CountingCounts(s: Buffer, t: Tid, a: Action)
    requires Inv(s) && Shape(s) && Enabled(s, t, a)
    requires s.pcs[t].CntCompare? || s.pcs[t].CntCompute? || (s.pcs[t].Idle? && a.Finish?)
    ensures CountInv(Step(s, t, a))
  {
    if s.pcs[t].CntCompute? {
      CountIsUnread(s, t);
    }
  }

  /** The statements of getCnt, and an idle thread that finishes. */
  lemma CountingKeeps(s: Buffer, t: Tid, a: Action)
    requires Inv(s) && Shape(s) && Enabled(s, t, a)
    requires s.pcs[t].CntCompare? || s.pcs[t].CntCompute? || (s.pcs[t].Idle? && a.Finish?)
    ensures Inv(Step(s, t, a))
  {
    hide Inv, DataInv, CountInv, Supply, Tally;
    var s' := Step(s, t, a);
    InvParts(s);
    MoveTally(s.pcs, t, s'.pcs[t]);
    UnmovedKeeps(s, s');
    CountingCounts(s, t, a);
    SupplySame(s, s');
    LocalKeeps(s, s', t);
  }

  lemma SupplySame(s: Buffer, s': Buffer)
    requires s'.capacity == s.capacity && s'.written == s.written && s'.taken == s.taken
    ensures forall y :: Supply(s', y) == Supply(s, y)
  {
  }

  lemma PutStepKeeps(s: Buffer, t: Tid)
    requires At(s, t) && !Blocked(s.pcs[t])
    requires s.pcs[t].PutLock? || s.pcs[t].PutWrite? || s.pcs[t].PutAdvance? || s.pcs[t].PutUnlock? || s.pcs[t].PutSignal?
    ensures Inv(Step(s, t, Go))
  {
    hide Inv, Supply, Bit;
    match s.pcs[t]
    case PutLock(v) => WaitKeeps(s, t, TAIL, PutWaitTail(v));
    case PutWrite(v) => WriteKeeps(s, t);
    case PutAdvance => AdvanceTailKeeps(s, t);
    case PutUnlock => SignalKeeps(s, t, TAIL, PutSignal);
    case PutSignal => SignalKeeps(s, t, ITEM, Idle);
  }

  lemma GetStepKeeps(s: Buffer, t: Tid)
    requires At(s, t) && !Blocked(s.pcs[t])
    requires s.pcs[t].GetLock? || s.pcs[t].GetRead? || s.pcs[t].GetAdvance? || s.pcs[t].GetUnlock? || s.pcs[t].GetSignal?
    ensures Inv(Step(s, t, Go))
  {
    hide Inv, Supply, Bit;
    match s.pcs[t]
    case GetLock => WaitKeeps(s, t, HEAD, GetWaitHead);
    case GetRead => ReadKeeps(s, t);
    case GetAdvance(r) => AdvanceHeadKeeps(s, t);
    case GetUnlock(r) => SignalKeeps(s, t, HEAD, GetSignal(r));
    case GetSignal(r) => SignalKeeps(s, t, SPACE, Idle);
  }

  lemma CountStepKeeps(s: Buffer, t: Tid)
    requires At(s, t) && !Blocked(s.pcs[t])
    requires s.pcs[t].CntLockTail? || s.pcs[t].CntCompare? || s.pcs[t].CntCompute? || s.pcs[t].CntUnlockTail? || s.pcs[t].CntUnlockHead?
    ensures Inv(Step(s, t, Go))
  {
    hide Inv, Supply, Bit;
    match s.pcs[t]
    case CntLockTail => WaitKeeps(s, t, TAIL, CntWaitTail);
    case CntCompare => CountingKeeps(s, t, Go);
    case CntCompute(ordered) => CountingKeeps(s, t, Go);
    case CntUnlockTail(r) => SignalKeeps(s, t, TAIL, CntUnlockHead(r));
    case CntUnlockHead(r) => SignalKeeps(s, t, HEAD, Idle);
  }

  lemma BeginKeeps(s: Buffer, t: Tid, a: Action)
    requires Inv(s) && Shape(s) && Enabled(s, t, a) && s.pcs[t].Idle?
    ensures Inv(Step(s, t, a))
  {
    hide Inv, Supply, Bit;
    match a
    case Put(v) => WaitKeeps(s, t, SPACE, PutWaitSpace(v));
    case Get => WaitKeeps(s, t, ITEM, GetWaitItem);
    case Count => WaitKeeps(s, t, HEAD, CntWaitHead);
    case Finish => CountingKeeps(s, t, a);
  }

  /** One step of any thread, whatever it does, keeps the invariant. */
  lemma StepKeeps(s: Buffer, t: Tid, a: Action)
    requires Inv(s) && Shape(s) && Enabled(s, t, a)
    ensures Inv(Step(s, t, a))
  {
    hide Inv, Step;
    match s.pcs[t]
    case Idle => BeginKeeps(s, t, a);
    case PutLock(_) | PutWrite(_) | PutAdvance | PutUnlock | PutSignal => PutStepKeeps(s, t);
    case GetLock | GetRead | GetAdvance(_) | GetUnlock(_) | GetSignal(_) => GetStepKeeps(s, t);
    case CntLockTail | CntCompare | CntCompute(_) | CntUnlockTail(_) | CntUnlockHead(_) => CountStepKeeps(s, t);
    case _ =>
  }
}
