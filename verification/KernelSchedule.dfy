/** Scheduling and sleeping over whole runs: the round-robin bound and exact wake-up times. */
module KernelSchedule {
  import opened Wrappers
  import opened Semaphores
  import opened Rings
  import opened KernelSpec
  import opened KernelInvariant
  import opened KernelSteps
  import opened KernelTheorems

  // ---------------------------------------------------------------- what a trap does to the ready queue

  /** No dispatch: threads only join the end of the ready queue. */
  ghost predicate Grows(k: Kernel, k': Kernel) {
    && k.ready <= k'.ready && k'.running == k.running
    && k'.log.dispatches == k.log.dispatches
  }

  ghost predicate SameTime(k: Kernel, k': Kernel) {
    k'.log.ticks == k.log.ticks && k'.slice == k.slice && k'.sleepers == k.sleepers
  }

  lemma SignalGrows(k: Kernel, s: SemId)
    requires Shape(k) && s in k.sems
    ensures Grows(k, Signal(k, s)) && SameTime(k, Signal(k, s))
  {
  }

  lemma {:induction false} ReceiveAllGrows(k: Kernel, rx: seq<char>)
    ensures Grows(k, ReceiveAll(k, rx)) && SameTime(k, ReceiveAll(k, rx))
    decreases |rx|
  {
    if rx != [] && Shape(k) {
      ReceiveGrows(k, rx[0]);
      hide Receive;
      ReceiveAllGrows(Receive(k, rx[0]), rx[1..]);
    }
  }

  lemma ReceiveGrows(k: Kernel, c: char)
    requires Shape(k)
    ensures Grows(k, Receive(k, c)) && SameTime(k, Receive(k, c))
  {
    if k.input.size != BUFFER_SIZE {
      SignalGrows(k.(input := RingPut(k.input, c), log := k.log.(accepted := k.log.accepted + [c])), GET_SEM);
    }
  }

  lemma {:induction false} TransmitGrows(k: Kernel, n: nat)
    ensures Grows(k, Transmit(k, n)) && SameTime(k, Transmit(k, n))
    decreases n
  {
    if n > 0 && k.output.size != 0 {
      TransmitGrows(SendOne(k), n - 1);
    }
  }

  lemma HandleGrows(k: Kernel, d: Device)
    ensures Grows(k, Handle(k, d)) && SameTime(k, Handle(k, d))
  {
    TransmitGrows(k, d.txReady);
    ReceiveAllGrows(Transmit(k, d.txReady), d.rx);
  }

  lemma {:induction false} MakeAllReadyGrows(k: Kernel, ts: seq<Tid>)
    ensures Grows(k, MakeAllReady(k, ts)) && SameTime(k, MakeAllReady(k, ts))
    ensures MakeAllReady(k, ts).tcbs.Keys == k.tcbs.Keys
    ensures (forall t :: t in ts ==> t in k.tcbs) ==> MakeAllReady(k, ts).ready == k.ready + ts
    decreases |ts|
  {
    if ts != [] {
      MakeAllReadyGrows(MakeReady(k, ts[0]), ts[1..]);
      assert ts == [ts[0]] + ts[1..];
    } else {
      assert k.ready + ts == k.ready;
    }
  }

  /** A dispatch takes exactly the head of the ready queue. */
  ghost predicate Rotates(k: Kernel, k': Kernel) {
    && k'.log.dispatches == k.log.dispatches + 1
    && (k.ready != [] ==> k'.running == k.ready[0] && k.ready[1..] <= k'.ready)
  }

  lemma DispatchRotates(k: Kernel, p: Kernel)
    requires Core(p, None) && k.ready <= p.ready && p.log.dispatches == k.log.dispatches
    ensures Rotates(k, Dispatch(p)) && SameTime(p, Dispatch(p))
  {
    NeverNull(p);
    NextEffect(p);
  }

  predicate SleepsZero(e: Event) {
    e.TimeSleep? && e.n == 0
  }

  /** How far the time slice and the tick count get in one trap, given whether it dispatched. */
  ghost predicate SliceBound(k: Kernel, k': Kernel) {
    Potential(k') >= Potential(k)
  }

  /** Twice the dispatches, less the ticks, plus the slice. */
  function Potential(k: Kernel): int {
    2 * k.log.dispatches - k.log.ticks + k.slice
  }

  ghost predicate Scheduled(k: Kernel, k': Kernel) {
    Grows(k, k') || Rotates(k, k')
  }

  lemma TickScheduled(k: Kernel)
    requires Inv(k) && Shape(k)
    ensures Scheduled(k, Tick(k)) && SliceBound(k, Tick(k)) && Tick(k).log.ticks == k.log.ticks + 1
    ensures Grows(k, Tick(k)) ==> Tick(k).slice == k.slice + 1
    ensures Tick(k).sleepers == Remaining(k.sleepers)
    ensures Grows(k, Ticked(k)) && Ticked(k).ready == k.ready + Expired(k.sleepers)
  {
    hide Core, Consoles, UpdateTime, Dispatch, Expired, Remaining, Tick, Ticked, ParkReady, Rotates;
    InvParts(k);
    SliceEnds(k);
    TickedReady(k);
    TickCases(k);
    var k2 := Ticked(k).(slice := 0);
    if Ticked(k).slice >= TIME_SLICE {
      ParkReadyKeeps(k2);
      ParkedReady(k2);
      assert k2.(slice := 0) == k2;
      DispatchRotates(k, ParkReady(k2));
      Rotated(k, Tick(k));
    }
  }

  lemma Rotated(k: Kernel, k': Kernel)
    requires Rotates(k, k')
    ensures !Grows(k, k') && k'.log.dispatches == k.log.dispatches + 1
  {
  }

  /** Ended sleepers join the end of the ready queue in sleep-list order. */
  lemma TickedReady(k: Kernel)
    requires Core(k, Some(k.running))
    ensures Ticked(k).ready == k.ready + Expired(k.sleepers) && Ticked(k).sleepers == Remaining(k.sleepers)
    ensures Grows(k, Ticked(k)) && Ticked(k).log.ticks == k.log.ticks + 1
  {
    var k0 := k.(slice := k.slice + 1, log := k.log.(ticks := k.log.ticks + 1), sleepers := Remaining(k.sleepers));
    ExpiredExist(k);
    MakeAllReadyGrows(k0, Expired(k.sleepers));
  }

  lemma ExpiredExist(k: Kernel)
    requires Core(k, Some(k.running))
    ensures forall t :: t in Expired(k.sleepers) ==> Was(k.tcbs, t, Asleep)
  {
    assert [] + Threads(k.sleepers) == Threads(k.sleepers);
    TickSplits(k.sleepers);
    forall t | t in Expired(k.sleepers)
      ensures Was(k.tcbs, t, Asleep)
    {
      assert t in Expired(k.sleepers) + Threads(Remaining(k.sleepers));
    }
  }

  lemma ParkScheduled(k: Kernel, p: Kernel)
    requires Inv(k) && Core(p, None) && k.ready <= p.ready && p.log.dispatches == k.log.dispatches
    requires p.log.ticks == k.log.ticks && 0 <= p.slice
    ensures Rotates(k, Dispatch(p)) && SliceBound(k, Dispatch(p)) && Dispatch(p).log.ticks == k.log.ticks
    ensures Dispatch(p).sleepers == p.sleepers
  {
    hide Core, Consoles, Dispatch;
    DispatchRotates(k, p);
  }

  lemma WaitScheduled(k: Kernel, s: SemId, cont: Cont)
    requires Inv(k) && Shape(k) && k.running != IDLE && s in k.sems
    requires cont == if s == GET_SEM then InGetchar else InWait
    ensures Scheduled(k, Wait(k, s, cont)) && SliceBound(k, Wait(k, s, cont))
    ensures Wait(k, s, cont).log.ticks == k.log.ticks && Wait(k, s, cont).sleepers == k.sleepers
    ensures Grows(k, Wait(k, s, cont)) ==> Wait(k, s, cont).slice == k.slice
  {
    if WouldBlock(k.sems[s]) {
      ParkQueuedKeeps(k, s, cont);
      ParkScheduled(k, ParkQueued(k, s, cont));
    }
  }

  /** Every trap either only adds to the ready queue or dispatches its head; two ticks never pass without a dispatch,
      but that each time_sleep(0) makes good for one tick. */
  lemma StepScheduled(k: Kernel, e: Event)
    requires Inv(k) && Legal(k, e)
    ensures Scheduled(k, Step(k, e))
    ensures Potential(Step(k, e)) + (if SleepsZero(e) then 1 else 0) >= Potential(k)
    ensures Step(k, e).log.ticks == k.log.ticks + if e.TimerTick? then 1 else 0
  {
    hide Inv, Core, Consoles, Dispatch, Wait, Tick, Handle, Signal, ParkReady, ParkAsleep, ParkGone, Rotates;
    InvParts(k);
    match e
    case ThreadDispatch =>
      CoreFrame(k, k.(slice := 0), Some(k.running));
      ParkReadyKeeps(k.(slice := 0));
      ParkedReady(k);
      ParkScheduled(k, ParkReady(k.(slice := 0)));
    case ThreadExit =>
      ParkGoneKeeps(k);
      ParkedGone(k);
      ParkScheduled(k, ParkGone(k));
    case SemWait(s) => WaitScheduled(k, s, InWait);
    case SemSignal(s) => SignalGrows(k, s);
    case TimeSleep(n) =>
      if n > 0 {
        CoreFrame(k, k.(slice := 0), Some(k.running));
        ParkAsleepKeeps(k.(slice := 0), n);
        ParkedAsleep(k, n);
        ParkScheduled(k, ParkAsleep(k.(slice := 0), n));
      }
    case Getc => WaitScheduled(k, GET_SEM, InGetchar);
    case Putc(c, d) =>
      HandleGrows(k.(output := RingPut(k.output, c), log := k.log.(printed := k.log.printed + [c])), d);
    case TimerTick => TickScheduled(k);
    case ConsoleInterrupt(d) => HandleGrows(k, d);
    case _ =>
  }

  lemma ParkedReady(k: Kernel)
    requires k.running in k.tcbs
    ensures k.ready <= ParkReady(k.(slice := 0)).ready && ParkReady(k.(slice := 0)).log == k.log
    ensures ParkReady(k.(slice := 0)).slice == 0 && ParkReady(k.(slice := 0)).sleepers == k.sleepers
  {
  }

  lemma ParkedGone(k: Kernel)
    ensures ParkGone(k).ready == k.ready && ParkGone(k).log == k.log && ParkGone(k).slice == k.slice
    ensures ParkGone(k).sleepers == k.sleepers
  {
  }

  lemma ParkedAsleep(k: Kernel, n: int)
    requires k.running in k.tcbs
    ensures var p := ParkAsleep(k.(slice := 0), n);
      p.ready == k.ready && p.log == k.log && p.slice == 0 && p.sleepers == [Sleeper(k.running, n)] + k.sleepers
  {
  }

  // ---------------------------------------------------------------- round robin

  ghost predicate RunsSometime(k: Kernel, es: seq<Event>, t: Tid)
    requires LegalRun(k, es)
    decreases |es|
  {
    k.running == t || (es != [] && RunsSometime(Step(k, es[0]), es[1..], t))
  }

  /** How often a run calls time_sleep(0). */
  function ZeroSleeps(es: seq<Event>): nat {
    if es == [] then 0 else (if SleepsZero(es[0]) then 1 else 0) + ZeroSleeps(es[1..])
  }

  lemma QueueStep(k: Kernel, k': Kernel, p: nat)
    requires Scheduled(k, k') && p < |k.ready|
    ensures k'.log.dispatches == k.log.dispatches ==> p < |k'.ready| && k'.ready[p] == k.ready[p]
    ensures k'.log.dispatches != k.log.dispatches ==> k'.log.dispatches == k.log.dispatches + 1
    ensures k'.log.dispatches != k.log.dispatches && p == 0 ==> k'.running == k.ready[0]
    ensures k'.log.dispatches != k.log.dispatches && p > 0 ==> p - 1 < |k'.ready| && k'.ready[p - 1] == k.ready[p]
  {
    if k'.log.dispatches != k.log.dispatches && p > 0 {
      assert k.ready[1..][p - 1] == k.ready[p];
      assert k'.ready[p - 1] == k.ready[1..][p - 1];
    }
  }

  lemma {:induction false} DispatchesGrow(k: Kernel, es: seq<Event>)
    requires Inv(k) && LegalRun(k, es)
    ensures Run(k, es).log.dispatches >= k.log.dispatches && Run(k, es).log.ticks >= k.log.ticks
    decreases |es|
  {
    hide Inv, Step;
    if es != [] {
      StepKeeps(k, es[0]);
      StepScheduled(k, es[0]);
      DispatchesGrow(Step(k, es[0]), es[1..]);
    }
  }

  /** A thread at index p of the ready queue moves up one place with every dispatch and runs with exactly the
      (p + 1)-st one: while fewer have happened it is still in the queue, at the place that leaves. */
  lemma {:induction false} RunsAfterDispatches(k: Kernel, es: seq<Event>, t: Tid, p: nat)
    requires Inv(k) && LegalRun(k, es) && p < |k.ready| && k.ready[p] == t
    ensures var d := Run(k, es).log.dispatches - k.log.dispatches;
      if d <= p then p - d < |Run(k, es).ready| && Run(k, es).ready[p - d] == t
      else RunsSometime(k, es, t)
    decreases |es|
  {
    hide Inv, Step, Scheduled;
    if es != [] {
      var k' := Step(k, es[0]);
      StepKeeps(k, es[0]);
      StepScheduled(k, es[0]);
      QueueStep(k, k', p);
      DispatchesGrow(k', es[1..]);
      if k'.log.dispatches == k.log.dispatches {
        RunsAfterDispatches(k', es[1..], t, p);
      } else if p > 0 {
        RunsAfterDispatches(k', es[1..], t, p - 1);
      } else {
        assert RunsSometime(k', es[1..], t);
      }
    }
  }

  /** Over any run the potential loses at most one for every time_sleep(0). */
  lemma {:induction false} TicksBounded(k: Kernel, es: seq<Event>)
    requires Inv(k) && LegalRun(k, es)
    ensures Potential(Run(k, es)) + ZeroSleeps(es) >= Potential(k)
    decreases |es|
  {
    hide Inv, Step, Scheduled, Potential;
    if es != [] {
      StepKeeps(k, es[0]);
      StepScheduled(k, es[0]);
      TicksBounded(Step(k, es[0]), es[1..]);
    }
  }

  /** A thread at index p of the ready queue runs within 2(p + 1) timer ticks and one more for every time_sleep(0) in
      the run, whatever else happens in between. */
  lemma RoundRobinBound(k: Kernel, es: seq<Event>, t: Tid, p: nat)
    requires Inv(k) && LegalRun(k, es) && p < |k.ready| && k.ready[p] == t
    requires Run(k, es).log.ticks - k.log.ticks >= 2 * (p + 1) + ZeroSleeps(es)
    ensures RunsSometime(k, es, t)
  {
    RunKeeps(k, es);
    TicksBounded(k, es);
    SliceSmall(k);
    SliceSmall(Run(k, es));
    RunsAfterDispatches(k, es, t, p);
  }

  lemma SliceSmall(k: Kernel)
    requires Inv(k)
    ensures 0 <= k.slice < TIME_SLICE
  {
  }

  /** The thread on the processor calls time_sleep(0) after every tick. */
  function Hog(n: nat): seq<Event> {
    if n == 0 then [] else [TimerTick, TimeSleep(0)] + Hog(n - 1)
  }

  lemma TickWithoutDispatch(k: Kernel)
    requires k.running in k.tcbs && Ticked(k).slice < TIME_SLICE
    ensures Tick(k) == Ticked(k)
  {
    hide UpdateTime;
  }

  lemma LegalTick(k: Kernel)
    requires Shape(k)
    ensures Legal(k, TimerTick) && Step(k, TimerTick) == Tick(k)
  {
  }

  lemma HogTick(k: Kernel)
    requires Inv(k) && k.running != IDLE && k.slice == 0
    ensures Legal(k, TimerTick)
    ensures var k1 := Step(k, TimerTick);
      Inv(k1) && k1.running == k.running && k.ready <= k1.ready && k1.log.ticks == k.log.ticks + 1
  {
    InvShape(k);
    LegalTick(k);
    hide Inv, Core, Consoles, Ticked, Tick, Step, Legal;
    StepKeeps(k, TimerTick);
    InvParts(k);
    TickedKeeps(k);
    TickedReady(k);
    TickWithoutDispatch(k);
  }

  lemma HogSleep(k: Kernel)
    requires Inv(k) && k.running != IDLE
    ensures Legal(k, TimeSleep(0)) && Step(k, TimeSleep(0)) == k.(slice := 0)
    ensures Inv(k.(slice := 0))
  {
    InvShape(k);
    SliceKeeps(k);
  }

  /** The extra ticks are needed: time_sleep(0) renews the slice without giving up the processor, so a thread that
      keeps calling it can hold on for any number of ticks. */
  lemma {:induction false} SleepZeroStarves(k: Kernel, n: nat)
    requires Inv(k) && k.running != IDLE && k.slice == 0
    ensures LegalRun(k, Hog(n))
    ensures var k' := Run(k, Hog(n));
      k'.log.ticks == k.log.ticks + n && k'.running == k.running && k.ready <= k'.ready
    decreases n
  {
    hide Inv, Step, Legal;
    if n > 0 {
      HogTick(k);
      var k1 := Step(k, TimerTick);
      HogSleep(k1);
      var k2 := Step(k1, TimeSleep(0));
      SleepZeroStarves(k2, n - 1);
      assert Hog(n)[0] == TimerTick && Hog(n)[1..][0] == TimeSleep(0) && Hog(n)[1..][1..] == Hog(n - 1);
      assert LegalRun(k1, Hog(n)[1..]);
    }
  }

  // ---------------------------------------------------------------- sleeping

  /** t sleeps with n ticks to go. */
  predicate SleepsFor(k: Kernel, t: Tid, n: int) {
    Sleeper(t, n) in k.sleepers
  }

  lemma {:induction false} RemainingElement(q: seq<Sleeper>, e: Sleeper)
    requires e in q
    ensures e.time != 1 ==> e.(time := e.time - 1) in Remaining(q)
    ensures e.time == 1 ==> e.thread in Expired(q)
    decreases |q|
  {
    assert q == [q[0]] + q[1..];
    if e != q[0] {
      RemainingElement(q[1..], e);
    }
  }

  /** Only a tick touches a sleeper: it counts down by one, and at the end of the countdown makes it ready. */
  lemma SleeperStep(k: Kernel, e: Event, t: Tid, n: int)
    requires Inv(k) && Legal(k, e) && SleepsFor(k, t, n)
    ensures n > 0
    ensures !e.TimerTick? ==> SleepsFor(Step(k, e), t, n)
    ensures e.TimerTick? && n > 1 ==> SleepsFor(Step(k, e), t, n - 1)
    ensures e.TimerTick? && n == 1 ==> t in Expired(k.sleepers) && !Sleeping(Step(k, e), t)
  {
    SleeperPositive(k, t, n);
    if e.TimerTick? {
      TickScheduled(k);
      RemainingElement(k.sleepers, Sleeper(t, n));
      if n == 1 { WokenGone(k, t); }
    } else {
      SleepersKept(k, e);
    }
  }

  lemma SleeperPositive(k: Kernel, t: Tid, n: int)
    requires Inv(k) && SleepsFor(k, t, n)
    ensures n > 0
  {
    var i :| 0 <= i < |k.sleepers| && k.sleepers[i] == Sleeper(t, n);
  }

  /** A thread that a tick wakes is nowhere in the sleep queue any more. */
  lemma WokenGone(k: Kernel, t: Tid)
    requires Inv(k) && t in Expired(k.sleepers)
    ensures t !in Threads(Remaining(k.sleepers))
  {
    assert [] + Threads(k.sleepers) == Threads(k.sleepers);
    TickSplits(k.sleepers);
    Apart(Expired(k.sleepers), Threads(Remaining(k.sleepers)), t);
  }

  lemma Apart(a: seq<Tid>, b: seq<Tid>, t: Tid)
    requires Distinct(a + b) && t in a
    ensures t !in b
  {
    var i :| 0 <= i < |a| && a[i] == t;
    assert (a + b)[i] == t;
    forall j | 0 <= j < |b|
      ensures b[j] != t
    {
      assert (a + b)[|a| + j] == b[j];
    }
  }

  lemma SleepersKept(k: Kernel, e: Event)
    requires Inv(k) && Legal(k, e) && !e.TimerTick?
    ensures Step(k, e).sleepers ==
            (if e.TimeSleep? && e.n > 0 then [Sleeper(k.running, e.n)] else []) + k.sleepers
  {
    hide Inv, Core, Consoles, Dispatch, Wait, Handle, Signal, ParkReady, ParkAsleep, ParkGone;
    assert [] + k.sleepers == k.sleepers;
    InvParts(k);
    match e
    case ThreadDispatch =>
      CoreFrame(k, k.(slice := 0), Some(k.running));
      ParkReadyKeeps(k.(slice := 0));
      ParkedReady(k);
      ParkScheduled(k, ParkReady(k.(slice := 0)));
    case ThreadExit =>
      ParkGoneKeeps(k);
      ParkedGone(k);
      ParkScheduled(k, ParkGone(k));
    case SemWait(s) => WaitScheduled(k, s, InWait);
    case SemSignal(s) => SignalGrows(k, s);
    case TimeSleep(n) =>
      if n > 0 {
        CoreFrame(k, k.(slice := 0), Some(k.running));
        ParkAsleepKeeps(k.(slice := 0), n);
        ParkedAsleep(k, n);
        ParkScheduled(k, ParkAsleep(k.(slice := 0), n));
      }
    case Getc => WaitScheduled(k, GET_SEM, InGetchar);
    case Putc(c, d) =>
      HandleGrows(k.(output := RingPut(k.output, c), log := k.log.(printed := k.log.printed + [c])), d);
    case ConsoleInterrupt(d) => HandleGrows(k, d);
    case _ =>
  }

  function Ticks(es: seq<Event>): nat {
    if es == [] then 0 else (if es[0].TimerTick? then 1 else 0) + Ticks(es[1..])
  }

  /** A countdown is always the deadline less the ticks that have passed: fewer than n ticks leave the thread asleep. */
  lemma {:induction false} AsleepUntilDeadline(k: Kernel, es: seq<Event>, t: Tid, n: int)
    requires Inv(k) && LegalRun(k, es) && SleepsFor(k, t, n) && Ticks(es) < n
    ensures SleepsFor(Run(k, es), t, n - Ticks(es))
    decreases |es|
  {
    hide Inv, Step, SleepsFor, Legal;
    if es != [] {
      StepKeeps(k, es[0]);
      SleeperStep(k, es[0], t, n);
      AsleepUntilDeadline(Step(k, es[0]), es[1..], t, if es[0].TimerTick? then n - 1 else n);
    }
  }

  /** A thread that calls time_sleep(n), n > 0, stays asleep until exactly the n-th following tick, which makes it
      ready behind every thread that was ready before that tick. k0 is the state after the call and k1 the one just
      before that tick. */
  lemma SleepExact(k: Kernel, k0: Kernel, es: seq<Event>, k1: Kernel, n: nat)
    requires Inv(k) && n > 0 && Legal(k, TimeSleep(n)) && k0 == Step(k, TimeSleep(n))
    requires LegalRun(k0, es) && k1 == Run(k0, es) && Ticks(es) == n - 1 && Legal(k1, TimerTick)
    ensures Sleeping(k1, k.running) && !Sleeping(Step(k1, TimerTick), k.running)
    ensures k.running in Expired(k1.sleepers) && Ticked(k1).ready == k1.ready + Expired(k1.sleepers)
  {
    hide Inv, Step, Legal, Run, Ticked;
    var t := k.running;
    StepKeeps(k, TimeSleep(n));
    SleepersKept(k, TimeSleep(n));
    assert k0.sleepers[0] == Sleeper(t, n);
    RunKeeps(k0, es);
    AsleepUntilDeadline(k0, es, t, n);
    SleeperStep(k1, TimerTick, t, 1);
    SleeperListed(k1.sleepers, Sleeper(t, 1));
    InvParts(k1);
    TickedReady(k1);
  }

  // ---------------------------------------------------------------- who wakes first

  /** a comes before b in the sleep queue. */
  ghost predicate Above(q: seq<Sleeper>, a: Sleeper, b: Sleeper) {
    exists i, j :: 0 <= i < j < |q| && q[i] == a && q[j] == b
  }

  ghost predicate Precedes(q: seq<Tid>, from: nat, t: Tid, u: Tid) {
    exists i, j :: from <= i < j < |q| && q[i] == t && q[j] == u
  }

  lemma AboveUnfolds(q: seq<Sleeper>, a: Sleeper, b: Sleeper)
    requires Above(q, a, b)
    ensures q != [] && (Above(q[1..], a, b) || (q[0] == a && b in q[1..]))
  {
    var i, j :| 0 <= i < j < |q| && q[i] == a && q[j] == b;
    assert q[1..][j - 1] == b;
    if i > 0 {
      assert q[1..][i - 1] == a;
    }
  }

  lemma AboveCons(x: Sleeper, q: seq<Sleeper>, a: Sleeper, b: Sleeper)
    ensures Above(q, a, b) ==> Above([x] + q, a, b)
    ensures b in q ==> Above([x] + q, x, b)
  {
    if Above(q, a, b) {
      var i, j :| 0 <= i < j < |q| && q[i] == a && q[j] == b;
      assert ([x] + q)[i + 1] == a && ([x] + q)[j + 1] == b;
    }
    if b in q {
      var j :| 0 <= j < |q| && q[j] == b;
      assert ([x] + q)[0] == x && ([x] + q)[j + 1] == b;
    }
  }

  lemma PrecedesCons(x: seq<Tid>, q: seq<Tid>, t: Tid, u: Tid)
    ensures Precedes(q, 0, t, u) ==> Precedes(x + q, |x|, t, u)
    ensures |x| == 1 && x[0] == t && u in q ==> Precedes(x + q, 0, t, u)
    ensures Precedes(q, 0, t, u) ==> Precedes(x + q, 0, t, u)
  {
    if Precedes(q, 0, t, u) {
      var i, j :| 0 <= i < j < |q| && q[i] == t && q[j] == u;
      assert (x + q)[|x| + i] == t && (x + q)[|x| + j] == u;
    }
    if |x| == 1 && x[0] == t && u in q {
      var j :| 0 <= j < |q| && q[j] == u;
      assert (x + q)[0] == t && (x + q)[1 + j] == u;
    }
  }

  /** A tick keeps the order of those who go on sleeping, and makes those whose countdown ends ready in that order. */
  lemma {:induction false} TickOrder(q: seq<Sleeper>, a: Sleeper, b: Sleeper)
    requires Above(q, a, b) && a.time == b.time
    ensures a.time != 1 ==> Above(Remaining(q), a.(time := a.time - 1), b.(time := b.time - 1))
    ensures a.time == 1 ==> Precedes(Expired(q), 0, a.thread, b.thread)
    decreases |q|
  {
    hide Above, Precedes;
    AboveUnfolds(q, a, b);
    var a', b' := a.(time := a.time - 1), b.(time := b.time - 1);
    var x := if q[0].time == 1 then [q[0].thread] else [];
    if Above(q[1..], a, b) {
      TickOrder(q[1..], a, b);
    } else {
      RemainingElement(q[1..], b);
    }
    AboveCons(q[0].(time := q[0].time - 1), Remaining(q[1..]), a', b');
    PrecedesCons(x, Expired(q[1..]), a.thread, b.thread);
    assert [] + Remaining(q[1..]) == Remaining(q[1..]);
  }

  /** Between ticks sleepers only join in front. */
  lemma OrderStep(k: Kernel, e: Event, a: Sleeper, b: Sleeper)
    requires Inv(k) && Legal(k, e) && Above(k.sleepers, a, b) && a.time == b.time
    ensures !e.TimerTick? ==> Above(Step(k, e).sleepers, a, b)
    ensures e.TimerTick? && a.time != 1 ==>
              Above(Step(k, e).sleepers, a.(time := a.time - 1), b.(time := b.time - 1))
  {
    hide Inv, Above;
    if e.TimerTick? {
      TickScheduled(k);
      TickOrder(k.sleepers, a, b);
    } else {
      SleepersKept(k, e);
      if e.TimeSleep? && e.n > 0 {
        AboveCons(Sleeper(k.running, e.n), k.sleepers, a, b);
      } else {
        assert [] + k.sleepers == k.sleepers;
      }
    }
  }

  lemma {:induction false} OrderKept(k: Kernel, es: seq<Event>, t: Tid, u: Tid, n: int)
    requires Inv(k) && LegalRun(k, es) && Above(k.sleepers, Sleeper(t, n), Sleeper(u, n)) && Ticks(es) < n
    ensures Above(Run(k, es).sleepers, Sleeper(t, n - Ticks(es)), Sleeper(u, n - Ticks(es)))
    decreases |es|
  {
    hide Inv, Step, Above, Legal;
    if es != [] {
      StepKeeps(k, es[0]);
      OrderStep(k, es[0], Sleeper(t, n), Sleeper(u, n));
      OrderKept(Step(k, es[0]), es[1..], t, u, if es[0].TimerTick? then n - 1 else n);
    }
  }

  /** Of two threads that the same tick wakes, the one that went to sleep later becomes ready first. u, running in ku,
      calls time_sleep(n); after es1 t, running in kt, calls time_sleep for the ticks u has left; after es2 the next
      tick, the one both wait for, comes in k1. */
  lemma RecentSleeperFirst(ku: Kernel, n: nat, es1: seq<Event>, kt: Kernel, es2: seq<Event>, k1: Kernel)
    requires Inv(ku) && n > 0 && Legal(ku, TimeSleep(n))
    requires LegalRun(Step(ku, TimeSleep(n)), es1) && kt == Run(Step(ku, TimeSleep(n)), es1) && Ticks(es1) < n
    requires Legal(kt, TimeSleep(n - Ticks(es1)))
    requires var k0 := Step(kt, TimeSleep(n - Ticks(es1)));
      LegalRun(k0, es2) && k1 == Run(k0, es2) && Ticks(es1) + Ticks(es2) == n - 1
    ensures ku.running != kt.running
    ensures Precedes(Ticked(k1).ready, |k1.ready|, kt.running, ku.running)
  {
    hide Inv, Step, Legal, Run, Ticked, Above, Precedes, Ticks, LegalRun;
    var u, t, m := ku.running, kt.running, n - Ticks(es1);
    FellAsleep(ku, n);
    RunKeeps(Step(ku, TimeSleep(n)), es1);
    AsleepUntilDeadline(Step(ku, TimeSleep(n)), es1, u, n);
    SleeperNotRunning(kt, u, m);
    FellAsleep(kt, m);
    SleepersKept(kt, TimeSleep(m));
    AboveCons(Sleeper(t, m), kt.sleepers, Sleeper(t, m), Sleeper(u, m));
    var k0 := Step(kt, TimeSleep(m));
    RunKeeps(k0, es2);
    OrderKept(k0, es2, t, u, m);
    TickOrder(k1.sleepers, Sleeper(t, 1), Sleeper(u, 1));
    InvParts(k1);
    TickedReady(k1);
    PrecedesCons(k1.ready, Expired(k1.sleepers), t, u);
  }

  lemma FellAsleep(k: Kernel, n: nat)
    requires Inv(k) && n > 0 && Legal(k, TimeSleep(n))
    ensures Inv(Step(k, TimeSleep(n))) && SleepsFor(Step(k, TimeSleep(n)), k.running, n)
  {
    hide Inv, Step, Legal;
    StepKeeps(k, TimeSleep(n));
    SleepersKept(k, TimeSleep(n));
    assert ([Sleeper(k.running, n)] + k.sleepers)[0] == Sleeper(k.running, n);
  }

  lemma SleeperNotRunning(k: Kernel, t: Tid, n: int)
    requires Inv(k) && SleepsFor(k, t, n)
    ensures k.running != t
  {
    SleeperListed(k.sleepers, Sleeper(t, n));
    assert [] + Threads(k.sleepers) == Threads(k.sleepers);
    InvParts(k);
    CoreParts(k, Some(k.running), []);
  }

  lemma {:induction false} SleeperListed(q: seq<Sleeper>, e: Sleeper)
    requires e in q
    ensures e.thread in Threads(q)
    decreases |q|
  {
    assert q == [q[0]] + q[1..];
    if e != q[0] {
      SleeperListed(q[1..], e);
    }
  }
}
