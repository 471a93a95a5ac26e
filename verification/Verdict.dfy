/** The scheduler's verdict is exact: HALT, WAIT and PANIC say what is true of the processes,
    a waiting machine can be woken and a panicking one could never have been. */
module Verdict {
  import opened Queues
  import opened Nucleus
  import opened NucleusInvariant
  import opened BlockAndWake
  import opened Lifecycle
  import opened Termination
  import opened NucleusRun

  // ---------------------------------------------------------------- how a handler ends

  /** The processor and the globals agree between two exceptions. */
  ghost predicate Settled(s: State) {
    && s.yielded.None?
    && (match s.cpu
        case Load(_) => s.current.Some?
        case Handler(_, _, _) => s.current.Some?
        case Wait => s.current.None? && s.ready == [] && s.processCount != 0 && s.softBlock > 0
        case Halt => s.current.None? && s.ready == [] && s.processCount == 0
        case Panic => s.current.None? && s.ready == [] && s.processCount != 0 && s.softBlock <= 0)
  }

  lemma SchedulerSettled(s: State, now: int)
    ensures Settled(Scheduler(s, now))
  {
    hide InsertByPrio;
  }

  lemma SyscallSettled(s: State, e: Event, saved: Regs)
    requires Inv(s) && s.current.Some? && s.yielded.None?
    requires saved.a0 == DOIO && !saved.user ==> InDeviceArea(saved.a1)
    ensures Settled(SyscallHandler(s, e, saved))
  {
    hide Inv, Scheduler, PassUpOrDie, Create, Terminate, Passeren, Verhogen, DoIo, Block;
    PassUpSettled(s, GENERALEXCEPT, e, saved);
    PassUpSettled(s, GENERALEXCEPT, e, saved.(cause := PRIVINSTR));
    CreateSettled(s, e, saved);
    TerminateSettled(s, e, saved);
    PasserenSettled(s, e, saved);
    VerhogenSettled(s, e, saved);
    if InDeviceArea(saved.a1) { DoIoSettled(s, e, saved); }
    forall r: State, now: int { SchedulerSettled(r, now); }
    forall r: State, k: Sem | r.current.Some? { BlockSettled(r, k, e.clk); }
  }

  lemma BlockSettled(s: State, k: Sem, clk: Clock)
    requires s.current.Some?
    ensures Settled(Block(s, k, clk))
  {
    hide Scheduler;
    SchedulerSettled(Park(s, k, clk.t2), clk.t3);
  }

  lemma PassUpSettled(s: State, kind: int, e: Event, saved: Regs)
    requires Inv(s) && s.current.Some? && s.yielded.None?
    ensures Settled(PassUpOrDie(s, kind, e, saved))
  {
    hide Placement, Pids, Links, Counts, Sems, Scheduler;
    forall r: State, now: int { SchedulerSettled(r, now); }
  }

  lemma CreateSettled(s: State, e: Event, saved: Regs)
    requires Inv(s) && s.current.Some? && s.yielded.None?
    ensures Settled(Create(s, e, saved))
  {
    if s.free != [] {
      RoomToCreate(s);
      SchedulerSettled(Spawn(s, e, saved), e.clk.t3);
    }
    hide Inv, Scheduler, Spawn;
  }

  lemma TerminateSettled(s: State, e: Event, saved: Regs)
    requires Inv(s) && s.current.Some? && s.yielded.None?
    ensures Settled(Terminate(s, e, saved))
  {
    hide Placement, Pids, Links, Counts, Sems, Scheduler;
    forall r: State, now: int { SchedulerSettled(r, now); }
    TerminateInv(s, e, saved);
  }

  lemma PasserenSettled(s: State, e: Event, saved: Regs)
    requires s.current.Some? && s.yielded.None?
    ensures Settled(Passeren(s, e, saved))
  {
    hide Block;
    forall r: State, k: Sem | r.current.Some? { BlockSettled(r, k, e.clk); }
  }

  lemma VerhogenSettled(s: State, e: Event, saved: Regs)
    requires s.current.Some? && s.yielded.None?
    ensures Settled(Verhogen(s, e, saved))
  {
    hide InsertByPrio, DropBlocked;
  }

  lemma DoIoSettled(s: State, e: Event, saved: Regs)
    requires s.current.Some? && InDeviceArea(saved.a1)
    ensures Settled(DoIo(s, e, saved))
  {
    SemOfCommandRange(saved.a1);
    hide Block, SemOfCommand;
    forall r: State, k: Sem | r.current.Some? { BlockSettled(r, k, e.clk); }
  }

  lemma InterruptSettled(s0: State, e: Event)
    requires Inv(s0) && s0.yielded.None?
    ensures Settled(InterruptHandler(s0, e))
  {
    hide Inv, Scheduler, DeviceInterrupt, WakeSleepers, InsertByPrio;
    var s := StampInterrupt(s0, e.clk.t1);
    SameCoreInv(s0, s);
    WakeSleepersInv(s);
    if 17 <= e.saved.cause <= 21 { DeviceInterruptInv(s, e.saved.cause - 14, e); }
    forall r: State, now: int { SchedulerSettled(r, now); }
  }

  lemma StepSettled(s: State, e: Event)
    requires Inv(s) && Enabled(s, e)
    ensures Settled(Step(s, e))
  {
    hide Inv, InterruptHandler, SyscallHandler, PassUpOrDie;
    var s1 := ChargeTime(s, e.clk.t0);
    SameCoreInv(s, s1);
    if e.interrupt {
      InterruptSettled(s1, e);
    } else {
      PassUpSettled(s1, PGFAULTEXCEPT, e, e.saved);
      PassUpSettled(s1, GENERALEXCEPT, e, e.saved);
      if IsSyscall(e.saved.cause) { SyscallSettled(s1, e, e.saved.(pc := e.saved.pc + WORDLEN)); }
    }
  }

  // ---------------------------------------------------------------- what the counters mean

  lemma {:induction false} FullLength(q: seq<Id>, bound: nat)
    requires bound <= MAXPROC
    requires forall p: Id :: p < bound ==> Count(q, p) >= 1
    ensures |q| >= bound
    decreases bound
  {
    if bound > 0 {
      var last: Id := bound - 1;
      var r := RemoveFirst(q, last);
      CountIn(q, last);
      forall p: Id | p < last
        ensures Count(r, p) >= 1
      {
        RemoveFirstCount(q, last, p);
      }
      FullLength(r, last);
    }
  }

  /** `processCount` is zero exactly when no PCB is allocated. */
  lemma NoProcess(s: State)
    requires Inv(s)
    ensures s.processCount == 0 <==> forall p: Id :: !Live(s, p)
    ensures s.processCount >= 0
  {
    hide Pids, Links, Sems;
    assert forall p: Id :: Places(s, p) == 1;
    forall p: Id
      ensures Count(s.free, p) <= 1
    {
      assert Places(s, p) == 1;
    }
    DistinctLength(s.free, MAXPROC);
    if forall p: Id :: !Live(s, p) {
      forall p: Id
        ensures Count(s.free, p) >= 1
      {
        assert !Live(s, p);
      }
      FullLength(s.free, MAXPROC);
    }
    if p: Id :| Live(s, p) {
      FreeBound(s, p);
    }
  }

  lemma {:induction false} SumPositive(asl: map<Sem, seq<Id>>, n: nat)
    ensures SumDev(asl, n) > 0 <==> exists i :: 0 <= i < n && Queue(asl, Dev(i)) != []
  {
    if n > 0 {
      SumPositive(asl, n - 1);
      if Queue(asl, Dev(n - 1)) != [] {
        assert 0 <= n - 1 < n;
      }
    }
  }

  /** `softBlockCount` is positive exactly when some process waits for a device or the clock. */
  lemma SoftBlocked(s: State)
    requires Inv(s)
    ensures s.softBlock > 0 <==> exists p: Id :: s.pcb[p].semAdd.Some? && s.pcb[p].semAdd.value.Dev?
  {
    SumPositive(s.asl, TOT_SEMS);
    hide SumDev, Pids, Links;
    if i :| 0 <= i < TOT_SEMS && Queue(s.asl, Dev(i)) != [] {
      HeadBlocked(s, Dev(i));
    }
    if p: Id :| s.pcb[p].semAdd.Some? && s.pcb[p].semAdd.value.Dev? {
      BlockedIn(s, p, s.pcb[p].semAdd.value);
      assert s.pcb[p].semAdd.value == Dev(s.pcb[p].semAdd.value.index);
    }
  }

  ghost predicate Quiet(s: State) {
    s.current.None? && s.yielded.None? && s.ready == []
  }

  lemma QuietBlocked(s: State, p: Id)
    requires Placement(s) && Quiet(s) && Live(s, p)
    ensures s.pcb[p].semAdd.Some?
  {
    assert Places(s, p) == 1;
  }

  lemma BlockedLive(s: State, p: Id)
    requires Placement(s) && s.pcb[p].semAdd.Some?
    ensures Live(s, p)
  {
    assert Places(s, p) == 1;
  }

  /** The verdict says what is true of the processes: HALT iff none is live; WAIT iff none can
      run and one waits for a device or the clock; PANIC iff some are live and all of them are
      blocked on ordinary semaphores. */
  lemma VerdictExact(s: State)
    requires Inv(s) && Settled(s)
    ensures s.cpu.Halt? <==> forall p: Id :: !Live(s, p)
    ensures s.cpu.Wait? <==> Quiet(s) && exists p: Id :: s.pcb[p].semAdd.Some? && s.pcb[p].semAdd.value.Dev?
    ensures s.cpu.Panic? <==> (exists p: Id :: Live(s, p))
                              && forall p: Id :: Live(s, p) ==> s.pcb[p].semAdd.Some? && s.pcb[p].semAdd.value.Word?
  {
    NoProcess(s);
    SoftBlocked(s);
    forall p: Id | Quiet(s) && Live(s, p)
      ensures s.pcb[p].semAdd.Some?
    {
      QuietBlocked(s, p);
    }
    forall p: Id | s.pcb[p].semAdd.Some?
      ensures Live(s, p)
    {
      BlockedLive(s, p);
    }
    if s.current.Some? {
      CurrentLive(s);
      assert Places(s, s.current.value) == 1;
    }
    hide Inv, Live;
  }

  // ---------------------------------------------------------------- deadlock

  /** Nothing runs, nothing is ready, nobody waits for a device: the state PANIC stops in. */
  ghost predicate Deadlocked(s: State) {
    Inv(s) && Quiet(s) && s.processCount != 0 && s.softBlock <= 0
  }

  lemma NoDeviceQueue(s: State, i: nat)
    requires Inv(s) && s.softBlock <= 0 && i < TOT_SEMS
    ensures Queue(s.asl, Dev(i)) == []
  {
    SumPositive(s.asl, TOT_SEMS);
  }

  lemma DeliverNothing(s: State, i: nat, status: int, atTail: bool)
    requires Deadlocked(s) && i < TOT_SEMS
    ensures Deadlocked(Deliver(s, i, status, atTail)) && Deliver(s, i, status, atTail).asl == s.asl
  {
    NoDeviceQueue(s, i);
    DeliverInv(s, i, status, atTail);
    hide Inv;
  }

  /** No interrupt, of whatever line, status or moment, gets a deadlocked machine going. */
  lemma DeadlockStays(s: State, e: Event)
    requires Deadlocked(s)
    ensures var r := InterruptHandler(s, e);
            Deadlocked(r) && r.cpu == Panic && r.asl == s.asl
  {
    hide Placement, Pids, Links, Sems, DeviceInterrupt, Counts;
    InterruptInv(s, e);
    var s1 := StampInterrupt(s, e.clk.t1);
    SameCoreInv(s, s1);
    NoDeviceQueue(s1, PSEUDOCLK_SEM);
    if 17 <= e.saved.cause <= 21 {
      DeviceNothing(s1, e.saved.cause - 14, e);
    }
  }

  lemma DeviceNothing(s: State, line: int, e: Event)
    requires Deadlocked(s) && 3 <= line <= 7
    ensures var r := DeviceInterrupt(s, line, e);
            Quiet(r) && r.processCount != 0 && r.softBlock <= 0 && r.asl == s.asl
  {
    hide Deliver, Inv;
    match LowestDevice(e.pending, 0)
    case None =>
    case Some(dev) =>
      if line == 7 {
        DeliverNothing(s, 32 + dev, e.txStatus, true);
        var s1 := if e.txStatus % 256 == OKCHARTRANS then Deliver(s, 32 + dev, e.txStatus, true) else s;
        DeliverNothing(s1, 40 + dev, e.status, false);
      } else {
        DeliverNothing(s, DevSem(line, dev), e.status, false);
      }
  }

  /** A whole sequence of interrupts. */
  function Interrupts(s: State, es: seq<Event>): State
    decreases |es|
  {
    if es == [] then s else Interrupts(InterruptHandler(s, es[0]), es[1..])
  }

  lemma {:induction false} DeadlockForever(s: State, es: seq<Event>)
    requires Deadlocked(s)
    ensures Deadlocked(Interrupts(s, es)) && Interrupts(s, es).asl == s.asl
    ensures s.cpu == Panic ==> Interrupts(s, es).cpu == Panic
    decreases |es|
  {
    if es != [] {
      DeadlockStays(s, es[0]);
      hide Deadlocked, InterruptHandler;
      DeadlockForever(InterruptHandler(s, es[0]), es[1..]);
    }
  }

  // ---------------------------------------------------------------- a waiting machine can wake

  lemma DeliverWakes(s: State, i: nat, status: int, atTail: bool)
    requires Inv(s) && i < TOT_SEMS && Queue(s.asl, Dev(i)) != []
    ensures Deliver(s, i, status, atTail).ready != []
  {
    assert s.devSems[i] < 0;
    hide Inv, WakeHead;
    var s1 := s.(devSems := s.devSems[i := s.devSems[i] + 1]);
    WakeHeadReady(s1, Dev(i), Some(status), atTail, Queue(s.asl, Dev(i))[0]);
  }

  lemma {:induction false} SleepersGrow(s: State)
    requires s.ready != [] || Queue(s.asl, Dev(PSEUDOCLK_SEM)) != []
    ensures WakeSleepers(s).ready != []
    decreases |Queue(s.asl, Dev(PSEUDOCLK_SEM))|
  {
    var k := Dev(PSEUDOCLK_SEM);
    if Queue(s.asl, k) != [] {
      WakeHeadReady(s, k, Some(0), false, Queue(s.asl, k)[0]);
      assert WakeSleeper(s).ready != [] && |Queue(WakeSleeper(s).asl, k)| < |Queue(s.asl, k)|;
      SleepersGrow(WakeSleeper(s));
    }
  }

  /** The interrupt that ends an operation of semaphore `i`, or the clock tick. */
  function Completion(i: nat, now: int): Event
    requires i < TOT_SEMS
  {
    var cause := if i == PSEUDOCLK_SEM then 3 else if i < 32 then 17 + i / 8 else 21;
    Event(true, NO_REGS.(cause := cause), NO_REGS, {i % 8}, if i >= 40 then CHARRECV else 0,
          if 32 <= i < 40 then OKCHARTRANS else 0, Clock(now, now, now, now))
  }

  lemma LowestOfOne(d: nat, i: nat)
    requires i <= d < 8
    ensures LowestDevice({d}, i) == Some(d)
  {
    var r := LowestDevice({d}, i);
    assert d in {d};
  }

  lemma CompletionDelivers(s: State, i: nat, now: int)
    requires i < PSEUDOCLK_SEM
    ensures var e := Completion(i, now);
            && 3 <= e.saved.cause - 14 <= 7
            && DeviceInterrupt(s, e.saved.cause - 14, e)
               == Deliver(s, i, if 32 <= i < 40 then OKCHARTRANS else if i < 32 then 0 else CHARRECV, 32 <= i < 40)
  {
    LowestOfOne(i % 8, 0);
    hide Deliver, LowestDevice;
    if i < 32 {
      assert DevSem(3 + i / 8, i % 8) == i;
    } else if i < 40 {
      assert 32 + i % 8 == i;
    } else {
      assert 40 + i % 8 == i;
    }
  }

  lemma ReadyDispatches(s: State, e: Event)
    requires s.current.None? && s.yielded.None? && s.ready != []
    ensures Resume(s, e).cpu.Load?
  {
  }

  lemma DeviceCompletion(s: State, i: nat, now: int)
    requires Inv(s) && Quiet(s) && i < PSEUDOCLK_SEM && Queue(s.asl, Dev(i)) != []
    ensures InterruptHandler(s, Completion(i, now)).cpu.Load?
  {
    hide Inv, Deliver, DeviceInterrupt, Resume;
    var e := Completion(i, now);
    var s1 := StampInterrupt(s, e.clk.t1);
    SameCoreInv(s, s1);
    CompletionDelivers(s1, i, now);
    var s2 := DeviceInterrupt(s1, e.saved.cause - 14, e);
    DeliverWakes(s1, i, if 32 <= i < 40 then OKCHARTRANS else if i < 32 then 0 else CHARRECV, 32 <= i < 40);
    DeviceInterruptInv(s1, e.saved.cause - 14, e);
    ReadyDispatches(s2, e);
  }

  lemma ClockCompletion(s: State, now: int)
    requires Inv(s) && Quiet(s) && Queue(s.asl, Dev(PSEUDOCLK_SEM)) != []
    ensures InterruptHandler(s, Completion(PSEUDOCLK_SEM, now)).cpu.Load?
  {
    hide Inv, WakeSleepers, Resume;
    var e := Completion(PSEUDOCLK_SEM, now);
    var s1 := StampInterrupt(s, e.clk.t1);
    SameCoreInv(s, s1);
    WakeSleepersInv(s1);
    SleepersGrow(s1);
    var s2 := WakeSleepers(s1).(devSems := WakeSleepers(s1).devSems[PSEUDOCLK_SEM := 0]);
    ReadyDispatches(s2, e);
  }

  /** WAIT is never a deadlock: some interrupt makes a process run at once. */
  lemma WaitCanWake(s: State)
    requires Inv(s) && Settled(s) && s.cpu.Wait?
    ensures exists e :: Enabled(s, e) && Step(s, e).cpu.Load?
  {
    SumPositive(s.asl, TOT_SEMS);
    assert s.softBlock == SumDev(s.asl, TOT_SEMS);
    hide Inv, InterruptHandler, SumDev;
    var i: nat :| i < TOT_SEMS && Queue(s.asl, Dev(i)) != [];
    var e := Completion(i, s.startTOD);
    if i == PSEUDOCLK_SEM {
      ClockCompletion(s, s.startTOD);
    } else {
      DeviceCompletion(s, i, s.startTOD);
    }
    assert Enabled(s, e) && Step(s, e) == InterruptHandler(s, e);
  }
}
