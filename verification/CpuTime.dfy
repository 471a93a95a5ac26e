/** Processor time: the history of charges covers disjoint intervals, and the time of every
    process is the sum of its own. */
module CpuTime {
  import opened Queues
  import opened Nucleus
  import opened NucleusInvariant
  import opened BlockAndWake
  import opened Lifecycle
  import opened Termination
  import opened NucleusRun

  /** The time charged to `pid`. */
  function Charged(ledger: seq<Charge>, pid: int): int {
    if ledger == [] then 0 else
      var last := ledger[|ledger| - 1];
      Charged(ledger[..|ledger| - 1], pid) + if last.pid == pid then last.until - last.from else 0
  }

  function Total(ledger: seq<Charge>): int {
    if ledger == [] then 0 else
      Total(ledger[..|ledger| - 1]) + ledger[|ledger| - 1].until - ledger[|ledger| - 1].from
  }

  ghost predicate Disjoint(ledger: seq<Charge>, boot: int, now: int) {
    && boot <= now
    && (forall i :: 0 <= i < |ledger| ==> boot <= ledger[i].from <= ledger[i].until <= now)
    && (forall i, j :: 0 <= i < j < |ledger| ==> ledger[i].until <= ledger[j].from)
  }

  /** All charges together fit between boot and the last clock reading. */
  lemma {:induction false} TotalBound(ledger: seq<Charge>, boot: int, now: int)
    requires Disjoint(ledger, boot, now)
    ensures 0 <= Total(ledger) <= now - boot
  {
    if ledger != [] {
      var rest := ledger[..|ledger| - 1];
      var last := ledger[|ledger| - 1];
      assert Disjoint(rest, boot, last.from);
      TotalBound(rest, boot, last.from);
    }
  }

  /** A boot time and a past that must stay the beginning of every later history. */
  datatype Epoch = Epoch(boot: int, base: seq<Charge>)

  ghost predicate TimeInv(s: State, h: Epoch) {
    && Disjoint(s.ledger, h.boot, s.startTOD) && h.base <= s.ledger
    && (forall i :: 0 <= i < |s.ledger| ==> s.ledger[i].pid < s.nextPid)
    && (forall p: Id :: s.pcb[p].pid >= 1 ==> s.pcb[p].time == Charged(s.ledger, s.pcb[p].pid))
  }

  // ---------------------------------------------------------------- what moves no charge

  /** No charge from `s` to `r`, and every process of `r` is one of `s` with its time. */
  ghost predicate Untimed(s: State, r: State) {
    && s.startTOD <= r.startTOD && r.ledger == s.ledger && s.nextPid <= r.nextPid
    && (forall p: Id :: r.pcb[p].pid >= 1 ==> r.pcb[p].pid == s.pcb[p].pid && r.pcb[p].time == s.pcb[p].time)
  }

  lemma UntimedInv(s: State, r: State, h: Epoch)
    requires TimeInv(s, h) && Untimed(s, r)
    ensures TimeInv(r, h)
  {
  }

  lemma ChargeInv(s: State, now: int, h: Epoch)
    requires TimeInv(s, h) && s.startTOD <= now
    requires forall p: Id, q: Id :: s.pcb[p].pid == s.pcb[q].pid >= 1 ==> p == q
    requires forall p: Id :: s.pcb[p].pid < s.nextPid
    ensures TimeInv(ChargeTime(s, now), h)
  {
    if s.current.Some? {
      var c := s.current.value;
      var r := ChargeTime(s, now);
      assert r.ledger[..|r.ledger| - 1] == s.ledger;
      forall p: Id | r.pcb[p].pid >= 1
        ensures r.pcb[p].time == Charged(r.ledger, r.pcb[p].pid)
      {
        assert s.pcb[p].time == Charged(s.ledger, s.pcb[p].pid);
      }
    }
  }

  lemma ChargeTimeInv(s: State, now: int, h: Epoch)
    requires Inv(s) && TimeInv(s, h) && s.startTOD <= now
    ensures TimeInv(ChargeTime(s, now), h) && Inv(ChargeTime(s, now))
  {
    SameCoreInv(s, ChargeTime(s, now));
    hide Placement, Links, Counts, Sems, TimeInv;
    ChargeInv(s, now, h);
  }

  lemma SchedulerUntimed(s: State, now: int)
    requires s.startTOD <= now
    ensures Untimed(s, Scheduler(s, now))
  {
    hide InsertByPrio;
  }

  lemma WakeHeadUntimed(s: State, k: Sem, result: Option<int>, atTail: bool)
    requires Queue(s.asl, k) != []
    ensures Untimed(s, WakeHead(s, k, result, atTail)) && WakeHead(s, k, result, atTail).startTOD == s.startTOD
  {
    hide InsertByPrio, DropBlocked;
  }

  lemma DeliverUntimed(s: State, i: nat, status: int, atTail: bool)
    requires i < TOT_SEMS
    ensures Untimed(s, Deliver(s, i, status, atTail)) && Deliver(s, i, status, atTail).startTOD == s.startTOD
  {
    hide WakeHead;
    var s1 := s.(devSems := s.devSems[i := s.devSems[i] + 1]);
    if s.devSems[i] < 0 && Queue(s1.asl, Dev(i)) != [] {
      WakeHeadUntimed(s1, Dev(i), Some(status), atTail);
    }
  }

  lemma {:induction false} SleepersUntimed(s: State)
    ensures Untimed(s, WakeSleepers(s)) && WakeSleepers(s).startTOD == s.startTOD
    decreases |Queue(s.asl, Dev(PSEUDOCLK_SEM))|
  {
    if Queue(s.asl, Dev(PSEUDOCLK_SEM)) != [] {
      hide WakeHead;
      WakeHeadUntimed(s, Dev(PSEUDOCLK_SEM), Some(0), false);
      SleepersUntimed(WakeSleeper(s));
    }
  }

  lemma DeviceUntimed(s: State, line: int, e: Event)
    requires 3 <= line <= 7
    ensures Untimed(s, DeviceInterrupt(s, line, e)) && DeviceInterrupt(s, line, e).startTOD == s.startTOD
  {
    hide Deliver;
    forall r: State, i: nat, status: int, atTail: bool | i < TOT_SEMS { DeliverUntimed(r, i, status, atTail); }
  }

  lemma TerminateUntimed(s: State, p: Id)
    requires Inv(s) && Live(s, p) && s.yielded.None?
    ensures Untimed(s, TerminateTree(s, p)) && Inv(TerminateTree(s, p))
    ensures TerminateTree(s, p).startTOD == s.startTOD
  {
    TerminateExact(s, p);
    var r := TerminateTree(s, p);
    var d := Subtree(s, p);
    hide Placement, Links, Counts, Sems, QueuesWithout, Subtree;
  }

  // ---------------------------------------------------------------- the handlers

  lemma ParkUntimed(s: State, k: Sem, now: int)
    requires s.current.Some?
    ensures Untimed(ChargeTime(s, now), Park(s, k, now)) && Park(s, k, now).startTOD == now
  {
  }

  lemma ValueFree(s: State, r: State)
    requires Inv(s) && SameCore(s, r.(words := s.words, devSems := s.devSems, softBlock := s.softBlock))
    ensures forall p: Id, q: Id :: r.pcb[p].pid == r.pcb[q].pid >= 1 ==> p == q
    ensures forall p: Id :: r.pcb[p].pid < r.nextPid
  {
  }

  lemma BlockTime(s: State, s1: State, k: Sem, clk: Clock, h: Epoch)
    requires Inv(s) && AboutToBlock(s, s1, k) && TimeInv(s1, h) && s1.startTOD <= clk.t2 <= clk.t3
    ensures TimeInv(Block(s1, k, clk), h)
  {
    hide Inv, TimeInv, Scheduler;
    ValueFree(s, s1);
    ChargeInv(s1, clk.t2, h);
    ParkUntimed(s1, k, clk.t2);
    hide Park;
    UntimedInv(ChargeTime(s1, clk.t2), Park(s1, k, clk.t2), h);
    SchedulerUntimed(Park(s1, k, clk.t2), clk.t3);
    UntimedInv(Park(s1, k, clk.t2), Block(s1, k, clk), h);
  }

  ghost predicate Timed(s: State, e: Event, h: Epoch) {
    TimeInv(s, h) && s.startTOD <= e.clk.t1 <= e.clk.t2 <= e.clk.t3
  }

  lemma PassUpTime(s: State, kind: int, e: Event, saved: Regs, h: Epoch)
    requires Inv(s) && s.current.Some? && s.yielded.None? && Timed(s, e, h)
    ensures TimeInv(PassUpOrDie(s, kind, e, saved), h)
  {
    ChargeTimeInv(s, e.clk.t1, h);
    hide Placement, Pids, Links, Counts, Sems, TimeInv, Scheduler;
    var c := s.current.value;
    if s.pcb[c].support != 0 {
      UntimedInv(s, PassUpOrDie(s, kind, e, saved), h);
    } else {
      var s1 := ChargeTime(s, e.clk.t1);
      CurrentLive(s1);
      TerminateUntimed(s1, c);
      var s2 := TerminateTree(s1, c).(current := None);
      SchedulerUntimed(s2, e.clk.t3);
      UntimedInv(s1, s2, h);
      UntimedInv(s2, PassUpOrDie(s, kind, e, saved), h);
    }
  }

  lemma TerminateTime(s: State, e: Event, saved: Regs, h: Epoch)
    requires Inv(s) && s.current.Some? && s.yielded.None? && Timed(s, e, h)
    ensures TimeInv(Terminate(s, e, saved), h)
  {
    hide Placement, Pids, Links, Counts, Sems, TimeInv, Scheduler, FindFrom;
    ChargeTimeInv(s, e.clk.t1, h);
    var s1 := ChargeTime(s, e.clk.t1);
    var t := Target(s1, saved.a1);
    assert t.None? ==> Terminate(s, e, saved) == Continue(s1, saved);
    assert s1.yielded.None? && s1.startTOD == e.clk.t1;
    hide ChargeTime;
    if t.None? {
      hide Terminate;
      UntimedInv(s1, Continue(s1, saved), h);
    } else {
      CurrentLive(s1);
      FindLive(s1, saved.a1, 0);
      var s2 := TerminateTree(s1, t.value);
      assert Terminate(s, e, saved) == if s2.current.None? then Scheduler(s2, e.clk.t3)
        else Continue(SetRegs(s2, s2.current.value, saved), saved);
      hide Terminate, TerminateTree;
      TerminateUntimed(s1, t.value);
      UntimedInv(s1, s2, h);
      SchedulerUntimed(s2, e.clk.t3);
      UntimedInv(s2, Terminate(s, e, saved), h);
    }
  }

  lemma CreateTime(s: State, e: Event, saved: Regs, h: Epoch)
    requires Inv(s) && s.current.Some? && s.yielded.None? && Timed(s, e, h)
    ensures TimeInv(Create(s, e, saved), h)
  {
    if s.free == [] {
      UntimedInv(s, Create(s, e, saved), h);
    } else {
      RoomToCreate(s);
      SpawnTime(s, e, saved, h);
      hide Inv, TimeInv, Scheduler, Spawn, Create;
      SchedulerUntimed(Spawn(s, e, saved), e.clk.t3);
      UntimedInv(Spawn(s, e, saved), Create(s, e, saved), h);
    }
  }

  lemma {:induction false} NotCharged(ledger: seq<Charge>, pid: int)
    requires forall i :: 0 <= i < |ledger| ==> ledger[i].pid < pid
    ensures Charged(ledger, pid) == 0
  {
    if ledger != [] { NotCharged(ledger[..|ledger| - 1], pid); }
  }

  /** A new process starts at zero because its pid was never charged. */
  lemma SpawnTime(s: State, e: Event, saved: Regs, h: Epoch)
    requires s.current.Some? && s.free != [] && FreeSlot(s.active) < MAXPROC && s.free[0] != s.current.value
    requires TimeInv(s, h) && s.startTOD <= e.clk.t3
    ensures TimeInv(Spawn(s, e, saved), h) && Spawn(s, e, saved).startTOD <= e.clk.t3
  {
    hide InsertByPrio, FreeSlot;
    NotCharged(s.ledger, s.nextPid);
    var r := Spawn(s, e, saved);
    forall p: Id | r.pcb[p].pid >= 1
      ensures r.pcb[p].time == Charged(r.ledger, r.pcb[p].pid)
    {
      assert p == s.free[0] || (r.pcb[p].pid == s.pcb[p].pid && r.pcb[p].time == s.pcb[p].time);
    }
  }

  /** The prologue of the blocking calls: charge, save the registers, change some value. */
  lemma PrologueTime(s: State, s2: State, now: int, regs: Regs, h: Epoch)
    requires Inv(s) && s.current.Some? && TimeInv(s, h) && s.startTOD <= now
    requires s2 == SetRegs(ChargeTime(s, now), s.current.value, regs).(words := s2.words, devSems := s2.devSems,
                                                                        softBlock := s2.softBlock)
    ensures TimeInv(s2, h) && s2.startTOD == now
    ensures SameCore(s, s2.(words := s.words, devSems := s.devSems, softBlock := s.softBlock))
  {
    hide Inv, TimeInv;
    ChargeTimeInv(s, now, h);
    UntimedInv(ChargeTime(s, now), s2, h);
  }

  lemma PasserenTime(s: State, e: Event, saved: Regs, h: Epoch)
    requires Inv(s) && s.current.Some? && s.yielded.None? && Timed(s, e, h)
    ensures TimeInv(Passeren(s, e, saved), h)
  {
    hide Inv, TimeInv, Block;
    var s1 := SetRegs(ChargeTime(s, e.clk.t1), s.current.value, saved);
    var v := WordAt(s.words, saved.a1) - 1;
    var s2 := s1.(words := s.words[saved.a1 := v]);
    assert Passeren(s, e, saved) == if v < 0 then Block(s2, Word(saved.a1), e.clk) else Continue(s2, saved);
    PrologueTime(s, s2, e.clk.t1, saved, h);
    assert s2.words == s.words[saved.a1 := v] && s2.devSems == s.devSems && s2.softBlock == s.softBlock;
    hide Passeren, SetRegs, ChargeTime;
    if v < 0 {
      BlockTime(s, s2, Word(saved.a1), e.clk, h);
    } else {
      UntimedInv(s2, Continue(s2, saved), h);
    }
  }

  lemma VerhogenTime(s: State, e: Event, saved: Regs, h: Epoch)
    requires Inv(s) && s.current.Some? && s.yielded.None? && Timed(s, e, h)
    ensures TimeInv(Verhogen(s, e, saved), h)
  {
    hide Inv, TimeInv, WakeHead;
    var s1 := SetRegs(ChargeTime(s, e.clk.t1), s.current.value, saved);
    var s2 := s1.(words := s1.words[saved.a1 := WordAt(s1.words, saved.a1) + 1]);
    PrologueTime(s, s2, e.clk.t1, saved, h);
    if Queue(s2.asl, Word(saved.a1)) != [] { WakeHeadUntimed(s2, Word(saved.a1), None, false); }
    UntimedInv(s2, Verhogen(s, e, saved), h);
  }

  lemma DoIoTime(s: State, e: Event, saved: Regs, h: Epoch)
    requires Inv(s) && s.current.Some? && s.yielded.None? && Timed(s, e, h) && InDeviceArea(saved.a1)
    ensures TimeInv(DoIo(s, e, saved), h)
  {
    hide Inv, TimeInv, Block, SemOfCommand;
    SemOfCommandRange(saved.a1);
    var i := SemOfCommand(saved.a1);
    var s1 := SetRegs(ChargeTime(s, e.clk.t1), s.current.value, saved);
    var s2 := s1.(devSems := s.devSems[i := s.devSems[i] - 1]);
    assert DoIo(s, e, saved) == Block(s2, Dev(i), e.clk);
    PrologueTime(s, s2, e.clk.t1, saved, h);
    assert s2.words == s.words && s2.softBlock == s.softBlock;
    hide DoIo, SetRegs, ChargeTime;
    BlockTime(s, s2, Dev(i), e.clk, h);
  }

  lemma ClockWaitTime(s: State, e: Event, saved: Regs, h: Epoch)
    requires Inv(s) && s.current.Some? && s.yielded.None? && Timed(s, e, h)
    ensures TimeInv(ClockWait(s, e, saved), h)
  {
    hide Inv, TimeInv, Block;
    var i := PSEUDOCLK_SEM;
    var s1 := SetRegs(ChargeTime(s, e.clk.t1), s.current.value, saved);
    var s2 := s1.(devSems := s.devSems[i := s.devSems[i] - 1], softBlock := s.softBlock + 1);
    assert ClockWait(s, e, saved) == Block(s2, Dev(i), e.clk);
    PrologueTime(s, s2, e.clk.t1, saved, h);
    assert s2.words == s.words;
    hide ClockWait, SetRegs, ChargeTime;
    BlockTime(s, s2, Dev(i), e.clk, h);
  }

  lemma RestTime(s: State, e: Event, saved: Regs, h: Epoch)
    requires Inv(s) && s.current.Some? && s.yielded.None? && Timed(s, e, h)
    ensures TimeInv(GetTime(s, e, saved), h) && TimeInv(GetProcessId(s, saved), h)
    ensures TimeInv(Continue(s, saved.(a0 := s.pcb[s.current.value].support)), h)
    ensures TimeInv(Yield(s, e, saved), h)
  {
    ChargeTimeInv(s, e.clk.t1, h);
    hide Inv, TimeInv, Scheduler;
    UntimedInv(ChargeTime(s, e.clk.t1), GetTime(s, e, saved), h);
    UntimedInv(s, GetProcessId(s, saved), h);
    UntimedInv(s, Continue(s, saved.(a0 := s.pcb[s.current.value].support)), h);
    var s1 := SetRegs(ChargeTime(s, e.clk.t1), s.current.value, saved).(yielded := s.current, current := None);
    SchedulerUntimed(s1, e.clk.t3);
    UntimedInv(ChargeTime(s, e.clk.t1), s1, h);
    UntimedInv(s1, Yield(s, e, saved), h);
  }

  lemma SyscallTime(s: State, e: Event, saved: Regs, h: Epoch)
    requires Inv(s) && s.current.Some? && s.yielded.None? && Timed(s, e, h)
    requires saved.a0 == DOIO && !saved.user ==> InDeviceArea(saved.a1)
    ensures TimeInv(SyscallHandler(s, e, saved), h)
  {
    hide Inv, TimeInv, PassUpOrDie, Create, Terminate, Passeren, Verhogen, DoIo, ClockWait, Yield, GetTime,
         GetProcessId;
    PassUpTime(s, GENERALEXCEPT, e, saved, h);
    PassUpTime(s, GENERALEXCEPT, e, saved.(cause := PRIVINSTR), h);
    CreateTime(s, e, saved, h);
    TerminateTime(s, e, saved, h);
    PasserenTime(s, e, saved, h);
    VerhogenTime(s, e, saved, h);
    if InDeviceArea(saved.a1) { DoIoTime(s, e, saved, h); }
    ClockWaitTime(s, e, saved, h);
    RestTime(s, e, saved, h);
  }

  lemma ResumeUntimed(s: State, e: Event)
    requires s.startTOD <= e.clk.t3
    ensures Untimed(s, Resume(s, e))
  {
    hide Scheduler;
    SchedulerUntimed(s, e.clk.t3);
  }

  lemma EffectUntimed(s: State, e: Event)
    ensures Untimed(s, InterruptEffect(s, e)) && InterruptEffect(s, e).startTOD == s.startTOD
  {
    hide DeviceInterrupt, WakeSleepers, InsertByPrio;
    SleepersUntimed(s);
    if 17 <= e.saved.cause <= 21 { DeviceUntimed(s, e.saved.cause - 14, e); }
  }

  lemma InterruptTime(s0: State, e: Event, h: Epoch)
    requires Inv(s0) && s0.yielded.None? && Timed(s0, e, h)
    ensures TimeInv(InterruptHandler(s0, e), h)
  {
    hide Inv, TimeInv, Scheduler, Resume, InterruptEffect;
    var s := StampInterrupt(s0, e.clk.t1);
    ChargeTimeInv(s0, e.clk.t1, h);
    if s0.current.None? { UntimedInv(s0, s, h); }
    var r := InterruptEffect(s, e);
    EffectUntimed(s, e);
    UntimedInv(s, r, h);
    assert InterruptHandler(s0, e) == if e.saved.cause == 7 then Scheduler(r, e.clk.t3) else Resume(r, e);
    ResumeUntimed(r, e);
    SchedulerUntimed(r, e.clk.t3);
    UntimedInv(r, InterruptHandler(s0, e), h);
  }

  lemma StepTimeFrom(s: State, e: Event, h: Epoch)
    requires Inv(s) && Enabled(s, e) && TimeInv(ChargeTime(s, e.clk.t0), h)
    ensures TimeInv(Step(s, e), h)
  {
    hide Inv, TimeInv, InterruptHandler, SyscallHandler, PassUpOrDie;
    var s1 := ChargeTime(s, e.clk.t0);
    SameCoreInv(s, s1);
    assert Timed(s1, e, h) && s1.yielded.None? && (s.current.Some? ==> s1.current.Some?);
    assert Step(s, e) == if e.interrupt then InterruptHandler(s1, e)
      else if IsSyscall(e.saved.cause) then SyscallHandler(s1, e, e.saved.(pc := e.saved.pc + WORDLEN))
      else PassUpOrDie(s1, if IsMemoryTrap(e.saved.cause) then PGFAULTEXCEPT else GENERALEXCEPT, e, e.saved);
    hide Timed, ChargeTime, Step;
    if e.interrupt {
      InterruptTime(s1, e, h);
    } else {
      PassUpTime(s1, if IsMemoryTrap(e.saved.cause) then PGFAULTEXCEPT else GENERALEXCEPT, e, e.saved, h);
      if IsSyscall(e.saved.cause) { SyscallTime(s1, e, e.saved.(pc := e.saved.pc + WORDLEN), h); }
    }
  }

  /** Processor time is never charged twice, and no past charge is revised. */
  lemma StepTime(s: State, e: Event, h: Epoch)
    requires Inv(s) && Enabled(s, e) && TimeInv(s, h)
    ensures TimeInv(Step(s, e), h)
  {
    hide Inv, TimeInv, Step;
    ChargeTimeInv(s, e.clk.t0, h);
    StepTimeFrom(s, e, h);
  }

  /** From a dispatch or a resumption to the next exception the whole interval, and nothing
      else before it, is added to the process that was running. */
  lemma RunningCharged(s: State, e: Event, h: Epoch)
    requires Inv(s) && Enabled(s, e) && TimeInv(s, h) && s.current.Some?
    ensures s.ledger + [Charge(s.pcb[s.current.value].pid, s.startTOD, e.clk.t0)] <= Step(s, e).ledger
  {
    var s1 := ChargeTime(s, e.clk.t0);
    var g := Epoch(h.boot, s1.ledger);
    ChargeTimeInv(s, e.clk.t0, h);
    assert TimeInv(s1, g);
    hide Inv, InterruptHandler, SyscallHandler, PassUpOrDie;
    StepTimeFrom(s, e, g);
  }
}
