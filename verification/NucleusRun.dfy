/** The exception handler as a step, boot, and what holds in every state of every run. */
module NucleusRun {
  import opened Queues
  import opened Nucleus
  import opened NucleusInvariant
  import opened BlockAndWake
  import opened Lifecycle
  import opened Termination

  // ---------------------------------------------------------------- the remaining handlers

  const CREATEPROCESS := -1
  const TERMPROCESS := -2
  const PASSEREN := -3
  const VERHOGEN := -4
  const DOIO := -5
  const GETTIME := -6
  const CLOCKWAIT := -7
  const GETSUPPORTPTR := -8
  const GETPROCESSID := -9
  const YIELD := -10
  const PRIVINSTR := 10

  lemma CurrentLive(s: State)
    requires Inv(s) && s.current.Some?
    ensures Live(s, s.current.value)
  {
    assert Places(s, s.current.value) == 1;
  }

  /** `passUpOrDie`. */
  function PassUpOrDie(s: State, kind: int, e: Event, saved: Regs): State
    requires Inv(s) && s.current.Some? && s.yielded.None?
  {
    var c := s.current.value;
    if s.pcb[c].support != 0 then s.(cpu := Handler(s.pcb[c].support, kind, saved)) else
      var s1 := ChargeTime(s, e.clk.t1);
      SameCoreInv(s, s1);
      CurrentLive(s1);
      Scheduler(TerminateTree(s1, c).(current := None), e.clk.t3)
  }

  /** `findProcessByPid`, with 0 for the caller. */
  function Target(s: State, pid: int): (r: Option<Id>)
    requires s.current.Some?
  {
    if pid == 0 then s.current else FindFrom(s.active, s.pcb, pid, 0)
  }

  lemma {:induction false} FindLive(s: State, pid: int, i: nat)
    requires Inv(s) && i <= MAXPROC
    ensures var r := FindFrom(s.active, s.pcb, pid, i);
            r.Some? ==> Live(s, r.value) && s.pcb[r.value].pid == pid
    decreases MAXPROC - i
  {
    if i < MAXPROC {
      if s.active[i].Some? {
        SlotIn(s.active, s.active[i]);
        assert Slots(s.active, Some(s.active[i].value)) == One(Live(s, s.active[i].value));
      }
      FindLive(s, pid, i + 1);
    }
  }

  function Terminate(s: State, e: Event, saved: Regs): State
    requires Inv(s) && s.current.Some? && s.yielded.None?
  {
    var s1 := ChargeTime(s, e.clk.t1);
    SameCoreInv(s, s1);
    var t := Target(s1, saved.a1);
    if t.None? then Continue(s1, saved) else
      CurrentLive(s1);
      FindLive(s1, saved.a1, 0);
      var s2 := TerminateTree(s1, t.value);
      if s2.current.None? then Scheduler(s2, e.clk.t3)
      else Continue(SetRegs(s2, s2.current.value, saved), saved)
  }

  /** `syscallHandler`; the caller has already advanced the program counter in `saved`. */
  function SyscallHandler(s: State, e: Event, saved: Regs): State
    requires Inv(s) && s.current.Some? && s.yielded.None?
    requires saved.a0 == DOIO && !saved.user ==> InDeviceArea(saved.a1)
  {
    if saved.user && saved.a0 < 0 then PassUpOrDie(s, GENERALEXCEPT, e, saved.(cause := PRIVINSTR))
    else if saved.a0 >= 1 then PassUpOrDie(s, GENERALEXCEPT, e, saved)
    else if saved.a0 == CREATEPROCESS then Create(s, e, saved)
    else if saved.a0 == TERMPROCESS then Terminate(s, e, saved)
    else if saved.a0 == PASSEREN then Passeren(s, e, saved)
    else if saved.a0 == VERHOGEN then Verhogen(s, e, saved)
    else if saved.a0 == DOIO then DoIo(s, e, saved)
    else if saved.a0 == GETTIME then GetTime(s, e, saved)
    else if saved.a0 == CLOCKWAIT then ClockWait(s, e, saved)
    else if saved.a0 == GETSUPPORTPTR then Continue(s, saved.(a0 := s.pcb[s.current.value].support))
    else if saved.a0 == GETPROCESSID then GetProcessId(s, saved)
    else if saved.a0 == YIELD then Yield(s, e, saved)
    else PassUpOrDie(s, GENERALEXCEPT, e, saved)
  }

  predicate IsSyscall(excCode: int) {
    excCode == 8 || excCode == 11
  }

  predicate IsMemoryTrap(excCode: int) {
    excCode in {12, 13, 15, 24, 25, 26, 27, 28}
  }

  /** `exceptionHandler`. */
  function Step(s: State, e: Event): State
    requires Inv(s) && Enabled(s, e)
  {
    var s1 := ChargeTime(s, e.clk.t0);
    SameCoreInv(s, s1);
    if e.interrupt then InterruptHandler(s1, e)
    else if IsSyscall(e.saved.cause) then SyscallHandler(s1, e, e.saved.(pc := e.saved.pc + WORDLEN))
    else if IsMemoryTrap(e.saved.cause) then PassUpOrDie(s1, PGFAULTEXCEPT, e, e.saved)
    else PassUpOrDie(s1, GENERALEXCEPT, e, e.saved)
  }

  /** Which exceptions can occur: traps while a process runs, interrupts also while the
      processor waits; the clock is monotone; DOIO names a device register. */
  predicate Enabled(s: State, e: Event) {
    && s.yielded.None?
    && (match s.cpu
        case Load(_) => s.current.Some?
        case Handler(_, _, _) => s.current.Some?
        case Wait => s.current.None? && e.interrupt
        case Halt => false
        case Panic => false)
    && s.startTOD <= e.clk.t0 <= e.clk.t1 <= e.clk.t2 <= e.clk.t3
    && (!e.interrupt && IsSyscall(e.saved.cause) && e.saved.a0 == DOIO && !e.saved.user ==> InDeviceArea(e.saved.a1))
  }

  // ---------------------------------------------------------------- preservation

  lemma ScheduledTerminationInv(s: State, p: Id, now: int)
    requires Inv(s) && Live(s, p) && s.yielded.None?
    ensures var r := TerminateTree(s, p);
            && (r.current.None? ==> Inv(Scheduler(r, now)) && Scheduler(r, now).yielded.None?)
            && (s.current == Some(p) ==> r.current.None?)
            && Inv(r)
  {
    TerminateExact(s, p);
    var r := TerminateTree(s, p);
    assert p in Subtree(s, p);
    hide Placement, Pids, Links, Counts, Sems, Scheduler;
    if r.current.None? { SchedulerInv(r, now); }
  }

  lemma PassUpOrDieInv(s: State, kind: int, e: Event, saved: Regs)
    requires Inv(s) && s.current.Some? && s.yielded.None?
    ensures Inv(PassUpOrDie(s, kind, e, saved)) && PassUpOrDie(s, kind, e, saved).yielded.None?
  {
    hide Placement, Pids, Links, Counts, Sems, Scheduler;
    var c := s.current.value;
    if s.pcb[c].support != 0 {
      SameCoreInv(s, PassUpOrDie(s, kind, e, saved));
    } else {
      var s1 := ChargeTime(s, e.clk.t1);
      SameCoreInv(s, s1);
      CurrentLive(s1);
      ScheduledTerminationInv(s1, c, e.clk.t3);
      assert TerminateTree(s1, c).(current := None) == TerminateTree(s1, c);
    }
  }

  lemma TerminateInv(s: State, e: Event, saved: Regs)
    requires Inv(s) && s.current.Some? && s.yielded.None?
    ensures Inv(Terminate(s, e, saved)) && Terminate(s, e, saved).yielded.None?
  {
    hide Placement, Pids, Links, Counts, Sems, Scheduler;
    var s1 := ChargeTime(s, e.clk.t1);
    SameCoreInv(s, s1);
    var t := Target(s1, saved.a1);
    if t.None? {
      SameCoreInv(s1, Terminate(s, e, saved));
    } else {
      CurrentLive(s1);
      FindLive(s1, saved.a1, 0);
      ScheduledTerminationInv(s1, t.value, e.clk.t3);
      var s2 := TerminateTree(s1, t.value);
      if s2.current.Some? {
        SameCoreInv(s2, Terminate(s, e, saved));
      }
    }
  }

  lemma BlockInv(s: State, s1: State, k: Sem, clk: Clock)
    requires Inv(s) && AboutToBlock(s, s1, k)
    ensures Inv(Block(s1, k, clk)) && Block(s1, k, clk).yielded.None?
  {
    hide Inv, Scheduler;
    ParkInv(s, s1, k, clk.t2);
    SchedulerInv(Park(s1, k, clk.t2), clk.t3);
  }

  lemma PasserenInv(s: State, e: Event, saved: Regs)
    requires Inv(s) && s.current.Some? && s.yielded.None?
    ensures Inv(Passeren(s, e, saved)) && Passeren(s, e, saved).yielded.None?
  {
    hide Placement, Tree, Counts, Block;
    var s1 := SetRegs(ChargeTime(s, e.clk.t1), s.current.value, saved);
    assert SameCore(s, s1);
    var v := WordAt(s.words, saved.a1) - 1;
    var s2 := s1.(words := s1.words[saved.a1 := v]);
    assert Passeren(s, e, saved) == if v < 0 then Block(s2, Word(saved.a1), e.clk) else Continue(s2, saved);
    if v < 0 {
      hide Inv, Passeren;
      BlockInv(s, s2, Word(saved.a1), e.clk);
    } else {
      assert |Queue(s.asl, Word(saved.a1))| == Debt(WordAt(s.words, saved.a1));
      assert Sems(s2);
      hide Inv, Sems, Passeren;
      ValuesInv(s, s2);
      SameCoreInv(s2, Passeren(s, e, saved));
    }
  }

  /** Every address in the device register area decodes to a device semaphore, never to the
      pseudo-clock. */
  lemma SemOfCommandRange(addr: int)
    requires InDeviceArea(addr)
    ensures 0 <= SemOfCommand(addr) < PSEUDOCLK_SEM
  {
  }

  lemma DoIoInv(s: State, e: Event, saved: Regs)
    requires Inv(s) && s.current.Some? && s.yielded.None? && InDeviceArea(saved.a1)
    ensures Inv(DoIo(s, e, saved)) && DoIo(s, e, saved).yielded.None?
  {
    hide Inv, Block, SemOfCommand;
    SemOfCommandRange(saved.a1);
    var i := SemOfCommand(saved.a1);
    var s1 := SetRegs(ChargeTime(s, e.clk.t1), s.current.value, saved);
    var s2 := s1.(devSems := s1.devSems[i := s1.devSems[i] - 1]);
    BlockInv(s, s2, Dev(i), e.clk);
  }

  lemma ClockWaitInv(s: State, e: Event, saved: Regs)
    requires Inv(s) && s.current.Some? && s.yielded.None?
    ensures Inv(ClockWait(s, e, saved)) && ClockWait(s, e, saved).yielded.None?
  {
    hide Inv, Block;
    var i := PSEUDOCLK_SEM;
    var s1 := SetRegs(ChargeTime(s, e.clk.t1), s.current.value, saved);
    var s2 := s1.(devSems := s1.devSems[i := s1.devSems[i] - 1], softBlock := s1.softBlock + 1);
    BlockInv(s, s2, Dev(i), e.clk);
  }

  lemma SpawnCreates(s: State, e: Event, saved: Regs)
    requires s.current.Some? && s.free != [] && FreeSlot(s.active) < MAXPROC && s.free[0] != s.current.value
    ensures Created(s, Spawn(s, e, saved), s.current.value, s.free[0])
  {
    hide InsertByPrio, FreeSlot;
    var c := s.current.value;
    var p := s.free[0];
    var s1 := WithChild(s, e, saved);
    forall x: Id
      ensures Count(Spawn(s, e, saved).ready, x) == Count(s.ready, x) + One(x == c) + One(x == p)
    {
      MakeReadyCount(s1, c, x);
      MakeReadyCount(MakeReady(s1, c), p, x);
    }
  }

  lemma RoomToCreate(s: State)
    requires Inv(s) && s.current.Some? && s.free != []
    ensures FreeSlot(s.active) < MAXPROC && s.free[0] != s.current.value
  {
    SlotAvailable(s);
    assert Places(s, s.current.value) == 1;
    CountHead(s.free, s.free[0]);
  }

  lemma CreateInv(s: State, e: Event, saved: Regs)
    requires Inv(s) && s.current.Some? && s.yielded.None?
    ensures Inv(Create(s, e, saved)) && Create(s, e, saved).yielded.None?
  {
    hide Inv, Scheduler;
    if s.free == [] {
      SameCoreInv(s, Create(s, e, saved));
    } else {
      RoomToCreate(s);
      hide Spawn;
      SpawnCreates(s, e, saved);
      CreatedInv(s, Spawn(s, e, saved), s.current.value, s.free[0]);
      SchedulerInv(Spawn(s, e, saved), e.clk.t3);
    }
  }

  lemma YieldInv(s: State, e: Event, saved: Regs)
    requires Inv(s) && s.current.Some? && s.yielded.None?
    ensures Inv(Yield(s, e, saved)) && Yield(s, e, saved).yielded.None?
  {
    hide Inv, Scheduler;
    var s1 := SetRegs(ChargeTime(s, e.clk.t1), s.current.value, saved);
    SameCoreInv(s, s1);
    StepBackInv(s1, e.clk.t3);
    SchedulerInv(s1.(yielded := s1.current, current := None), e.clk.t3);
  }

  lemma SyscallInv(s: State, e: Event, saved: Regs)
    requires Inv(s) && s.current.Some? && s.yielded.None?
    requires saved.a0 == DOIO && !saved.user ==> InDeviceArea(saved.a1)
    ensures Inv(SyscallHandler(s, e, saved)) && SyscallHandler(s, e, saved).yielded.None?
  {
    hide Inv, PassUpOrDie, Create, Terminate, Passeren, Verhogen, DoIo, ClockWait, Yield;
    PassUpOrDieInv(s, GENERALEXCEPT, e, saved);
    PassUpOrDieInv(s, GENERALEXCEPT, e, saved.(cause := PRIVINSTR));
    if saved.a0 == CREATEPROCESS { CreateInv(s, e, saved); }
    else if saved.a0 == TERMPROCESS { TerminateInv(s, e, saved); }
    else if saved.a0 == PASSEREN { PasserenInv(s, e, saved); }
    else if saved.a0 == VERHOGEN { VerhogenInv(s, e, saved); }
    else if saved.a0 == DOIO && !saved.user { DoIoInv(s, e, saved); }
    else if saved.a0 == CLOCKWAIT { ClockWaitInv(s, e, saved); }
    else if saved.a0 == YIELD { YieldInv(s, e, saved); }
    else { SyscallRestInv(s, e, saved); }
  }

  lemma SyscallRestInv(s: State, e: Event, saved: Regs)
    requires Inv(s) && s.current.Some? && s.yielded.None?
    ensures Inv(GetTime(s, e, saved)) && Inv(GetProcessId(s, saved))
    ensures Inv(Continue(s, saved.(a0 := s.pcb[s.current.value].support)))
  {
    hide Inv;
    SameCoreInv(s, GetTime(s, e, saved));
    SameCoreInv(s, GetProcessId(s, saved));
    SameCoreInv(s, Continue(s, saved.(a0 := s.pcb[s.current.value].support)));
  }

  lemma ResumeInv(s: State, e: Event)
    requires Inv(s) && s.yielded.None?
    ensures Inv(Resume(s, e)) && Resume(s, e).yielded.None?
  {
    hide Inv, Scheduler;
    if s.current.Some? { SameCoreInv(s, Resume(s, e)); } else { SchedulerInv(s, e.clk.t3); }
  }

  lemma InterruptInv(s0: State, e: Event)
    requires Inv(s0) && s0.yielded.None?
    ensures Inv(InterruptHandler(s0, e)) && InterruptHandler(s0, e).yielded.None?
  {
    hide Inv, Scheduler, Resume, DeviceInterrupt, WakeSleepers;
    var s := StampInterrupt(s0, e.clk.t1);
    SameCoreInv(s0, s);
    if e.saved.cause == 7 {
      if s.current.None? {
        SchedulerInv(s, e.clk.t3);
      } else {
        var c := s.current.value;
        var s1 := SetRegs(s, c, e.saved.(mie := true));
        SameCoreInv(s, s1);
        StepBackInv(s1, e.clk.t3);
        SchedulerInv(MakeReady(s1, c).(current := None), e.clk.t3);
      }
    } else if e.saved.cause == 3 {
      WakeSleepersInv(s);
      ClockTickInv(s);
      ResumeInv(WakeSleepers(s).(devSems := WakeSleepers(s).devSems[PSEUDOCLK_SEM := 0]), e);
    } else if 17 <= e.saved.cause <= 21 {
      DeviceInterruptInv(s, e.saved.cause - 14, e);
      ResumeInv(DeviceInterrupt(s, e.saved.cause - 14, e), e);
    } else {
      ResumeInv(s, e);
    }
  }

  /** Every exception keeps the invariant. */
  lemma StepInv(s: State, e: Event)
    requires Inv(s) && Enabled(s, e)
    ensures Inv(Step(s, e)) && Step(s, e).yielded.None?
  {
    hide Inv, InterruptHandler, SyscallHandler, PassUpOrDie;
    var s1 := ChargeTime(s, e.clk.t0);
    SameCoreInv(s, s1);
    if e.interrupt {
      InterruptInv(s1, e);
    } else {
      PassUpOrDieInv(s1, PGFAULTEXCEPT, e, e.saved);
      PassUpOrDieInv(s1, GENERALEXCEPT, e, e.saved);
      if IsSyscall(e.saved.cause) { SyscallInv(s1, e, e.saved.(pc := e.saved.pc + WORDLEN)); }
    }
  }
}
