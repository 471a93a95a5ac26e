/** Up to which clock reading each exception charges the process it interrupted, and from which one
    the next process is charged. */
module Charging {
  import opened Queues
  import opened Nucleus
  import opened NucleusInvariant
  import opened BlockAndWake
  import opened Lifecycle
  import opened Termination
  import opened NucleusRun
  import opened CpuTime
  import opened Wakeups
  import opened Calls
  import opened Control

  /** The clock reading up to which the running process is charged by exception `e`: the first one of
      the handler; the second for what takes its own reading; the third where the caller blocks. */
  function ChargedUntil(s: State, e: Event): int {
    if e.interrupt then e.clk.t1
    else if e.saved.cause !in {8, 11} || e.saved.user || !(-10 <= e.saved.a0 <= -1) then
      (if s.current.Some? && s.pcb[s.current.value].support == 0 then e.clk.t1 else e.clk.t0)
    else if e.saved.a0 in {CREATEPROCESS, GETSUPPORTPTR, GETPROCESSID} then e.clk.t0
    else if e.saved.a0 in {DOIO, CLOCKWAIT} || (e.saved.a0 == PASSEREN && WordAt(s.words, e.saved.a1) <= 0)
    then e.clk.t2
    else e.clk.t1
  }

  /** The scheduler is called. */
  ghost predicate Reschedules(s: State, e: Event, r: State) {
    || r.current != s.current
    || (e.interrupt && e.saved.cause == 7)
    || Issues(s, e, YIELD)
    || (Issues(s, e, CREATEPROCESS) && s.free != [])
  }

  /** From `s` to `r` the running process was charged up to `until`, and whoever the scheduler made
      run is charged from `now` on. */
  ghost predicate ChargedTo(s: State, r: State, until: int, now: int, scheduled: bool) {
    && (forall c: Id :: s.current == Some(c) && Live(r, c) ==> r.pcb[c].time == s.pcb[c].time + until - s.startTOD)
    && r.startTOD == if scheduled && r.current.Some? then now else until
  }

  lemma ChargeAdds(s: State, t0: int, t1: int)
    requires s.current.Some?
    ensures var r := ChargeTime(ChargeTime(s, t0), t1);
            r.startTOD == t1 && r.pcb[s.current.value].time == s.pcb[s.current.value].time + t1 - s.startTOD
    ensures ChargeTime(s, t0).startTOD == t0
            && ChargeTime(s, t0).pcb[s.current.value].time == s.pcb[s.current.value].time + t0 - s.startTOD
  {
  }

  /** The scheduler stamps the time of the dispatch. */
  lemma Stamped(s: State, now: int)
    requires s.current.None?
    ensures var r := Scheduler(s, now);
            r.startTOD == (if r.current.Some? then now else s.startTOD) && r.pcb == s.pcb && r.free == s.free
  {
    hide InsertByPrio;
  }

  // ---------------------------------------------------------------- the handlers

  lemma InterruptCharges(s: State, e: Event)
    requires Inv(s) && Enabled(s, e) && e.interrupt
    ensures ChargedTo(s, Step(s, e), e.clk.t1, e.clk.t3, Reschedules(s, e, Step(s, e)))
  {
    hide Inv, InterruptEffect, Scheduler, Live;
    var s1 := StampInterrupt(ChargeTime(s, e.clk.t0), e.clk.t1);
    SameCoreInv(s, s1);
    if s.current.Some? { ChargeAdds(s, e.clk.t0, e.clk.t1); }
    var s2 := InterruptEffect(s1, e);
    EffectTimes(s1, e);
    if s2.current.None? { Stamped(s2, e.clk.t3); } else { EffectFrom7(s1, e); }
  }

  lemma EffectTimes(s: State, e: Event)
    requires Inv(s) && e.interrupt
    ensures var r := InterruptEffect(s, e);
            && r.startTOD == s.startTOD
            && (s.current.Some? ==> r.pcb[s.current.value].time == s.pcb[s.current.value].time)
            && (e.saved.cause == 7 ==> r.current.None?)
            && (e.saved.cause != 7 ==> r.current == s.current)
  {
    hide Placement, Pids, Links, Counts, Sems, WakeSleepers, DeviceInterrupt, InsertByPrio;
    if e.saved.cause != 7 {
      EffectFrom(s, e);
      if s.current.Some? { EffectCurrent(s, e); }
    }
    SleepersStart(s);
    if 17 <= e.saved.cause <= 21 { DeviceStart(s, e.saved.cause - 14, e); }
  }

  lemma EffectFrom7(s: State, e: Event)
    requires Inv(s) && e.interrupt && InterruptEffect(s, e).current.Some?
    ensures e.saved.cause != 7
  {
    hide Inv, InsertByPrio;
  }

  lemma WakeStart(s: State, k: Sem, result: Option<int>, atTail: bool)
    requires Queue(s.asl, k) != []
    ensures WakeHead(s, k, result, atTail).startTOD == s.startTOD
  {
    hide InsertByPrio, DropBlocked;
  }

  lemma {:induction false} SleepersStart(s: State)
    ensures WakeSleepers(s).startTOD == s.startTOD
    decreases |Queue(s.asl, Dev(PSEUDOCLK_SEM))|
  {
    if Queue(s.asl, Dev(PSEUDOCLK_SEM)) != [] {
      WakeHeadRest(s, Dev(PSEUDOCLK_SEM), Some(0), false);
      WakeStart(s, Dev(PSEUDOCLK_SEM), Some(0), false);
      hide WakeHead;
      SleepersStart(WakeSleeper(s));
    }
  }

  lemma DeliverStart(s: State, i: nat, status: int, atTail: bool)
    requires i < TOT_SEMS
    ensures Deliver(s, i, status, atTail).startTOD == s.startTOD
  {
    hide WakeHead;
    var s1 := s.(devSems := s.devSems[i := s.devSems[i] + 1]);
    if Queue(s1.asl, Dev(i)) != [] { WakeStart(s1, Dev(i), Some(status), atTail); }
  }

  lemma DeviceStart(s: State, line: int, e: Event)
    requires 3 <= line <= 7
    ensures DeviceInterrupt(s, line, e).startTOD == s.startTOD
  {
    forall r: State, i: nat, status: int, atTail: bool | i < TOT_SEMS { DeliverStart(r, i, status, atTail); }
    hide Deliver;
  }

  /** A handler that charges up to `until` and then blocks, or lets the scheduler choose. */
  lemma SchedulesAfter(s: State, q: State, now: int)
    requires s.current.Some? && q.current.None?
    requires Live(q, s.current.value) ==>
               q.pcb[s.current.value].time == s.pcb[s.current.value].time + q.startTOD - s.startTOD
    ensures ChargedTo(s, Scheduler(q, now), q.startTOD, now, true)
  {
    hide Scheduler;
    Stamped(q, now);
  }

  lemma BlockCharges(s: State, q: State, k: Sem, clk: Clock)
    requires s.current.Some? && q.current == s.current && q.yielded.None?
    requires q.pcb[s.current.value].time == s.pcb[s.current.value].time + q.startTOD - s.startTOD
    ensures ChargedTo(s, Block(q, k, clk), clk.t2, clk.t3, true)
  {
    hide Scheduler, Live;
    SchedulesAfter(s, Park(q, k, clk.t2), clk.t3);
  }

  lemma DeathCharges(s: State, e: Event)
    requires Inv(s) && Enabled(s, e) && s.current.Some? && IsVictim(s, e, s.current.value) && !Issues(s, e, TERMPROCESS)
    ensures ChargedTo(s, Step(s, e), e.clk.t1, e.clk.t3, true) && Step(s, e).current != s.current
  {
    hide Placement, Pids, Links, Counts, Sems, Scheduler, TerminateTree, Step, Subtree, IsVictim, Live, Enabled,
         HeadRuns, Without, TablesWithout, QueuesWithout, ActiveWithout, CountsWithout;
    var s1 := ChargeTime(s, e.clk.t0);
    var s2 := ChargeTime(s1, e.clk.t1);
    var c := s.current.value;
    ChargeAdds(s, e.clk.t0, e.clk.t1);
    DeathIs(s, e);
    DeathExact(s, e);
    TerminateExact(s2, c);
    var q := TerminateTree(s2, c).(current := None);
    Stamped(q, e.clk.t3);
    StepInv(s, e);
    if Step(s, e).current == s.current { CurrentLive(Step(s, e)); }
  }

  /** The calls that go on, or block, without the scheduler making others ready. */
  lemma QuietCharges(s: State, e: Event, saved: Regs)
    requires s.current.Some? && s.yielded.None?
    ensures WordAt(s.words, saved.a1) > 0 ==>
              ChargedTo(s, Passeren(ChargeTime(s, e.clk.t0), e, saved), e.clk.t1, e.clk.t3, false)
    ensures ChargedTo(s, GetTime(ChargeTime(s, e.clk.t0), e, saved), e.clk.t1, e.clk.t3, false)
    ensures ChargedTo(s, GetProcessId(ChargeTime(s, e.clk.t0), saved), e.clk.t0, e.clk.t3, false)
    ensures ChargedTo(s, Continue(ChargeTime(s, e.clk.t0), saved), e.clk.t0, e.clk.t3, false)
    ensures s.free == [] ==> ChargedTo(s, Create(ChargeTime(s, e.clk.t0), e, saved), e.clk.t0, e.clk.t3, false)
  {
    hide Block, Scheduler, Live;
    ChargeAdds(s, e.clk.t0, e.clk.t1);
  }

  lemma VerhogenCharges(s: State, e: Event, saved: Regs)
    requires Placement(s) && s.current.Some?
    ensures ChargedTo(s, Verhogen(ChargeTime(s, e.clk.t0), e, saved), e.clk.t1, e.clk.t3, false)
  {
    hide WakeHead, Live, Placement;
    ChargeAdds(s, e.clk.t0, e.clk.t1);
    var c := s.current.value;
    var s1 := SetRegs(ChargeTime(ChargeTime(s, e.clk.t0), e.clk.t1), c, saved);
    var s2 := s1.(words := s1.words[saved.a1 := WordAt(s1.words, saved.a1) + 1]);
    if Queue(s2.asl, Word(saved.a1)) != [] {
      WakeStart(s2, Word(saved.a1), None, false);
      WakeHeadPcb(s2, Word(saved.a1), None, false);
    }
  }

  lemma BlockingCharges(s: State, e: Event, saved: Regs)
    requires s.current.Some? && s.yielded.None?
    ensures WordAt(s.words, saved.a1) <= 0 ==>
              ChargedTo(s, Passeren(ChargeTime(s, e.clk.t0), e, saved), e.clk.t2, e.clk.t3, true)
    ensures InDeviceArea(saved.a1) ==> ChargedTo(s, DoIo(ChargeTime(s, e.clk.t0), e, saved), e.clk.t2, e.clk.t3, true)
    ensures ChargedTo(s, ClockWait(ChargeTime(s, e.clk.t0), e, saved), e.clk.t2, e.clk.t3, true)
  {
    hide Block, ChargedTo, SemOfCommand, Scheduler;
    ChargeAdds(s, e.clk.t0, e.clk.t1);
    if InDeviceArea(saved.a1) { SemOfCommandRange(saved.a1); }
    forall q: State, k: Sem | q.current == s.current && q.yielded.None?
                              && q.pcb[s.current.value].time == s.pcb[s.current.value].time + q.startTOD - s.startTOD
      ensures ChargedTo(s, Block(q, k, e.clk), e.clk.t2, e.clk.t3, true)
    {
      BlockCharges(s, q, k, e.clk);
    }
  }

  lemma YieldCharges(s: State, e: Event, saved: Regs)
    requires s.current.Some?
    ensures ChargedTo(s, Yield(ChargeTime(s, e.clk.t0), e, saved), e.clk.t1, e.clk.t3, true)
  {
    hide Scheduler, Live, ChargedTo;
    ChargeAdds(s, e.clk.t0, e.clk.t1);
    var s1 := SetRegs(ChargeTime(ChargeTime(s, e.clk.t0), e.clk.t1), s.current.value, saved);
    SchedulesAfter(s, s1.(yielded := s.current, current := None), e.clk.t3);
  }

  lemma CreateCharges(s: State, e: Event, saved: Regs)
    requires Inv(s) && s.current.Some? && s.free != []
    ensures ChargedTo(s, Create(ChargeTime(s, e.clk.t0), e, saved), e.clk.t0, e.clk.t3, true)
  {
    hide Inv, Scheduler, Live, ChargedTo, FreeSlot, InsertByPrio;
    ChargeAdds(s, e.clk.t0, e.clk.t1);
    var s1 := ChargeTime(s, e.clk.t0);
    SameCoreInv(s, s1);
    RoomToCreate(s1);
    SchedulesAfter(s, Spawn(s1, e, saved), e.clk.t3);
  }

  lemma KillCharges(s: State, e: Event)
    requires Inv(s) && s.current.Some? && s.yielded.None? && Inv(ChargeTime(s, e.clk.t0))
    ensures var saved := e.saved.(pc := e.saved.pc + WORDLEN);
            var r := Terminate(ChargeTime(s, e.clk.t0), e, saved);
            ChargedTo(s, r, e.clk.t1, e.clk.t3, r.current != s.current)
  {
    hide Placement, Pids, Links, Counts, Sems, Scheduler, TerminateTree, FindFrom, Subtree, Count,
         Without, QueuesWithout, ActiveWithout, CountsWithout;
    var saved := e.saved.(pc := e.saved.pc + WORDLEN);
    var s0 := ChargeTime(s, e.clk.t0);
    var s1 := ChargeTime(s0, e.clk.t1);
    var c := s.current.value;
    ChargeAdds(s, e.clk.t0, e.clk.t1);
    SameCoreInv(s0, s1);
    CurrentLive(s1);
    FindLive(s1, saved.a1, 0);
    var t := Target(s1, saved.a1);
    if t.Some? {
      TerminateExact(s1, t.value);
      var q := TerminateTree(s1, t.value);
      if q.current.None? {
        Stamped(q, e.clk.t3);
        TerminateInv(s0, e, saved);
        NotCurrent(Terminate(s0, e, saved), q, c);
      }
    }
  }

  /** A process that died with the subtree does not run. */
  lemma NotCurrent(r: State, q: State, c: Id)
    requires Inv(r) && r.free == q.free && !Live(q, c)
    ensures r.current != Some(c)
  {
    if r.current == Some(c) { CurrentLive(r); }
  }

  lemma CallCharges(s: State, e: Event)
    requires Inv(s) && Enabled(s, e) && s.current.Some? && !e.interrupt && e.saved.cause in {8, 11} && !e.saved.user
    requires -10 <= e.saved.a0 <= -1
    ensures ChargedTo(s, Step(s, e), ChargedUntil(s, e), e.clk.t3, Reschedules(s, e, Step(s, e)))
  {
    hide Placement, Pids, Links, Counts, Sems, ChargedTo, Passeren, Verhogen, DoIo, ClockWait, Yield, GetTime,
         GetProcessId, Create, Terminate, PassUpOrDie, ChargeTime, InDeviceArea, HeadRuns, GivesWay, OnlyCharged,
         Continue, Named, Under, Subtree, InsertByPrio, SemOfCommand;
    var saved := e.saved.(pc := e.saved.pc + WORDLEN);
    StepIsCall(s, e, e.saved.a0);
    QuietCharges(s, e, saved);
    SupportCharges(s, e, saved);
    VerhogenCharges(s, e, saved);
    BlockingCharges(s, e, saved);
    YieldCharges(s, e, saved);
    KillCharges(s, e);
    if s.free != [] { CreateCharges(s, e, saved); }
    CallMoves(s, e);
  }

  lemma SupportCharges(s: State, e: Event, saved: Regs)
    requires s.current.Some?
    ensures forall x: int :: ChargedTo(s, Continue(ChargeTime(s, e.clk.t0), saved.(a0 := x)), e.clk.t0, e.clk.t3, false)
  {
    hide Live;
    ChargeAdds(s, e.clk.t0, e.clk.t1);
  }

  /** Which calls leave their caller running. */
  lemma CallMoves(s: State, e: Event)
    requires Inv(s) && Enabled(s, e) && s.current.Some? && !e.interrupt && e.saved.cause in {8, 11} && !e.saved.user
    requires -10 <= e.saved.a0 <= -1
    ensures e.saved.a0 in {VERHOGEN, GETTIME, GETSUPPORTPTR, GETPROCESSID} ==> Step(s, e).current == s.current
    ensures e.saved.a0 == PASSEREN && WordAt(s.words, e.saved.a1) > 0 ==> Step(s, e).current == s.current
    ensures e.saved.a0 == CREATEPROCESS && s.free == [] ==> Step(s, e).current == s.current
    ensures e.saved.a0 == PASSEREN && WordAt(s.words, e.saved.a1) <= 0 ==> Step(s, e).current != s.current
    ensures e.saved.a0 in {DOIO, CLOCKWAIT} ==> Step(s, e).current != s.current
  {
    hide Inv, Step, Enabled, HeadRuns, OnlyCharged, InsertByPrio, SemOfCommand;
    StepInv(s, e);
    if e.saved.a0 == PASSEREN {
      PasserenExact(s, e);
    } else if e.saved.a0 == VERHOGEN {
      VerhogenExact(s, e);
    } else if e.saved.a0 == GETSUPPORTPTR {
      SupportExact(s, e);
      SameCurrent(s, Step(s, e));
    } else if e.saved.a0 == GETPROCESSID {
      ProcessIdExact(s, e);
      SameCurrent(s, Step(s, e));
    } else if e.saved.a0 == GETTIME {
      QueryMoves(s, e);
    } else if e.saved.a0 in {DOIO, CLOCKWAIT} {
      WaitExact(s, e);
    } else if e.saved.a0 == CREATEPROCESS {
      CreateExact(s, e);
    }
    if Step(s, e).current.Some? { CurrentUnblocked(Step(s, e)) by { InvPlaced(Step(s, e)); } }
  }

  lemma InvPlaced(s: State)
    requires Inv(s)
    ensures Placement(s)
  {
  }

  lemma SameCurrent(s: State, r: State)
    requires OnlyCharged(s, r)
    ensures r.current == s.current
  {
  }

  lemma QueryMoves(s: State, e: Event)
    requires Inv(s) && Enabled(s, e) && Issues(s, e, GETTIME)
    ensures Step(s, e).current == s.current
  {
    hide Inv, SyscallHandler;
    StepIsCall(s, e, GETTIME);
    CallIsQuery(ChargeTime(s, e.clk.t0), e);
  }

  lemma TrapCharges(s: State, e: Event)
    requires Inv(s) && Enabled(s, e) && s.current.Some? && !e.interrupt
    requires e.saved.cause !in {8, 11} || e.saved.user || !(-10 <= e.saved.a0 <= -1)
    ensures ChargedTo(s, Step(s, e), ChargedUntil(s, e), e.clk.t3, Reschedules(s, e, Step(s, e)))
  {
    hide Inv, Step, Enabled, Live, HeadRuns, Without, Subtree;
    if s.pcb[s.current.value].support == 0 {
      hide ChargedTo;
      DeathCharges(s, e);
    } else {
      TrapExact(s, e);
      TrapTimes(s, e);
    }
  }

  lemma TrapTimes(s: State, e: Event)
    requires Inv(s) && Enabled(s, e) && s.current.Some? && !e.interrupt && s.pcb[s.current.value].support != 0
    requires e.saved.cause !in {8, 11} || e.saved.user || !(-10 <= e.saved.a0 <= -1)
    ensures var r := Step(s, e);
            && r.current == s.current && r.startTOD == e.clk.t0
            && r.pcb[s.current.value].time == s.pcb[s.current.value].time + e.clk.t0 - s.startTOD
  {
    hide Inv, Create, Terminate, Passeren, Verhogen, DoIo, ClockWait, Yield, GetTime, GetProcessId, InterruptHandler;
    ChargeAdds(s, e.clk.t0, e.clk.t1);
    SameCoreInv(s, ChargeTime(s, e.clk.t0));
  }

  /** Each exception charges the process it interrupts up to exactly one reading of its clock, and
      charges whoever the scheduler makes run from the last. */
  lemma StepCharges(s: State, e: Event)
    requires Inv(s) && Enabled(s, e) && (s.current.Some? || e.interrupt)
    ensures ChargedTo(s, Step(s, e), ChargedUntil(s, e), e.clk.t3, Reschedules(s, e, Step(s, e)))
  {
    hide Inv, Step, Enabled, ChargedTo, ChargedUntil, Reschedules;
    if e.interrupt {
      InterruptCharges(s, e);
      UntilInterrupt(s, e);
    } else if e.saved.cause !in {8, 11} || e.saved.user || !(-10 <= e.saved.a0 <= -1) {
      TrapCharges(s, e);
    } else {
      CallCharges(s, e);
    }
  }

  lemma UntilInterrupt(s: State, e: Event)
    requires e.interrupt
    ensures ChargedUntil(s, e) == e.clk.t1
  {
  }
}
