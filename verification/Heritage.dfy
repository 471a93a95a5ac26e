/** Where what a process is comes from: pid, priority and support structure are those of the
    CREATEPROCESS that made it, for as long as it lives. */
module Heritage {
  import opened Queues
  import opened Nucleus
  import opened NucleusInvariant
  import opened BlockAndWake
  import opened Lifecycle
  import opened Termination
  import opened NucleusRun
  import opened CpuTime
  import opened NucleusHistory
  import opened Wakeups
  import opened Calls
  import opened Control

  /** What a process keeps from its creation. */
  predicate SameIdentity(t: PcbTable, u: PcbTable, p: Id) {
    u[p].pid == t[p].pid && u[p].prio == t[p].prio && u[p].support == t[p].support && u[p].parent == t[p].parent
  }

  /** Who lives on keeps its identity, nobody is born, and no pid is given. */
  ghost predicate NoBirth(s: State, r: State) {
    r.nextPid == s.nextPid && forall p: Id :: Live(r, p) ==> Live(s, p) && SameIdentity(s.pcb, r.pcb, p)
  }

  lemma SameNoBirth(s: State, r: State)
    requires r.free == s.free && r.nextPid == s.nextPid && forall p: Id :: SameIdentity(s.pcb, r.pcb, p)
    ensures NoBirth(s, r)
  {
  }

  lemma NoBirthTwice(s: State, r: State, t: State)
    requires NoBirth(s, r) && NoBirth(r, t)
    ensures NoBirth(s, t)
  {
    hide Live;
  }

  lemma ScheduledNoBirth(s: State, now: int)
    ensures NoBirth(s, Scheduler(s, now))
  {
    hide Scheduler;
    Scheduled(s, now);
    SameNoBirth(s, Scheduler(s, now));
  }

  lemma WakeNoBirth(s: State, k: Sem, result: Option<int>, atTail: bool)
    requires Queue(s.asl, k) != []
    ensures var r := WakeHead(s, k, result, atTail);
            r.free == s.free && r.nextPid == s.nextPid && forall p: Id :: SameIdentity(s.pcb, r.pcb, p)
  {
    hide InsertByPrio, DropBlocked;
  }

  lemma DeliverNoBirth(s: State, i: nat, status: int, atTail: bool)
    requires i < TOT_SEMS
    ensures NoBirth(s, Deliver(s, i, status, atTail))
  {
    hide WakeHead;
    var s1 := s.(devSems := s.devSems[i := s.devSems[i] + 1]);
    if s.devSems[i] < 0 && Queue(s1.asl, Dev(i)) != [] { WakeNoBirth(s1, Dev(i), Some(status), atTail); }
    SameNoBirth(s, Deliver(s, i, status, atTail));
  }

  lemma {:induction false} SleepersNoBirth(s: State)
    ensures NoBirth(s, WakeSleepers(s))
    decreases |Queue(s.asl, Dev(PSEUDOCLK_SEM))|
  {
    var k := Dev(PSEUDOCLK_SEM);
    if Queue(s.asl, k) == [] {
      SameNoBirth(s, s);
    } else {
      WakeHeadRest(s, k, Some(0), false);
      WakeNoBirth(s, k, Some(0), false);
      hide WakeHead, NoBirth;
      SameNoBirth(s, WakeSleeper(s));
      SleepersNoBirth(WakeSleeper(s));
      NoBirthTwice(s, WakeSleeper(s), WakeSleepers(s));
    }
  }

  lemma DeviceNoBirth(s: State, line: int, e: Event)
    requires 3 <= line <= 7
    ensures NoBirth(s, DeviceInterrupt(s, line, e))
  {
    hide Deliver, NoBirth, LowestDevice;
    SameNoBirth(s, s);
    match LowestDevice(e.pending, 0)
    case None =>
    case Some(dev) =>
      if line == 7 {
        var s1 := if e.txStatus % 256 == OKCHARTRANS then Deliver(s, 32 + dev, e.txStatus, true) else s;
        DeliverNoBirth(s, 32 + dev, e.txStatus, true);
        DeliverNoBirth(s1, 40 + dev, e.status, false);
        NoBirthTwice(s, s1, Deliver(s1, 40 + dev, e.status, false));
      } else {
        DeliverNoBirth(s, DevSem(line, dev), e.status, false);
      }
  }

  lemma InterruptNoBirth(s: State, e: Event)
    requires e.interrupt
    ensures NoBirth(s, InterruptHandler(s, e))
  {
    hide NoBirth, Scheduler, WakeSleepers, DeviceInterrupt, InsertByPrio;
    var s1 := StampInterrupt(s, e.clk.t1);
    var s2 := InterruptEffect(s1, e);
    SameNoBirth(s, s1);
    SleepersNoBirth(s1);
    SameNoBirth(WakeSleepers(s1), WakeSleepers(s1).(devSems := WakeSleepers(s1).devSems[PSEUDOCLK_SEM := 0]));
    if 17 <= e.saved.cause <= 21 { DeviceNoBirth(s1, e.saved.cause - 14, e); }
    if e.saved.cause == 3 {
      NoBirthTwice(s1, WakeSleepers(s1), s2);
    } else if !(17 <= e.saved.cause <= 21) {
      SameNoBirth(s1, s2);
    }
    NoBirthTwice(s, s1, s2);
    ScheduledNoBirth(s2, e.clk.t3);
    SameNoBirth(s2, s2.(cpu := Load(e.saved)));
    NoBirthTwice(s, s2, InterruptHandler(s, e));
  }

  lemma TreeNoBirth(s: State, v: Id)
    requires Inv(s) && Live(s, v) && s.yielded.None?
    ensures NoBirth(s, TerminateTree(s, v))
  {
    TerminateExact(s, v);
    hide Placement, Pids, Links, Counts, Sems, TerminateTree, Subtree, QueuesWithout, ActiveWithout, CountsWithout,
         Live;
  }

  lemma PassUpNoBirth(s: State, kind: int, e: Event, saved: Regs)
    requires Inv(s) && s.current.Some? && s.yielded.None?
    ensures NoBirth(s, PassUpOrDie(s, kind, e, saved))
  {
    hide Placement, Pids, Links, Counts, Sems, Scheduler, TerminateTree, NoBirth;
    var c := s.current.value;
    var s1 := ChargeTime(s, e.clk.t1);
    if s.pcb[c].support != 0 {
      SameNoBirth(s, PassUpOrDie(s, kind, e, saved));
    } else {
      SameCoreInv(s, s1);
      CurrentLive(s1);
      SameNoBirth(s, s1);
      TreeNoBirth(s1, c);
      var s2 := TerminateTree(s1, c);
      SameNoBirth(s2, s2.(current := None));
      ScheduledNoBirth(s2.(current := None), e.clk.t3);
      NoBirthTwice(s, s1, s2);
      NoBirthTwice(s, s2, s2.(current := None));
      NoBirthTwice(s, s2.(current := None), PassUpOrDie(s, kind, e, saved));
    }
  }

  lemma TerminateNoBirth(s: State, e: Event, saved: Regs)
    requires Inv(s) && s.current.Some? && s.yielded.None?
    ensures NoBirth(s, Terminate(s, e, saved))
  {
    hide Placement, Pids, Links, Counts, Sems, Scheduler, TerminateTree, FindFrom, NoBirth;
    var s1 := ChargeTime(s, e.clk.t1);
    SameCoreInv(s, s1);
    CurrentLive(s1);
    FindLive(s1, saved.a1, 0);
    SameNoBirth(s, s1);
    var t := Target(s1, saved.a1);
    if t.None? {
      SameNoBirth(s, Terminate(s, e, saved));
    } else {
      TreeNoBirth(s1, t.value);
      var s2 := TerminateTree(s1, t.value);
      NoBirthTwice(s, s1, s2);
      ScheduledNoBirth(s2, e.clk.t3);
      if s2.current.Some? { SameNoBirth(s2, Continue(SetRegs(s2, s2.current.value, saved), saved)); }
      NoBirthTwice(s, s2, Terminate(s, e, saved));
    }
  }

  lemma BlockNoBirth(s: State, k: Sem, clk: Clock)
    requires s.current.Some?
    ensures NoBirth(s, Block(s, k, clk))
  {
    hide Scheduler, NoBirth;
    SameNoBirth(s, Park(s, k, clk.t2));
    ScheduledNoBirth(Park(s, k, clk.t2), clk.t3);
    NoBirthTwice(s, Park(s, k, clk.t2), Block(s, k, clk));
  }

  lemma QuietNoBirth(s: State, e: Event, saved: Regs)
    requires s.current.Some?
    ensures NoBirth(s, Passeren(s, e, saved)) && NoBirth(s, ClockWait(s, e, saved)) && NoBirth(s, GetTime(s, e, saved))
    ensures NoBirth(s, GetProcessId(s, saved)) && NoBirth(s, Yield(s, e, saved)) && NoBirth(s, Continue(s, saved))
    ensures InDeviceArea(saved.a1) ==> NoBirth(s, DoIo(s, e, saved))
  {
    hide Scheduler, Block, NoBirth, SemOfCommand;
    if InDeviceArea(saved.a1) { SemOfCommandRange(saved.a1); }
    forall r: State | r.free == s.free && r.nextPid == s.nextPid && forall p: Id :: SameIdentity(s.pcb, r.pcb, p)
      ensures NoBirth(s, r)
    {
      SameNoBirth(s, r);
    }
    forall r: State, k: Sem | NoBirth(s, r) && r.current.Some?
      ensures NoBirth(s, Block(r, k, e.clk))
    {
      BlockNoBirth(r, k, e.clk);
      NoBirthTwice(s, r, Block(r, k, e.clk));
    }
    forall r: State, now: int | NoBirth(s, r)
      ensures NoBirth(s, Scheduler(r, now))
    {
      ScheduledNoBirth(r, now);
      NoBirthTwice(s, r, Scheduler(r, now));
    }
  }

  lemma VerhogenNoBirth(s: State, e: Event, saved: Regs)
    requires s.current.Some?
    ensures NoBirth(s, Verhogen(s, e, saved))
  {
    hide WakeHead, NoBirth;
    var s1 := SetRegs(ChargeTime(s, e.clk.t1), s.current.value, saved);
    var s2 := s1.(words := s1.words[saved.a1 := WordAt(s1.words, saved.a1) + 1]);
    if Queue(s2.asl, Word(saved.a1)) != [] { WakeNoBirth(s2, Word(saved.a1), None, false); }
    forall p: Id
      ensures SameIdentity(s.pcb, Verhogen(s, e, saved).pcb, p)
    {
      if Queue(s2.asl, Word(saved.a1)) != [] {
        assert SameIdentity(s2.pcb, WakeHead(s2, Word(saved.a1), None, false).pcb, p);
      }
    }
    SameNoBirth(s, Verhogen(s, e, saved));
  }

  lemma FullNoBirth(s: State, e: Event, saved: Regs)
    requires s.current.Some? && s.free == []
    ensures NoBirth(s, Create(s, e, saved))
  {
    SameNoBirth(s, Create(s, e, saved));
  }

  /** CREATEPROCESS finds a free PCB. */
  predicate Creates(s: State, e: Event) {
    Issues(s, e, CREATEPROCESS) && s.free != []
  }

  lemma SyscallNoBirth(s: State, e: Event, saved: Regs)
    requires Inv(s) && s.current.Some? && s.yielded.None?
    requires saved.a0 == DOIO && !saved.user ==> InDeviceArea(saved.a1)
    requires !(saved.a0 == CREATEPROCESS && !saved.user && s.free != [])
    ensures NoBirth(s, SyscallHandler(s, e, saved))
  {
    hide Inv, PassUpOrDie, Create, Terminate, Passeren, Verhogen, DoIo, ClockWait, Yield, GetTime, GetProcessId,
         Continue, NoBirth;
    PassUpNoBirth(s, GENERALEXCEPT, e, saved);
    PassUpNoBirth(s, GENERALEXCEPT, e, saved.(cause := PRIVINSTR));
    TerminateNoBirth(s, e, saved);
    VerhogenNoBirth(s, e, saved);
    QuietNoBirth(s, e, saved);
    QuietNoBirth(s, e, saved.(a0 := s.pcb[s.current.value].support));
    if s.free == [] { FullNoBirth(s, e, saved); }
  }

  /** An exception that grants no PCB makes no process, and the processes that live on are who they
      were. */
  lemma StepNoBirth(s: State, e: Event)
    requires Inv(s) && Enabled(s, e) && !Creates(s, e)
    ensures NoBirth(s, Step(s, e))
  {
    hide Inv, InterruptHandler, SyscallHandler, PassUpOrDie, NoBirth, ChargeTime;
    var s1 := ChargeTime(s, e.clk.t0);
    ChargeCore(s, e.clk.t0);
    SameCoreInv(s, s1);
    SameNoBirth(s, s1);
    if e.interrupt {
      InterruptNoBirth(s1, e);
    } else {
      PassUpNoBirth(s1, PGFAULTEXCEPT, e, e.saved);
      PassUpNoBirth(s1, GENERALEXCEPT, e, e.saved);
      if IsSyscall(e.saved.cause) { SyscallNoBirth(s1, e, e.saved.(pc := e.saved.pc + WORDLEN)); }
    }
    NoBirthTwice(s, s1, Step(s, e));
  }

  /** CREATEPROCESS makes exactly one process: the one it was asked for. */
  lemma StepBirth(s: State, e: Event)
    requires Inv(s) && Enabled(s, e) && Creates(s, e)
    ensures var r := Step(s, e);
            var n := s.free[0];
            && s.current.Some? && !Live(s, n) && s.nextPid < r.nextPid && r.pcb[n].pid == s.nextPid
            && r.pcb[n].prio == e.saved.a2 && r.pcb[n].support == e.saved.a3 && r.pcb[n].parent == s.current
            && r.pcb[n].regs == e.newState
            && forall p: Id :: Live(r, p) ==> p == n || (Live(s, p) && SameIdentity(s.pcb, r.pcb, p))
  {
    hide Inv, Create, SyscallHandler, Live, HeadRuns, InsertByPrio;
    CreateExact(s, e);
    StepIsCall(s, e, CREATEPROCESS);
    CallIsCreation(ChargeTime(s, e.clk.t0), e);
    CreateTables(s, e);
  }

  lemma CallIsCreation(s: State, e: Event)
    requires Inv(s) && s.current.Some? && s.yielded.None? && Issues(s, e, CREATEPROCESS)
    ensures var saved := e.saved.(pc := e.saved.pc + WORDLEN);
            SyscallHandler(s, e, saved) == Create(s, e, saved)
  {
    hide Create, Inv;
  }

  lemma CreateTables(s: State, e: Event)
    requires Inv(s) && s.current.Some? && s.yielded.None? && s.free != []
    ensures var r := Create(ChargeTime(s, e.clk.t0), e, e.saved.(pc := e.saved.pc + WORDLEN));
            forall p: Id :: p != s.free[0] ==> SameIdentity(s.pcb, r.pcb, p) && (Live(r, p) ==> Live(s, p))
  {
    hide Inv, Scheduler, FreeSlot, Count, ChargeTime, Spawn, SameIdentity;
    var s1 := ChargeTime(s, e.clk.t0);
    var saved := e.saved.(pc := e.saved.pc + WORDLEN);
    ChargeCore(s, e.clk.t0);
    SameCoreInv(s, s1);
    RoomToCreate(s1);
    SpawnTables(s1, e, saved);
    Scheduled(Spawn(s1, e, saved), e.clk.t3);
    forall p: Id
      ensures SameIdentity(s.pcb, s1.pcb, p) && (SameIdentity(s1.pcb, Spawn(s1, e, saved).pcb, p)
                                                 ==> SameIdentity(s.pcb, Spawn(s1, e, saved).pcb, p))
    {
      IdentityCharged(s, e.clk.t0, Spawn(s1, e, saved).pcb, p);
    }
    forall p: Id { CountHead(s.free, p); }
  }

  lemma IdentityCharged(s: State, now: int, t: PcbTable, p: Id)
    ensures SameIdentity(s.pcb, ChargeTime(s, now).pcb, p)
    ensures SameIdentity(ChargeTime(s, now).pcb, t, p) ==> SameIdentity(s.pcb, t, p)
  {
  }

  lemma SpawnTables(s: State, e: Event, saved: Regs)
    requires s.current.Some? && s.free != [] && FreeSlot(s.active) < MAXPROC && s.free[0] != s.current.value
    ensures var r := Spawn(s, e, saved);
            r.free == s.free[1..] && forall p: Id :: p != s.free[0] ==> SameIdentity(s.pcb, r.pcb, p)
  {
    hide InsertByPrio, FreeSlot;
  }

  // ---------------------------------------------------------------- over runs

  /** Some CREATEPROCESS of the run made the process with this pid, priority and support. */
  ghost predicate MadeIn(s: State, es: seq<Event>, pid: int, prio: int, support: int)
    requires Inv(s)
    decreases |es|
  {
    es != [] && Enabled(s, es[0])
    && ((Creates(s, es[0]) && s.nextPid == pid && es[0].saved.a2 == prio && es[0].saved.a3 == support)
        || (StepInv(s, es[0]); MadeIn(Step(s, es[0]), es[1..], pid, prio, support)))
  }

  /** Every process at the end of a run was there at its beginning, with the same pid, priority and
      support structure, or has them from the CREATEPROCESS of the run that made it. */
  lemma {:induction false} RunHeritage(s: State, es: seq<Event>, t: State, p: Id)
    requires Inv(s) && Run(s, es, t) && Live(t, p)
    ensures (Live(s, p) && SameIdentity(s.pcb, t.pcb, p))
            || MadeIn(s, es, t.pcb[p].pid, t.pcb[p].prio, t.pcb[p].support)
    decreases |es|
  {
    if es != [] {
      var e := es[0];
      StepInv(s, e);
      hide Inv, Step, Enabled, Live, Creates;
      RunHeritage(Step(s, e), es[1..], t, p);
      if Creates(s, e) { StepBirth(s, e); } else { StepNoBirth(s, e); }
    }
  }

  /** GETSUPPORTPTR, from boot on: a process gets what the CREATEPROCESS that made it passed, and the
      first process 0. */
  lemma SupportWhence(words: map<int, int>, tod: int, now: int, regs: Regs, es: seq<Event>, t: State, e: Event)
    requires (forall a :: a in words ==> words[a] >= 0) && tod <= now
    requires Inv(Boot(words, tod, now, regs)) && Run(Boot(words, tod, now, regs), es, t)
    requires Inv(t) && Enabled(t, e) && Issues(t, e, GETSUPPORTPTR)
    ensures t.current.Some?
    ensures var b := t.pcb[t.current.value];
            exists support :: Step(t, e).cpu == Load(Returned(e, support))
                              && if b.pid == 1 then support == 0
                                 else MadeIn(Boot(words, tod, now, regs), es, b.pid, b.prio, support)
  {
    hide Placement, Tree, Counts, Sems, Run, Boot, Step, MadeIn, Enabled;
    var s := Boot(words, tod, now, regs);
    SupportExact(t, e);
    var c := t.current.value;
    CurrentLive(t);
    RunHeritage(s, es, t, c);
    BootAlone(words, tod, now, regs);
    if t.pcb[c].pid == 1 { FirstPid(s, es, t, c); }
    assert Step(t, e).cpu == Load(Returned(e, t.pcb[c].support));
  }

  lemma BootAlone(words: map<int, int>, tod: int, now: int, regs: Regs)
    ensures var s := Boot(words, tod, now, regs);
            && s.nextPid == 2 && (forall p: Id :: Live(s, p) ==> p == 0) && s.pcb[0].pid == 1 && s.pcb[0].support == 0
  {
    hide Ids, Scheduler, Count;
    Scheduled(BootState(words, tod, regs), now);
    forall p: Id { BootFree(p); }
  }

  /** Pid 1 is never given again. */
  lemma {:induction false} NotMadeAgain(s: State, es: seq<Event>, t: State, prio: int, support: int)
    requires Inv(s) && Run(s, es, t) && s.nextPid >= 2
    ensures !MadeIn(s, es, 1, prio, support)
    decreases |es|
  {
    if es != [] {
      StepInv(s, es[0]);
      hide Inv, Step, Enabled, Live, Creates;
      if Creates(s, es[0]) { StepBirth(s, es[0]); } else { StepNoBirth(s, es[0]); }
      NotMadeAgain(Step(s, es[0]), es[1..], t, prio, support);
    }
  }

  lemma FirstPid(s: State, es: seq<Event>, t: State, c: Id)
    requires Inv(s) && Run(s, es, t) && s.nextPid >= 2
    ensures !MadeIn(s, es, 1, t.pcb[c].prio, t.pcb[c].support)
  {
    hide Inv, Run, MadeIn;
    NotMadeAgain(s, es, t, t.pcb[c].prio, t.pcb[c].support);
  }
}
