/** What the callers of the system calls may rely on, stated about whole exceptions. */
module Calls {
  import opened Queues
  import opened Nucleus
  import opened NucleusInvariant
  import opened BlockAndWake
  import opened Lifecycle
  import opened Termination
  import opened NucleusRun
  import opened CpuTime
  import opened Wakeups

  /** The running process issues system call `number` from kernel mode. */
  predicate Issues(s: State, e: Event, number: int) {
    !e.interrupt && e.saved.cause in {8, 11} && !e.saved.user && e.saved.a0 == number
  }

  /** Nothing has changed but the processor and the time the running process has been charged. */
  ghost predicate OnlyCharged(s: State, r: State) {
    && r == s.(cpu := r.cpu, pcb := r.pcb, startTOD := r.startTOD, ledger := r.ledger)
    && (forall p: Id :: r.pcb[p] == s.pcb[p].(time := r.pcb[p].time))
    && (forall p: Id :: s.current != Some(p) ==> r.pcb[p] == s.pcb[p])
  }

  /** The ready queue gives up its head to the processor, if it has one. */
  ghost predicate HeadRuns(q: seq<Id>, r: State) {
    if q == [] then r.current == None && r.ready == []
    else r.current == Some(q[0]) && r.ready == q[1..] && r.cpu == Load(r.pcb[q[0]].regs)
  }

  /** Where the caller goes on when a call returns `result`. */
  function Returned(e: Event, result: int): Regs {
    e.saved.(pc := e.saved.pc + WORDLEN, a0 := result)
  }

  lemma StepIsCall(s: State, e: Event, number: int)
    requires Inv(s) && Enabled(s, e) && Issues(s, e, number) && number < 0
    ensures s.current.Some? && s.yielded.None? && Inv(ChargeTime(s, e.clk.t0))
    ensures number == DOIO ==> InDeviceArea(e.saved.a1)
    ensures Step(s, e) == SyscallHandler(ChargeTime(s, e.clk.t0), e, e.saved.(pc := e.saved.pc + WORDLEN))
  {
    hide SyscallHandler;
    SameCoreInv(s, ChargeTime(s, e.clk.t0));
  }

  lemma ChargedOnly(s: State, now: int, cpu: Cpu)
    ensures OnlyCharged(s, ChargeTime(s, now).(cpu := cpu))
  {
  }

  lemma ChargedTwice(s: State, t0: int, t1: int, cpu: Cpu)
    ensures OnlyCharged(s, ChargeTime(ChargeTime(s, t0), t1).(cpu := cpu))
  {
  }

  /** GETTIME returns the sum of all charges the caller ever received, this one included. */
  lemma GetTimeExact(s: State, e: Event, h: Epoch)
    requires Inv(s) && Enabled(s, e) && Issues(s, e, GETTIME) && TimeInv(s, h)
    ensures s.current.Some? && OnlyCharged(s, Step(s, e))
    ensures Step(s, e).cpu == Load(Returned(e, Charged(Step(s, e).ledger, s.pcb[s.current.value].pid)))
  {
    hide Inv, OnlyCharged, SyscallHandler, Step;
    StepIsCall(s, e, GETTIME);
    CallIsQuery(ChargeTime(s, e.clk.t0), e);
    var c := s.current.value;
    CurrentPid(s);
    StepTime(s, e, h);
    ChargedTwice(s, e.clk.t0, e.clk.t1, Step(s, e).cpu);
    TimeIsCharged(Step(s, e), c, h);
  }

  lemma CurrentPid(s: State)
    requires Inv(s) && s.current.Some?
    ensures s.pcb[s.current.value].pid >= 1
  {
    CurrentLive(s);
  }

  lemma TimeIsCharged(r: State, c: Id, h: Epoch)
    requires TimeInv(r, h) && r.pcb[c].pid >= 1
    ensures r.pcb[c].time == Charged(r.ledger, r.pcb[c].pid)
  {
  }

  /** The two calls whose handlers do no more than compute an answer. */
  lemma CallIsQuery(s: State, e: Event)
    requires Inv(s) && s.current.Some? && s.yielded.None?
    ensures var saved := e.saved.(pc := e.saved.pc + WORDLEN);
            && (Issues(s, e, GETTIME) ==> SyscallHandler(s, e, saved) == GetTime(s, e, saved))
            && (Issues(s, e, GETPROCESSID) ==> SyscallHandler(s, e, saved) == GetProcessId(s, saved))
  {
    hide GetTime, GetProcessId, Inv;
  }

  /** CREATEPROCESS grants a PCB iff one is free. Then the child is new, the youngest of the
      caller's children, with the state, priority and support structure asked for, no time used,
      a pid that no process ever had, and that pid is what the caller gets. */
  lemma CreateExact(s: State, e: Event)
    requires Inv(s) && Enabled(s, e) && Issues(s, e, CREATEPROCESS)
    ensures s.current.Some?
    ensures var c := s.current.value;
            var r := Step(s, e);
            if s.free == [] then r.cpu == Load(Returned(e, -1)) && r.current == Some(c) && r.ready == s.ready
            && r.processCount == s.processCount
            else
              var p := s.free[0];
              && !Live(s, p) && Live(r, p) && r.processCount == s.processCount + 1
              && r.pcb[p] == Pcb(s.nextPid, Some(c), [], None, e.saved.a3, 0, e.saved.a2, e.newState)
              && r.pcb[c].children == s.pcb[c].children + [p]
              && r.pcb[c].regs == Returned(e, s.nextPid)
              && (forall q: Id :: s.pcb[q].pid < s.nextPid < r.nextPid)
              && HeadRuns(InsertByPrio(InsertByPrio(s.ready, c, Prios(r.pcb)), p, Prios(r.pcb)), r)
  {
    hide Inv, Scheduler, Spawn, HeadRuns, InsertByPrio;
    StepIsCall(s, e, CREATEPROCESS);
    PidBound(s);
    var s1 := ChargeTime(s, e.clk.t0);
    var saved := e.saved.(pc := e.saved.pc + WORDLEN);
    if s.free != [] {
      RoomToCreate(s1);
      NewChild(s1, e, saved);
    }
  }

  lemma PidBound(s: State)
    requires Inv(s)
    ensures forall q: Id :: s.pcb[q].pid < s.nextPid
  {
  }

  lemma NewChild(s: State, e: Event, saved: Regs)
    requires Inv(s) && s.current.Some? && s.free != [] && FreeSlot(s.active) < MAXPROC && s.free[0] != s.current.value
    ensures var c := s.current.value;
            var r := Create(s, e, saved);
            var p := s.free[0];
            && !Live(s, p) && Live(r, p) && r.processCount == s.processCount + 1 && r.nextPid == s.nextPid + 1
            && r.pcb[p] == Pcb(s.nextPid, Some(c), [], None, saved.a3, 0, saved.a2, e.newState)
            && r.pcb[c].children == s.pcb[c].children + [p] && r.pcb[c].regs == saved.(a0 := s.nextPid)
            && (s.yielded.None? ==> HeadRuns(InsertByPrio(InsertByPrio(s.ready, c, Prios(r.pcb)), p, Prios(r.pcb)), r))
  {
    hide Scheduler, MakeReady, FreeSlot, Tree, Sems, Counts, InsertByPrio, HeadRuns;
    var p := s.free[0];
    CountHead(s.free, p);
    assert Places(s, p) == 1;
    ReadyPcb(WithChild(s, e, saved), s.current.value);
    ReadyPcb(MakeReady(WithChild(s, e, saved), s.current.value), p);
    Scheduled(Spawn(s, e, saved), e.clk.t3);
    SpawnReady(s, e, saved);
    if s.yielded.None? { HeadScheduled(Spawn(s, e, saved), e.clk.t3); }
  }

  lemma SpawnReady(s: State, e: Event, saved: Regs)
    requires s.current.Some? && s.free != [] && FreeSlot(s.active) < MAXPROC && s.free[0] != s.current.value
    ensures var r := Spawn(s, e, saved);
            var pr := Prios(r.pcb);
            && r.ready == InsertByPrio(InsertByPrio(s.ready, s.current.value, pr), s.free[0], pr)
            && r.yielded == s.yielded && r.current == None
  {
    hide InsertByPrio, FreeSlot;
  }

  lemma HeadScheduled(s: State, now: int)
    requires s.yielded.None? && s.current.None?
    ensures HeadRuns(s.ready, Scheduler(s, now))
  {
    hide InsertByPrio;
  }

  lemma ReadyPcb(s: State, p: Id)
    ensures MakeReady(s, p) == s.(ready := MakeReady(s, p).ready)
  {
    hide InsertByPrio;
  }

  /** P lowers the semaphore by one; the caller goes on, past the call, iff it was positive, and
      otherwise waits at the tail of the semaphore's queue to go on there later. */
  lemma PasserenExact(s: State, e: Event)
    requires Inv(s) && Enabled(s, e) && Issues(s, e, PASSEREN)
    ensures s.current.Some?
    ensures var c := s.current.value;
            var r := Step(s, e);
            var v := WordAt(s.words, e.saved.a1);
            && WordAt(r.words, e.saved.a1) == v - 1
            && (v > 0 ==> r.current == Some(c) && r.cpu == Load(Returned(e, PASSEREN)))
            && (v <= 0 ==> r.pcb[c].semAdd == Some(Word(e.saved.a1)) && r.pcb[c].regs == Returned(e, PASSEREN)
                           && Queue(r.asl, Word(e.saved.a1)) == Queue(s.asl, Word(e.saved.a1)) + [c]
                           && HeadRuns(s.ready, r))
            && (forall a: int :: a != e.saved.a1 ==> WordAt(r.words, a) == WordAt(s.words, a))
  {
    hide Passeren, Inv, HeadRuns;
    StepIsCall(s, e, PASSEREN);
    var s1 := ChargeTime(s, e.clk.t0);
    var saved := e.saved.(pc := e.saved.pc + WORDLEN);
    PasserenState(s1, e, saved);
  }

  lemma PasserenState(s: State, e: Event, saved: Regs)
    requires Inv(s) && s.current.Some? && s.yielded.None?
    ensures var c := s.current.value;
            var r := Passeren(s, e, saved);
            var v := WordAt(s.words, saved.a1);
            && WordAt(r.words, saved.a1) == v - 1
            && (v > 0 ==> r.current == Some(c) && r.cpu == Load(saved))
            && (v <= 0 ==> r.pcb[c].semAdd == Some(Word(saved.a1)) && r.pcb[c].regs == saved
                           && Queue(r.asl, Word(saved.a1)) == Queue(s.asl, Word(saved.a1)) + [c]
                           && HeadRuns(s.ready, r))
            && (forall a: int :: a != saved.a1 ==> WordAt(r.words, a) == WordAt(s.words, a))
  {
    hide Inv, Scheduler, Park, HeadRuns;
    RoomForCurrent(s);
    var c := s.current.value;
    var s2 := SetRegs(ChargeTime(s, e.clk.t1), c, saved);
    var s3 := s2.(words := s2.words[saved.a1 := WordAt(s.words, saved.a1) - 1]);
    ParkedAt(s3, Word(saved.a1), e.clk.t2);
    Scheduled(Park(s3, Word(saved.a1), e.clk.t2), e.clk.t3);
    HeadScheduled(Park(s3, Word(saved.a1), e.clk.t2), e.clk.t3);
  }

  lemma ParkedAt(s: State, k: Sem, now: int)
    requires s.current.Some? && |s.asl| < MAXPROC
    ensures var c := s.current.value;
            var r := Park(s, k, now);
            && r.words == s.words && r.pcb[c].semAdd == Some(k) && r.pcb[c].regs == s.pcb[c].regs
            && r.devSems == s.devSems && r.softBlock == s.softBlock + (if IsDevice(k) then 1 else 0)
            && Queue(r.asl, k) == Queue(s.asl, k) + [c]
            && r.ready == s.ready && r.yielded == s.yielded && r.current.None?
  {
  }

  lemma Scheduled(s: State, now: int)
    ensures var r := Scheduler(s, now);
            && r.pcb == s.pcb && r.words == s.words && r.asl == s.asl && r.devSems == s.devSems
            && r.softBlock == s.softBlock && r.free == s.free && r.processCount == s.processCount
            && r.nextPid == s.nextPid
  {
    hide InsertByPrio;
  }

  /** V raises the semaphore by one and the caller goes on. If it was negative, exactly the oldest
      waiter leaves the queue and enters the ready queue by priority. */
  lemma VerhogenExact(s: State, e: Event)
    requires Inv(s) && Enabled(s, e) && Issues(s, e, VERHOGEN)
    ensures var r := Step(s, e);
            var k := Word(e.saved.a1);
            var v := WordAt(s.words, e.saved.a1);
            && r.current == s.current && r.cpu == Load(Returned(e, VERHOGEN)) && WordAt(r.words, e.saved.a1) == v + 1
            && (forall a: int :: a != e.saved.a1 ==> WordAt(r.words, a) == WordAt(s.words, a))
            && (v >= 0 ==> r.ready == s.ready && r.asl == s.asl)
            && (v < 0 ==> Queue(s.asl, k) != [] && r.ready == InsertByPrio(s.ready, Queue(s.asl, k)[0], Prios(s.pcb))
                          && Queue(r.asl, k) == Queue(s.asl, k)[1..])
  {
    hide Verhogen, Inv;
    StepIsCall(s, e, VERHOGEN);
    var s1 := ChargeTime(s, e.clk.t0);
    SamePrios(s, s1);
    VerhogenState(s1, e, e.saved.(pc := e.saved.pc + WORDLEN));
  }

  lemma SamePrios(s: State, r: State)
    requires forall p: Id :: r.pcb[p].prio == s.pcb[p].prio
    ensures Prios(r.pcb) == Prios(s.pcb)
  {
  }

  lemma VerhogenState(s: State, e: Event, saved: Regs)
    requires Inv(s) && s.current.Some?
    ensures var r := Verhogen(s, e, saved);
            var k := Word(saved.a1);
            var v := WordAt(s.words, saved.a1);
            && r.current == s.current && r.cpu == Load(saved) && WordAt(r.words, saved.a1) == v + 1
            && (forall a: int :: a != saved.a1 ==> WordAt(r.words, a) == WordAt(s.words, a))
            && (v >= 0 ==> r.ready == s.ready && r.asl == s.asl)
            && (v < 0 ==> Queue(s.asl, k) != [] && r.ready == InsertByPrio(s.ready, Queue(s.asl, k)[0], Prios(s.pcb))
                          && Queue(r.asl, k) == Queue(s.asl, k)[1..])
  {
    hide Placement, Tree, Counts, WakeHead, InsertByPrio;
    var k := Word(saved.a1);
    var s1 := SetRegs(ChargeTime(s, e.clk.t1), s.current.value, saved);
    var s2 := s1.(words := s1.words[saved.a1 := WordAt(s.words, saved.a1) + 1]);
    assert |Queue(s.asl, k)| == Debt(WordAt(s.words, saved.a1));
    SamePrios(s, s2);
    if WordAt(s.words, saved.a1) < 0 {
      HeadWakes(s2, k);
    }
  }

  lemma HeadWakes(s: State, k: Sem)
    requires Queue(s.asl, k) != []
    ensures var r := WakeHead(s, k, None, false);
            && r.ready == InsertByPrio(s.ready, Queue(s.asl, k)[0], Prios(s.pcb)) && r.words == s.words
            && r.current == s.current
            && Queue(r.asl, k) == Queue(s.asl, k)[1..]
  {
    hide InsertByPrio, DropBlocked;
    var p := Queue(s.asl, k)[0];
    SamePrios(s, RemoveBlocked(s, k));
    DropHead(s.asl, k);
  }

  /** GETPROCESSID returns the caller's pid, or that of its parent, 0 for the first process. */
  lemma ProcessIdExact(s: State, e: Event)
    requires Inv(s) && Enabled(s, e) && Issues(s, e, GETPROCESSID)
    ensures s.current.Some?
    ensures var c := s.pcb[s.current.value];
            exists id :: && Step(s, e).cpu == Load(Returned(e, id)) && OnlyCharged(s, Step(s, e))
                         && (e.saved.a1 == 0 ==> id == c.pid)
                         && (e.saved.a1 != 0 ==> if c.pid == 1 then id == 0
                                                 else 1 <= id < c.pid && exists q: Id ::
                                                        Live(s, q) && s.pcb[q].pid == id && c.parent == Some(q))
  {
    hide Inv, OnlyCharged, SyscallHandler, Step, ChargeTime;
    StepIsCall(s, e, GETPROCESSID);
    SameIds(s, e.clk.t0);
    CallIsQuery(ChargeTime(s, e.clk.t0), e);
    var c := s.pcb[s.current.value];
    var id := if e.saved.a1 == 0 then c.pid else if c.parent.Some? then s.pcb[c.parent.value].pid else 0;
    ChargedOnly(s, e.clk.t0, Load(Returned(e, id)));
    ParentId(s, s.current.value);
    assert Step(s, e).cpu == Load(Returned(e, id));
  }

  lemma SameIds(s: State, now: int)
    ensures var r := ChargeTime(s, now);
            && r.current == s.current && r.yielded == s.yielded
            && forall p: Id :: r.pcb[p].pid == s.pcb[p].pid && r.pcb[p].parent == s.pcb[p].parent
  {
  }

  lemma ParentId(s: State, p: Id)
    requires Inv(s) && s.current == Some(p)
    ensures if s.pcb[p].pid == 1 then s.pcb[p].parent.None? else
              s.pcb[p].parent.Some? && Live(s, s.pcb[p].parent.value)
              && 1 <= s.pcb[s.pcb[p].parent.value].pid < s.pcb[p].pid
  {
    CurrentLive(s);
    hide Placement, Counts, Sems;
  }

  /** DOIO and CLOCKWAIT lower the semaphore of the device or the clock, count the caller as
      soft-blocked once, and leave it at the tail of that queue, with the state to go on from past
      the call. The head of the ready queue runs. */
  lemma WaitExact(s: State, e: Event)
    requires Inv(s) && Enabled(s, e) && (Issues(s, e, DOIO) || Issues(s, e, CLOCKWAIT))
    ensures s.current.Some?
    ensures var i := if e.saved.a0 == DOIO then SemOfCommand(e.saved.a1) else PSEUDOCLK_SEM;
            var r := Step(s, e);
            && 0 <= i < TOT_SEMS && r.devSems == s.devSems[i := s.devSems[i] - 1] && r.softBlock == s.softBlock + 1
            && r.pcb[s.current.value].semAdd == Some(Dev(i))
            && Queue(r.asl, Dev(i)) == Queue(s.asl, Dev(i)) + [s.current.value]
            && r.pcb[s.current.value].regs == Returned(e, e.saved.a0) && HeadRuns(s.ready, r)
  {
    hide Inv, DoIo, ClockWait, SemOfCommand, Block, HeadRuns;
    StepIsCall(s, e, e.saved.a0);
    var s1 := ChargeTime(s, e.clk.t0);
    var saved := e.saved.(pc := e.saved.pc + WORDLEN);
    if e.saved.a0 == DOIO {
      SemOfCommandRange(e.saved.a1);
      DoIoState(s1, e, saved);
    } else {
      ClockWaitState(s1, e, saved);
    }
  }

  lemma BlockState(s: State, s1: State, k: Sem, clk: Clock)
    requires Inv(s) && s.current.Some? && s.yielded.None? && s1.current == s.current && s1.asl == s.asl
    ensures var r := Block(s1, k, clk);
            && r.devSems == s1.devSems && r.softBlock == s1.softBlock + (if IsDevice(k) then 1 else 0)
            && r.pcb[s.current.value].semAdd == Some(k) && Queue(r.asl, k) == Queue(s.asl, k) + [s.current.value]
            && r.pcb[s.current.value].regs == s1.pcb[s.current.value].regs
            && (s1.yielded.None? ==> HeadRuns(s1.ready, r))
  {
    hide Inv, Scheduler, Park, HeadRuns;
    RoomForCurrent(s);
    ParkedAt(s1, k, clk.t2);
    Scheduled(Park(s1, k, clk.t2), clk.t3);
    if s1.yielded.None? { HeadScheduled(Park(s1, k, clk.t2), clk.t3); }
  }

  lemma DoIoState(s: State, e: Event, saved: Regs)
    requires Inv(s) && s.current.Some? && s.yielded.None? && InDeviceArea(saved.a1)
    ensures var i := SemOfCommand(saved.a1);
            var r := DoIo(s, e, saved);
            && 0 <= i < TOT_SEMS && r.devSems == s.devSems[i := s.devSems[i] - 1] && r.softBlock == s.softBlock + 1
            && r.pcb[s.current.value].semAdd == Some(Dev(i))
            && Queue(r.asl, Dev(i)) == Queue(s.asl, Dev(i)) + [s.current.value]
            && r.pcb[s.current.value].regs == saved && HeadRuns(s.ready, r)
  {
    hide Inv, Block, SemOfCommand, HeadRuns;
    SemOfCommandRange(saved.a1);
    var i := SemOfCommand(saved.a1);
    var s1 := SetRegs(ChargeTime(s, e.clk.t1), s.current.value, saved);
    BlockState(s, s1.(devSems := s1.devSems[i := s1.devSems[i] - 1]), Dev(i), e.clk);
  }

  lemma ClockWaitState(s: State, e: Event, saved: Regs)
    requires Inv(s) && s.current.Some? && s.yielded.None?
    ensures var i := PSEUDOCLK_SEM;
            var r := ClockWait(s, e, saved);
            && r.devSems == s.devSems[i := s.devSems[i] - 1] && r.softBlock == s.softBlock + 1
            && r.pcb[s.current.value].semAdd == Some(Dev(i))
            && Queue(r.asl, Dev(i)) == Queue(s.asl, Dev(i)) + [s.current.value]
            && r.pcb[s.current.value].regs == saved && HeadRuns(s.ready, r)
  {
    hide Inv, Block, HeadRuns;
    var i := PSEUDOCLK_SEM;
    var s1 := SetRegs(ChargeTime(s, e.clk.t1), s.current.value, saved);
    BlockState(s, s1.(devSems := s1.devSems[i := s1.devSems[i] - 1], softBlock := s1.softBlock + 1), Dev(i), e.clk);
  }

  /** The pseudo-clock tick wakes every sleeper: its queue is empty and its semaphore zero. */
  lemma TickExact(s: State, e: Event)
    requires Inv(s) && Enabled(s, e) && e.interrupt && e.saved.cause == 3
    ensures var r := Step(s, e);
            && Queue(r.asl, Dev(PSEUDOCLK_SEM)) == [] && r.devSems[PSEUDOCLK_SEM] == 0
            && forall p: Id :: s.pcb[p].semAdd == Some(Dev(PSEUDOCLK_SEM)) ==>
                 r.pcb[p].semAdd == None && r.pcb[p].regs.a0 == 0
  {
    StepInv(s, e);
    TickQueue(s, e);
    forall p: Id | s.pcb[p].semAdd == Some(Dev(PSEUDOCLK_SEM))
      ensures Step(s, e).pcb[p].semAdd == None && Step(s, e).pcb[p].regs.a0 == 0
    {
      TickWakes(s, e, p);
    }
  }

  lemma TickQueue(s: State, e: Event)
    requires Inv(s) && Enabled(s, e) && e.interrupt && e.saved.cause == 3
    ensures var r := Step(s, e); Queue(r.asl, Dev(PSEUDOCLK_SEM)) == [] && r.devSems[PSEUDOCLK_SEM] == 0
  {
    hide Inv, Scheduler, WakeSleepers;
    var s1 := StampInterrupt(ChargeTime(s, e.clk.t0), e.clk.t1);
    SleepersGone(s1);
    var s2 := WakeSleepers(s1).(devSems := WakeSleepers(s1).devSems[PSEUDOCLK_SEM := 0]);
    Scheduled(s2, e.clk.t3);
  }

  lemma {:induction false} SleepersGone(s: State)
    ensures Queue(WakeSleepers(s).asl, Dev(PSEUDOCLK_SEM)) == []
    decreases |Queue(s.asl, Dev(PSEUDOCLK_SEM))|
  {
    if Queue(s.asl, Dev(PSEUDOCLK_SEM)) != [] {
      WakeHeadRest(s, Dev(PSEUDOCLK_SEM), Some(0), false);
      hide WakeHead;
      SleepersGone(WakeSleeper(s));
    }
  }

  lemma TickWakes(s: State, e: Event, p: Id)
    requires Inv(s) && Enabled(s, e) && e.interrupt && e.saved.cause == 3
    requires s.pcb[p].semAdd == Some(Dev(PSEUDOCLK_SEM))
    ensures Step(s, e).pcb[p].semAdd == None && Step(s, e).pcb[p].regs.a0 == 0
  {
    assert Places(s, p) == 1;
    StepOutcome(s, e, p);
    StepInv(s, e);
    hide Step, Scheduler, WakeSleepers;
  }
}
