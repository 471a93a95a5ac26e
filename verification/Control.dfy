/** Where the processor goes after each exception, and with which registers: traps, interrupts, the
    time slice, and the calls that end in another place than behind the call. */
module Control {
  import opened Queues
  import opened Nucleus
  import opened NucleusInvariant
  import opened BlockAndWake
  import opened Lifecycle
  import opened Termination
  import opened NucleusRun
  import opened Verdict
  import opened CpuTime
  import opened Priority
  import opened Wakeups
  import opened Calls

  // ---------------------------------------------------------------- traps

  /** A trap of a process with a support structure, by the codes of the cause register: memory and
      TLB exceptions go to the page fault handler, everything else to the general handler, a call
      past its ecall, and a privileged call from user mode as a privileged instruction. Nothing but
      the time the process used changes. */
  lemma TrapExact(s: State, e: Event)
    requires Inv(s) && Enabled(s, e) && !e.interrupt && s.current.Some? && s.pcb[s.current.value].support != 0
    ensures var r := Step(s, e);
            var sup := s.pcb[s.current.value].support;
            var code := e.saved.cause;
            var past := e.saved.(pc := e.saved.pc + 4);
            && (code in {12, 13, 15, 24, 25, 26, 27, 28} ==> OnlyCharged(s, r) && r.cpu == Handler(sup, 0, e.saved))
            && (code !in {8, 11, 12, 13, 15, 24, 25, 26, 27, 28} ==>
                  OnlyCharged(s, r) && r.cpu == Handler(sup, 1, e.saved))
            && (code in {8, 11} && !(-10 <= e.saved.a0 <= -1) && (e.saved.user ==> e.saved.a0 >= 0) ==>
                  OnlyCharged(s, r) && r.cpu == Handler(sup, 1, past))
            && (code in {8, 11} && e.saved.user && e.saved.a0 < 0 ==>
                  OnlyCharged(s, r) && r.cpu == Handler(sup, 1, past.(cause := 10)))
  {
    hide Inv, OnlyCharged, ChargeTime, Create, Terminate, Passeren, Verhogen, DoIo, ClockWait, Yield, GetTime,
         GetProcessId, InterruptHandler;
    forall cpu: Cpu { ChargedOnly(s, e.clk.t0, cpu); }
    SameCoreInv(s, ChargeTime(s, e.clk.t0)) by { ChargeCore(s, e.clk.t0); }
    ChargeCore(s, e.clk.t0);
  }

  lemma ChargeCore(s: State, now: int)
    ensures SameCore(s, ChargeTime(s, now))
    ensures ChargeTime(s, now).current == s.current && ChargeTime(s, now).yielded == s.yielded
    ensures ChargeTime(s, now).ready == s.ready && ChargeTime(s, now).asl == s.asl
    ensures forall p: Id :: ChargeTime(s, now).pcb[p] == s.pcb[p].(time := ChargeTime(s, now).pcb[p].time)
  {
  }

  // ---------------------------------------------------------------- calls that only answer

  /** GETSUPPORTPTR returns the caller's support structure and changes nothing. */
  lemma SupportExact(s: State, e: Event)
    requires Inv(s) && Enabled(s, e) && Issues(s, e, GETSUPPORTPTR)
    ensures s.current.Some? && OnlyCharged(s, Step(s, e))
    ensures Step(s, e).cpu == Load(Returned(e, s.pcb[s.current.value].support))
  {
    hide Inv, OnlyCharged, ChargeTime, PassUpOrDie, Create, Terminate, Passeren, Verhogen, DoIo, ClockWait, Yield,
         GetTime, GetProcessId;
    StepIsCall(s, e, GETSUPPORTPTR);
    ChargedOnly(s, e.clk.t0, Load(Returned(e, s.pcb[s.current.value].support)));
    ChargeCore(s, e.clk.t0);
  }

  // ---------------------------------------------------------------- giving up the processor

  /** Behind every member that ranks at least as high, in front of every other. */
  ghost predicate Behind(q: seq<Id>, c: Id, t: PcbTable, r: seq<Id>) {
    exists k: nat :: k <= |q| && r == q[..k] + [c] + q[k..]
                     && (forall i :: 0 <= i < k ==> t[q[i]].prio >= t[c].prio)
                     && (k < |q| ==> t[q[k]].prio < t[c].prio)
  }

  lemma InsertBehind(q: seq<Id>, c: Id, t: PcbTable)
    ensures Behind(q, c, t, InsertByPrio(q, c, Prios(t)))
  {
    var k := Slot(q, Prios(t)[c], Prios(t));
    assert InsertByPrio(q, c, Prios(t)) == q[..k] + [c] + q[k..];
  }

  /** Where a process that could go on with `regs`, but gives up the processor to its equals, ends:
      it runs on unless the head of the ready queue ranks at least as high; then that one runs, and
      the process is ready behind all that rank at least as high. */
  ghost predicate GivesWay(s: State, r: State, c: Id, regs: Regs) {
    && r.pcb[c].regs == regs
    && if s.ready != [] && s.pcb[s.ready[0]].prio >= s.pcb[c].prio
       then r.current == Some(s.ready[0]) && r.cpu == Load(s.pcb[s.ready[0]].regs)
            && Behind(s.ready[1..], c, s.pcb, r.ready)
       else r.current == Some(c) && r.cpu == Load(regs) && r.ready == s.ready
  }

  lemma InsertTail(q: seq<Id>, c: Id, t: PcbTable)
    requires q != [] && t[q[0]].prio >= t[c].prio
    ensures InsertByPrio(q, c, Prios(t)) == [q[0]] + InsertByPrio(q[1..], c, Prios(t))
  {
    var pr := Prios(t);
    assert Slot(q, pr[c], pr) == 1 + Slot(q[1..], pr[c], pr);
  }

  lemma InsertFront(q: seq<Id>, c: Id, t: PcbTable)
    requires q == [] || t[q[0]].prio < t[c].prio
    ensures InsertByPrio(q, c, Prios(t)) == [c] + q
  {
  }

  /** The processor timer ends the time slice: the state of the running process is saved, with
      interrupts enabled, and it gives way. Nobody else's PCB changes. */
  lemma TimerExact(s: State, e: Event)
    requires Inv(s) && Enabled(s, e) && e.interrupt && e.saved.cause == 7 && s.current.Some?
    ensures var c := s.current.value;
            var r := Step(s, e);
            && GivesWay(s, r, c, e.saved.(mie := true))
            && r.pcb[c] == s.pcb[c].(regs := e.saved.(mie := true), time := r.pcb[c].time)
            && (forall p: Id :: p != c ==> r.pcb[p] == s.pcb[p])
            && r.asl == s.asl && r.free == s.free && r.devSems == s.devSems && r.words == s.words
            && r.softBlock == s.softBlock
  {
    hide Inv, InsertByPrio, Behind;
    NotReady(s);
    var c := s.current.value;
    var r := Step(s, e);
    TimerParts(s, e);
    InsertBehind(if s.ready == [] then [] else s.ready[1..], c, s.pcb);
    if s.ready != [] && s.pcb[s.ready[0]].prio >= s.pcb[c].prio {
      InsertTail(s.ready, c, s.pcb);
    } else {
      InsertFront(s.ready, c, s.pcb);
      assert ([c] + s.ready)[1..] == s.ready;
    }
  }

  lemma NotReady(s: State)
    requires Inv(s) && s.current.Some?
    ensures s.current.value !in s.ready
  {
    assert Places(s, s.current.value) == 1;
    CountIn(s.ready, s.current.value);
  }

  lemma TimerParts(s: State, e: Event)
    requires Inv(s) && Enabled(s, e) && e.interrupt && e.saved.cause == 7 && s.current.Some?
    ensures var c := s.current.value;
            var r := Step(s, e);
            && HeadRuns(InsertByPrio(s.ready, c, Prios(s.pcb)), r)
            && r.pcb[c] == s.pcb[c].(regs := e.saved.(mie := true), time := r.pcb[c].time)
            && (forall p: Id :: p != c ==> r.pcb[p] == s.pcb[p])
            && r.asl == s.asl && r.free == s.free && r.devSems == s.devSems && r.words == s.words
            && r.softBlock == s.softBlock
  {
    hide Inv, InsertByPrio, HeadRuns, Scheduler, WakeSleepers, DeviceInterrupt;
    var c := s.current.value;
    var s1 := SetRegs(StampInterrupt(ChargeTime(s, e.clk.t0), e.clk.t1), c, e.saved.(mie := true));
    var s2 := MakeReady(s1, c).(current := None);
    SamePrios(s, s1);
    Scheduled(s2, e.clk.t3);
    HeadScheduled(s2, e.clk.t3);
  }

  /** YIELD: the same, with the state past the call. */
  lemma YieldExact(s: State, e: Event)
    requires Inv(s) && Enabled(s, e) && Issues(s, e, YIELD)
    ensures s.current.Some?
    ensures var c := s.current.value;
            var r := Step(s, e);
            && GivesWay(s, r, c, Returned(e, YIELD))
            && r.pcb[c] == s.pcb[c].(regs := Returned(e, YIELD), time := r.pcb[c].time)
            && (forall p: Id :: p != c ==> r.pcb[p] == s.pcb[p])
  {
    hide Inv, Yield, Behind, InsertByPrio, SyscallHandler;
    StepIsCall(s, e, YIELD);
    CallIsYield(ChargeTime(s, e.clk.t0), e);
    YieldParts(s, e);
    NotReady(s);
    var c := s.current.value;
    if s.ready != [] && s.pcb[s.ready[0]].prio >= s.pcb[c].prio {
      InsertTail(s.ready, c, s.pcb);
      InsertBehind(s.ready[1..], c, s.pcb);
    }
  }

  lemma CallIsYield(s: State, e: Event)
    requires Inv(s) && s.current.Some? && s.yielded.None? && Issues(s, e, YIELD)
    ensures var saved := e.saved.(pc := e.saved.pc + WORDLEN);
            SyscallHandler(s, e, saved) == Yield(s, e, saved)
  {
    hide Yield, Inv;
  }

  lemma YieldParts(s: State, e: Event)
    requires Inv(s) && s.current.Some? && s.yielded.None?
    ensures var c := s.current.value;
            var saved := e.saved.(pc := e.saved.pc + WORDLEN);
            var r := Yield(ChargeTime(s, e.clk.t0), e, saved);
            && r.pcb[c] == s.pcb[c].(regs := saved, time := r.pcb[c].time)
            && (forall p: Id :: p != c ==> r.pcb[p] == s.pcb[p])
            && if s.ready != [] && s.pcb[s.ready[0]].prio >= s.pcb[c].prio
               then HeadRuns(InsertByPrio(s.ready, c, Prios(s.pcb)), r)
               else r.current == Some(c) && r.cpu == Load(saved) && r.ready == s.ready
  {
    hide Inv, InsertByPrio;
    var c := s.current.value;
    var saved := e.saved.(pc := e.saved.pc + WORDLEN);
    var s1 := SetRegs(ChargeTime(ChargeTime(s, e.clk.t0), e.clk.t1), c, saved).(yielded := Some(c), current := None);
    SamePrios(s, s1);
    SamePrios(s, s1.(yielded := None));
    if s.ready != [] && s.pcb[s.ready[0]].prio >= s.pcb[c].prio {
      InsertTail(s.ready, c, s.pcb);
      assert InsertByPrio(s.ready, c, Prios(s.pcb)) != [];
    }
  }

  // ---------------------------------------------------------------- interrupts that do not preempt

  /** The clock tick and device interrupts leave the running process where it was interrupted. */
  lemma InterruptResumes(s: State, e: Event)
    requires Inv(s) && Enabled(s, e) && e.interrupt && e.saved.cause != 7 && s.current.Some?
    ensures var c := s.current.value;
            var r := Step(s, e);
            && r.current == Some(c) && r.cpu == Load(e.saved)
            && r.pcb[c] == s.pcb[c].(time := r.pcb[c].time)
  {
    hide Inv, InterruptEffect, Scheduler;
    var s1 := StampInterrupt(ChargeTime(s, e.clk.t0), e.clk.t1);
    SameCoreInv(s, s1);
    EffectCurrent(s1, e);
  }

  lemma EffectCurrent(s: State, e: Event)
    requires Inv(s) && e.interrupt && e.saved.cause != 7 && s.current.Some?
    ensures var r := InterruptEffect(s, e); r.current == s.current && r.pcb[s.current.value] == s.pcb[s.current.value]
  {
    hide Placement, Pids, Links, Counts, Sems, DeviceInterrupt, WakeSleepers;
    var c := s.current.value;
    if e.saved.cause == 3 {
      SleepersPcb(s, c);
      SleepersCurrent(s);
      CurrentUnblocked(s);
    } else if 17 <= e.saved.cause <= 21 {
      DeviceCurrent(s, e);
      DevicePcb(s, e, c);
      CurrentUnblocked(s);
    }
  }

  lemma CurrentUnblocked(s: State)
    requires Placement(s) && s.current.Some?
    ensures s.pcb[s.current.value].semAdd.None?
  {
    assert Places(s, s.current.value) == 1;
  }

  lemma {:induction false} SleepersCurrent(s: State)
    ensures WakeSleepers(s).current == s.current
    decreases |Queue(s.asl, Dev(PSEUDOCLK_SEM))|
  {
    if Queue(s.asl, Dev(PSEUDOCLK_SEM)) != [] {
      WakeHeadRest(s, Dev(PSEUDOCLK_SEM), Some(0), false);
      hide WakeHead;
      SleepersCurrent(WakeSleeper(s));
    }
  }

  // ---------------------------------------------------------------- who becomes ready

  /** The ready queue after processes have entered it by priority, one after the other. */
  function Entered(q: seq<Id>, ps: seq<Id>, pr: seq<int>): seq<Id>
    requires |pr| == MAXPROC
    decreases |ps|
  {
    if ps == [] then q else Entered(InsertByPrio(q, ps[0], pr), ps[1..], pr)
  }

  /** The first waiter of device semaphore `i`, if there is one. */
  function Waiter(s: State, i: int): seq<Id> {
    if Queue(s.asl, Dev(i)) == [] then [] else [Queue(s.asl, Dev(i))[0]]
  }

  /** The ready queue with those in it that an interrupt wakes: the sleepers in the order in which
      they went to sleep; the first waiter of a device; of a terminal the one that sent, at the
      tail, and then the one that receives. */
  function Arrived(s: State, e: Event): seq<Id> {
    var pr := Prios(s.pcb);
    if e.saved.cause == 3 then Entered(s.ready, Queue(s.asl, Dev(PSEUDOCLK_SEM)), pr)
    else if !(17 <= e.saved.cause <= 21) || LowestDevice(e.pending, 0).None? then s.ready
    else
      var d := LowestDevice(e.pending, 0).value;
      if e.saved.cause < 21 then Entered(s.ready, Waiter(s, 8 * (e.saved.cause - 17) + d), pr)
      else
        var q := if e.txStatus % 256 == 5 then s.ready + Waiter(s, 32 + d) else s.ready;
        if e.status % 256 == 5 then Entered(q, Waiter(s, 40 + d), pr) else q
  }

  lemma DeliverArrives(s: State, i: nat, status: int, atTail: bool)
    requires i < TOT_SEMS && |Queue(s.asl, Dev(i))| <= -s.devSems[i]
    ensures var r := Deliver(s, i, status, atTail);
            && Prios(r.pcb) == Prios(s.pcb) && r.yielded == s.yielded
            && r.ready == if atTail then s.ready + Waiter(s, i) else Entered(s.ready, Waiter(s, i), Prios(s.pcb))
  {
    hide InsertByPrio, DropBlocked;
    var s1 := s.(devSems := s.devSems[i := s.devSems[i] + 1]);
    if s.devSems[i] < 0 && Queue(s1.asl, Dev(i)) != [] {
      WakeArrives(s1, Dev(i), Some(status), atTail);
      OneEnters(s.ready, Queue(s.asl, Dev(i))[0], Prios(s.pcb));
    }
  }

  lemma OneEnters(q: seq<Id>, p: Id, pr: seq<int>)
    requires |pr| == MAXPROC
    ensures Entered(q, [p], pr) == InsertByPrio(q, p, pr)
  {
    hide InsertByPrio;
    assert [p][1..] == [];
  }

  lemma WakeArrives(s: State, k: Sem, result: Option<int>, atTail: bool)
    requires Queue(s.asl, k) != []
    ensures var r := WakeHead(s, k, result, atTail);
            var p := Queue(s.asl, k)[0];
            && Prios(r.pcb) == Prios(s.pcb) && r.yielded == s.yielded
            && r.ready == if atTail then s.ready + [p] else InsertByPrio(s.ready, p, Prios(s.pcb))
  {
    hide InsertByPrio, DropBlocked;
    var p := Queue(s.asl, k)[0];
    var s1 := RemoveBlocked(s, k);
    var s2 := if result.None? then s1 else SetRegs(s1, p, s1.pcb[p].regs.(a0 := result.value));
    SamePrios(s, s2);
  }

  lemma {:induction false} SleepersArrive(s: State)
    ensures var r := WakeSleepers(s);
            && Prios(r.pcb) == Prios(s.pcb) && r.yielded == s.yielded
            && r.ready == Entered(s.ready, Queue(s.asl, Dev(PSEUDOCLK_SEM)), Prios(s.pcb))
    decreases |Queue(s.asl, Dev(PSEUDOCLK_SEM))|
  {
    var k := Dev(PSEUDOCLK_SEM);
    if Queue(s.asl, k) != [] {
      WakeHeadRest(s, k, Some(0), false);
      WakeArrives(s, k, Some(0), false);
      hide WakeHead, InsertByPrio;
      SleepersArrive(WakeSleeper(s));
    }
  }

  lemma TerminalArrives(s: State, d: nat, e: Event)
    requires Sems(s) && d < 8
    ensures var s1 := if e.txStatus % 256 == 5 then Deliver(s, 32 + d, e.txStatus, true) else s;
            var r := if e.status % 256 == 5 then Deliver(s1, 40 + d, e.status, false) else s1;
            var q := if e.txStatus % 256 == 5 then s.ready + Waiter(s, 32 + d) else s.ready;
            && r.yielded == s.yielded
            && r.ready == if e.status % 256 == 5 then Entered(q, Waiter(s, 40 + d), Prios(s.pcb)) else q
  {
    hide Deliver, Entered;
    var s1 := if e.txStatus % 256 == 5 then Deliver(s, 32 + d, e.txStatus, true) else s;
    assert |Queue(s.asl, Dev(32 + d))| <= -s.devSems[32 + d] && |Queue(s.asl, Dev(40 + d))| <= -s.devSems[40 + d];
    DeliverArrives(s, 32 + d, e.txStatus, true);
    DeliverPcb(s, 32 + d, e.txStatus, true);
    DeliverArrives(s1, 40 + d, e.status, false);
  }

  lemma EffectArrives(s: State, e: Event)
    requires Sems(s) && e.interrupt && e.saved.cause != 7
    ensures var r := InterruptEffect(s, e); r.ready == Arrived(s, e) && r.yielded == s.yielded
  {
    hide Deliver, WakeSleepers, LowestDevice, InsertByPrio, Entered;
    SleepersArrive(s);
    if 17 <= e.saved.cause <= 21 && LowestDevice(e.pending, 0).Some? {
      var d := LowestDevice(e.pending, 0).value;
      if e.saved.cause == 21 {
        TerminalArrives(s, d, e);
      } else {
        var i := DevSem(e.saved.cause - 14, d);
        assert |Queue(s.asl, Dev(i))| <= -s.devSems[i];
        DeliverArrives(s, i, e.status, false);
      }
    }
  }

  /** After an interrupt other than the timer's the ready queue holds those it woke, in their places;
      if the processor was waiting, the head of the queue runs. */
  lemma InterruptArrivals(s: State, e: Event)
    requires Inv(s) && Enabled(s, e) && e.interrupt && e.saved.cause != 7
    ensures if s.current.Some? then Step(s, e).ready == Arrived(s, e) else HeadRuns(Arrived(s, e), Step(s, e))
  {
    hide Inv, InterruptEffect, Scheduler, Arrived, HeadRuns;
    var s1 := StampInterrupt(ChargeTime(s, e.clk.t0), e.clk.t1);
    SameCoreInv(s, s1);
    InvSems(s1);
    EffectArrives(s1, e);
    EffectFrom(s1, e);
    ArrivedSame(s, s1, e);
    if s.current.None? { HeadScheduled(InterruptEffect(s1, e), e.clk.t3); }
  }

  lemma ArrivedSame(s: State, r: State, e: Event)
    requires r.ready == s.ready && r.asl == s.asl && forall p: Id :: r.pcb[p].prio == s.pcb[p].prio
    ensures Arrived(s, e) == Arrived(r, e)
  {
    hide Entered, LowestDevice;
    SamePrios(s, r);
  }

  // ---------------------------------------------------------------- the death of the caller

  lemma DiesAndSchedules(s: State, v: Id, now: int)
    requires Inv(s) && Live(s, v) && s.yielded.None? && s.current.Some? && Under(s, s.current.value, v)
    ensures var r := TerminateTree(s, v);
            && r.current.None? && r.ready == Without(s.ready, Subtree(s, v))
            && HeadRuns(r.ready, Scheduler(r, now)) && HeadRuns(r.ready, Scheduler(r.(current := None), now))
            && !Live(Scheduler(r, now), s.current.value)
  {
    TerminateExact(s, v);
    var r := TerminateTree(s, v);
    assert s.current.value in Subtree(s, v) by { CurrentLive(s); }
    assert r.yielded.None? by { ShrunkYield(s, v); }
    hide Placement, Pids, Links, Counts, Sems, TerminateTree, Scheduler, HeadRuns, Subtree;
    assert r == r.(current := None);
    HeadScheduled(r, now);
    Scheduled(r, now);
  }

  lemma ShrunkYield(s: State, v: Id)
    requires Inv(s) && Live(s, v) && s.yielded.None?
    ensures TerminateTree(s, v).yielded.None?
  {
    hide Inv;
  }

  /** A trap of a process without a support structure terminates its subtree, and the first of the
      ready processes left runs. */
  lemma DeathExact(s: State, e: Event)
    requires Inv(s) && Enabled(s, e) && s.current.Some? && IsVictim(s, e, s.current.value)
    requires !Issues(s, e, TERMPROCESS)
    ensures !Live(Step(s, e), s.current.value) && HeadRuns(Without(s.ready, Subtree(s, s.current.value)), Step(s, e))
  {
    hide Placement, Pids, Links, Counts, Sems, Scheduler, TerminateTree, HeadRuns, Subtree, ChargeTime, Create,
         Passeren, Verhogen, DoIo, ClockWait, Yield, GetTime, GetProcessId, InterruptHandler, Terminate, Under;
    var c := s.current.value;
    ChargeCore(s, e.clk.t0);
    var s1 := ChargeTime(s, e.clk.t0);
    SameCoreInv(s, s1);
    ChargeCore(s1, e.clk.t1);
    var s2 := ChargeTime(s1, e.clk.t1);
    SameCoreInv(s1, s2);
    CurrentLive(s2);
    SelfUnder(s2, c);
    DiesAndSchedules(s2, c, e.clk.t3);
    SubtreeSame(s, s2, c);
    DeathIs(s, e);
  }

  lemma SelfUnder(s: State, c: Id)
    requires Links(s)
    ensures Under(s, c, c)
  {
  }

  lemma DeathIs(s: State, e: Event)
    requires Inv(s) && Enabled(s, e) && s.current.Some? && IsVictim(s, e, s.current.value) && !Issues(s, e, TERMPROCESS)
    ensures var s1 := ChargeTime(s, e.clk.t0);
            var s2 := ChargeTime(s1, e.clk.t1);
            && Inv(s2) && Live(s2, s.current.value) && s2.yielded.None?
            && Step(s, e) == Scheduler(TerminateTree(s2, s.current.value).(current := None), e.clk.t3)
  {
    hide Placement, Pids, Links, Counts, Sems, Scheduler, TerminateTree, Create,
         Passeren, Verhogen, DoIo, ClockWait, Yield, GetTime, GetProcessId, InterruptHandler, Terminate;
    var s1 := ChargeTime(s, e.clk.t0);
    SameCoreInv(s, s1);
    var s2 := ChargeTime(s1, e.clk.t1);
    SameCoreInv(s1, s2);
    CurrentLive(s2);
  }

  lemma SubtreeSame(s: State, r: State, v: Id)
    requires Tree(s) && Tree(r) && SameCore(s, r)
    ensures Subtree(s, v) == Subtree(r, v)
  {
    hide Pids, Links, Under;
    forall q: Id { UnderSame(s, r, q, v); }
  }

  /** TERMPROCESS: with nobody of that pid, and with a victim the caller does not descend from, the
      caller goes on; otherwise it dies with the subtree and the first of the ready processes left
      runs. */
  lemma KillExact(s: State, e: Event)
    requires Inv(s) && Enabled(s, e) && Issues(s, e, TERMPROCESS)
    ensures s.current.Some?
    ensures var c := s.current.value;
            var r := Step(s, e);
            && ((forall v: Id :: !Named(s, e.saved.a1, v)) ==>
                  OnlyCharged(s, r) && r.cpu == Load(Returned(e, TERMPROCESS)))
            && (forall v: Id :: Named(s, e.saved.a1, v) ==>
                  if Under(s, c, v) then !Live(r, c) && HeadRuns(Without(s.ready, Subtree(s, v)), r)
                  else r.current == Some(c) && r.cpu == Load(Returned(e, TERMPROCESS))
                       && r.ready == Without(s.ready, Subtree(s, v)))
  {
    hide Inv, SyscallHandler, Terminate, Under, Subtree, HeadRuns, OnlyCharged, Named;
    StepIsCall(s, e, TERMPROCESS);
    CallIsKill(ChargeTime(s, e.clk.t0), e);
    KillParts(s, e);
  }

  lemma CallIsKill(s: State, e: Event)
    requires Inv(s) && s.current.Some? && s.yielded.None? && Issues(s, e, TERMPROCESS)
    ensures var saved := e.saved.(pc := e.saved.pc + WORDLEN);
            SyscallHandler(s, e, saved) == Terminate(s, e, saved)
  {
    hide Terminate, Inv;
  }

  lemma KillParts(s: State, e: Event)
    requires Inv(s) && s.current.Some? && s.yielded.None? && Inv(ChargeTime(s, e.clk.t0))
    ensures var c := s.current.value;
            var saved := e.saved.(pc := e.saved.pc + WORDLEN);
            var r := Terminate(ChargeTime(s, e.clk.t0), e, saved);
            && ((forall v: Id :: !Named(s, saved.a1, v)) ==> OnlyCharged(s, r) && r.cpu == Load(saved))
            && (forall v: Id :: Named(s, saved.a1, v) ==>
                  if Under(s, c, v) then !Live(r, c) && HeadRuns(Without(s.ready, Subtree(s, v)), r)
                  else r.current == Some(c) && r.cpu == Load(saved) && r.ready == Without(s.ready, Subtree(s, v)))
  {
    hide Placement, Pids, Links, Counts, Sems, Scheduler, TerminateTree, FindFrom, Under, Subtree, HeadRuns, ChargeTime,
         OnlyCharged;
    var c := s.current.value;
    var saved := e.saved.(pc := e.saved.pc + WORDLEN);
    ChargeCore(s, e.clk.t0);
    var s0 := ChargeTime(s, e.clk.t0);
    ChargeCore(s0, e.clk.t1);
    var s1 := ChargeTime(s0, e.clk.t1);
    SameCoreInv(s0, s1);
    ChargedTwice(s, e.clk.t0, e.clk.t1, Load(saved));
    FindExact(s1, saved.a1);
    var t := Target(s1, saved.a1);
    assert forall v: Id :: t == Some(v) <==> Named(s, saved.a1, v);
    CurrentLive(s1);
    if t.Some? {
      var v := t.value;
      SubtreeSame(s, s1, v);
      UnderSame(s, s1, c, v);
      KillTarget(s1, v, c, e.clk.t3);
    }
  }

  lemma KillTarget(s: State, v: Id, c: Id, now: int)
    requires Inv(s) && Live(s, v) && s.yielded.None? && s.current == Some(c)
    ensures var r := TerminateTree(s, v);
            && r.ready == Without(s.ready, Subtree(s, v))
            && (Under(s, c, v) ==>
                  r.current.None? && !Live(Scheduler(r, now), c) && HeadRuns(r.ready, Scheduler(r, now)))
            && (!Under(s, c, v) ==> r.current == Some(c))
  {
    if Under(s, c, v) {
      DiesAndSchedules(s, v, now);
    } else {
      TerminateExact(s, v);
    }
  }

  // ---------------------------------------------------------------- dispatches

  /** Whoever runs after an exception and did not before is loaded with the state its PCB holds. */
  lemma StepDispatch(s: State, e: Event)
    requires Inv(s) && Enabled(s, e)
    ensures var r := Step(s, e);
            r.current.Some? && r.current != s.current ==> r.cpu == Load(r.pcb[r.current.value].regs)
  {
    hide Inv, InterruptHandler, SyscallHandler, PassUpOrDie, Fresh;
    var s1 := ChargeTime(s, e.clk.t0);
    SameCoreInv(s, s1);
    if e.interrupt {
      InterruptFresh(s1, e);
    } else {
      PassUpFresh(s1, PGFAULTEXCEPT, e, e.saved);
      PassUpFresh(s1, GENERALEXCEPT, e, e.saved);
      if IsSyscall(e.saved.cause) { SyscallFresh(s1, e, e.saved.(pc := e.saved.pc + WORDLEN)); }
    }
    FreshMeans(s1, Step(s, e));
  }

  ghost predicate Fresh(s: State, r: State) {
    r.current.Some? && r.current != s.current ==> r.cpu == Load(r.pcb[r.current.value].regs)
  }

  lemma FreshMeans(s: State, r: State)
    requires Fresh(s, r)
    ensures r.current.Some? && r.current != s.current ==> r.cpu == Load(r.pcb[r.current.value].regs)
  {
  }

  lemma ScheduledFresh(s: State, q: State, now: int)
    ensures Fresh(s, Scheduler(q, now))
  {
    hide InsertByPrio;
  }

  lemma SameFresh(s: State, r: State)
    requires r.current == s.current || r.current.None?
    ensures Fresh(s, r)
  {
  }

  lemma InterruptFresh(s: State, e: Event)
    requires Inv(s) && e.interrupt
    ensures Fresh(s, InterruptHandler(s, e))
  {
    hide Inv, Scheduler, InterruptEffect, Fresh;
    var s1 := StampInterrupt(s, e.clk.t1);
    SameCoreInv(s, s1);
    if e.saved.cause != 7 && s1.current.Some? { EffectCurrent(s1, e); }
    ScheduledFresh(s, InterruptEffect(s1, e), e.clk.t3);
    if e.saved.cause != 7 && InterruptEffect(s1, e).current.Some? {
      EffectFrom(s1, e);
      SameFresh(s, InterruptHandler(s, e));
    }
  }

  lemma EffectFrom(s: State, e: Event)
    requires e.interrupt && e.saved.cause != 7
    ensures InterruptEffect(s, e).current == s.current
  {
    hide DeviceInterrupt, WakeSleepers;
    SleepersCurrent(s);
    if 17 <= e.saved.cause <= 21 { DeviceCurrent(s, e); }
  }

  lemma PassUpFresh(s: State, kind: int, e: Event, saved: Regs)
    requires Inv(s) && s.current.Some? && s.yielded.None?
    ensures Fresh(s, PassUpOrDie(s, kind, e, saved))
  {
    hide Placement, Pids, Links, Counts, Sems, Scheduler, TerminateTree, Fresh;
    var c := s.current.value;
    if s.pcb[c].support != 0 {
      SameFresh(s, PassUpOrDie(s, kind, e, saved));
    } else {
      var s1 := ChargeTime(s, e.clk.t1);
      SameCoreInv(s, s1);
      CurrentLive(s1);
      ScheduledFresh(s, TerminateTree(s1, c).(current := None), e.clk.t3);
    }
  }

  lemma BlockFresh(s: State, q: State, k: Sem, clk: Clock)
    requires q.current.Some?
    ensures Fresh(s, Block(q, k, clk))
  {
    hide Scheduler, Fresh, Park;
    ScheduledFresh(s, Park(q, k, clk.t2), clk.t3);
  }

  lemma TerminateFresh(s: State, e: Event, saved: Regs)
    requires Inv(s) && s.current.Some? && s.yielded.None?
    ensures Fresh(s, Terminate(s, e, saved))
  {
    hide Placement, Pids, Links, Counts, Sems, Scheduler, TerminateTree, FindFrom, Fresh, Subtree, TablesWithout,
         QueuesWithout, ActiveWithout, CountsWithout;
    var s1 := ChargeTime(s, e.clk.t1);
    SameCoreInv(s, s1);
    CurrentLive(s1);
    FindLive(s1, saved.a1, 0);
    var t := Target(s1, saved.a1);
    if t.None? {
      SameFresh(s, Terminate(s, e, saved));
    } else {
      TerminateExact(s1, t.value);
      var s2 := TerminateTree(s1, t.value);
      ScheduledFresh(s, s2, e.clk.t3);
      if s2.current.Some? { SameFresh(s, Terminate(s, e, saved)); }
    }
  }

  lemma CreateFresh(s: State, e: Event, saved: Regs)
    requires Inv(s) && s.current.Some?
    ensures Fresh(s, Create(s, e, saved))
  {
    hide Inv, Scheduler, Spawn, Fresh;
    if s.free == [] {
      SameFresh(s, Create(s, e, saved));
    } else {
      RoomToCreate(s);
      ScheduledFresh(s, Spawn(s, e, saved), e.clk.t3);
    }
  }

  lemma VerhogenFresh(s: State, e: Event, saved: Regs)
    requires s.current.Some?
    ensures Fresh(s, Verhogen(s, e, saved))
  {
    hide WakeHead, Fresh;
    var s1 := SetRegs(ChargeTime(s, e.clk.t1), s.current.value, saved);
    var s2 := s1.(words := s1.words[saved.a1 := WordAt(s1.words, saved.a1) + 1]);
    if Queue(s2.asl, Word(saved.a1)) != [] { WakeHeadRest(s2, Word(saved.a1), None, false); }
    SameFresh(s, Verhogen(s, e, saved));
  }

  lemma SyscallFresh(s: State, e: Event, saved: Regs)
    requires Inv(s) && s.current.Some? && s.yielded.None?
    requires saved.a0 == DOIO && !saved.user ==> InDeviceArea(saved.a1)
    ensures Fresh(s, SyscallHandler(s, e, saved))
  {
    hide Inv, Scheduler, PassUpOrDie, Create, Terminate, Verhogen, Block, Fresh, SemOfCommand;
    PassUpFresh(s, GENERALEXCEPT, e, saved);
    PassUpFresh(s, GENERALEXCEPT, e, saved.(cause := PRIVINSTR));
    CreateFresh(s, e, saved);
    TerminateFresh(s, e, saved);
    VerhogenFresh(s, e, saved);
    if InDeviceArea(saved.a1) { SemOfCommandRange(saved.a1); }
    forall q: State, now: int { ScheduledFresh(s, q, now); }
    forall q: State, k: Sem | q.current.Some? { BlockFresh(s, q, k, e.clk); }
    forall r: State | r.current == s.current { SameFresh(s, r); }
  }
}
