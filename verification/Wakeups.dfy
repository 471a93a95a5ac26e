/** Who wakes whom: a blocked process leaves its queue only by termination or by the event its
    semaphore belongs to, and finds exactly the result of that event; no other process that is
    not running is touched. */
module Wakeups {
  import opened Queues
  import opened Nucleus
  import opened NucleusInvariant
  import opened BlockAndWake
  import opened Lifecycle
  import opened Termination
  import opened NucleusRun

  // ---------------------------------------------------------------- the waker of a semaphore

  /** The status interrupt `e` reads, before the ACK, from the sub-device of semaphore `i`; None
      if it acknowledges another one. */
  function Acknowledged(e: Event, i: int): Option<int> {
    if !e.interrupt || !(17 <= e.saved.cause <= 21) then None else
      match LowestDevice(e.pending, 0)
      case None => None
      case Some(d) =>
        if e.saved.cause < 21 then (if i == DevSem(e.saved.cause - 14, d) then Some(e.status) else None)
        else if i == 32 + d && e.txStatus % 256 == OKCHARTRANS then Some(e.txStatus)
        else if i == 40 + d && e.status % 256 == CHARRECV then Some(e.status)
        else None
  }

  /** The V on word `a`, issued by the running process. */
  predicate Signals(e: Event, a: int) {
    !e.interrupt && IsSyscall(e.saved.cause) && !e.saved.user && e.saved.a0 == VERHOGEN && e.saved.a1 == a
  }

  predicate IsHead(q: seq<Id>, p: Id) {
    q != [] && q[0] == p
  }

  /** What `e` owes the waiting process `p`: nothing, or a wake-up with the result it brings. */
  function Due(s: State, e: Event, p: Id): Option<Option<int>> {
    if s.pcb[p].semAdd.None? then None else
      var k := s.pcb[p].semAdd.value;
      if k == Dev(PSEUDOCLK_SEM) then (if e.interrupt && e.saved.cause == 3 then Some(Some(0)) else None)
      else if !IsHead(Queue(s.asl, k), p) then None
      else match k
        case Word(a) => if Signals(e, a) then Some(None) else None
        case Dev(i) => if Acknowledged(e, i).Some? then Some(Acknowledged(e, i)) else None
  }

  /** A PCB after the wake-up it was owed. */
  function After(b: Pcb, due: Option<Option<int>>): Pcb {
    if due.None? then b
    else b.(semAdd := None, regs := if due.value.None? then b.regs else b.regs.(a0 := due.value.value))
  }

  // ---------------------------------------------------------------- one wake-up

  lemma SchedulerPcb(s: State, now: int)
    ensures Scheduler(s, now).pcb == s.pcb && Scheduler(s, now).free == s.free && Scheduler(s, now).asl == s.asl
  {
    hide InsertByPrio;
  }

  lemma WakeHeadPcb(s: State, k: Sem, result: Option<int>, atTail: bool)
    requires Queue(s.asl, k) != []
    ensures forall p: Id :: WakeHead(s, k, result, atTail).pcb[p]
                         == After(s.pcb[p], if p == Queue(s.asl, k)[0] then Some(result) else None)
    ensures forall j :: j != k ==> Queue(WakeHead(s, k, result, atTail).asl, j) == Queue(s.asl, j)
  {
    hide InsertByPrio, RemoveFirst;
  }

  lemma DeliverPcb(s: State, i: nat, status: int, atTail: bool)
    requires i < TOT_SEMS && |Queue(s.asl, Dev(i))| <= -s.devSems[i]
    ensures forall p: Id :: Deliver(s, i, status, atTail).pcb[p]
                         == After(s.pcb[p], if IsHead(Queue(s.asl, Dev(i)), p) then Some(Some(status)) else None)
    ensures forall j :: j != Dev(i) ==> Queue(Deliver(s, i, status, atTail).asl, j) == Queue(s.asl, j)
    ensures forall j :: 0 <= j < TOT_SEMS && j != i ==> Deliver(s, i, status, atTail).devSems[j] == s.devSems[j]
  {
    var s1 := s.(devSems := s.devSems[i := s.devSems[i] + 1]);
    hide WakeHead, After;
    if s.devSems[i] < 0 && Queue(s1.asl, Dev(i)) != [] {
      WakeHeadPcb(s1, Dev(i), Some(status), atTail);
      WakeHeadRest(s1, Dev(i), Some(status), atTail);
    }
    assert forall p: Id :: After(s.pcb[p], None) == s.pcb[p] by { forall p: Id { AfterNone(s.pcb[p]); } }
  }

  lemma AfterNone(b: Pcb)
    ensures After(b, None) == b
  {
  }

  lemma {:induction false} SleepersPcb(s: State, p: Id)
    requires Placement(s)
    ensures WakeSleepers(s).pcb[p]
         == After(s.pcb[p], if s.pcb[p].semAdd == Some(Dev(PSEUDOCLK_SEM)) then Some(Some(0)) else None)
    decreases |Queue(s.asl, Dev(PSEUDOCLK_SEM))|
  {
    var k := Dev(PSEUDOCLK_SEM);
    assert Count(Queue(s.asl, k), p) == One(s.pcb[p].semAdd == Some(k));
    CountIn(Queue(s.asl, k), p);
    if Queue(s.asl, k) != [] {
      var h := Queue(s.asl, k)[0];
      HeadBlocked(s, k);
      WakeHeadPcb(s, k, Some(0), false);
      WakeSleeperPlacement(s);
      hide WakeHead, Placement;
      SleepersPcb(WakeSleeper(s), p);
    }
  }

  lemma WakeSleeperPlacement(s: State)
    requires Placement(s) && Queue(s.asl, Dev(PSEUDOCLK_SEM)) != []
    ensures Placement(WakeSleeper(s))
  {
    hide WakeHead;
    var k := Dev(PSEUDOCLK_SEM);
    WakeHeadWakes(s, s, k, Some(0), false, s.softBlock - 1);
    WokenPlacement(s, WakeSleeper(s), Queue(s.asl, k)[0], k);
  }

  lemma DueOfHead(s: State, k: Sem, p: Id)
    requires Placement(s)
    ensures IsHead(Queue(s.asl, k), p) ==> s.pcb[p].semAdd == Some(k)
  {
    if IsHead(Queue(s.asl, k), p) { HeadBlocked(s, k); }
  }

  lemma TerminalPcb(s: State, d: nat, e: Event, p: Id)
    requires Placement(s) && Sems(s) && e.interrupt && e.saved.cause == 21 && LowestDevice(e.pending, 0) == Some(d)
    ensures DeviceInterrupt(s, 7, e).pcb[p] == After(s.pcb[p], Due(s, e, p))
  {
    hide Deliver, LowestDevice, Placement;
    var tx := e.txStatus % 256 == OKCHARTRANS;
    var rx := e.status % 256 == CHARRECV;
    DueOfHead(s, Dev(32 + d), p);
    DueOfHead(s, Dev(40 + d), p);
    assert |Queue(s.asl, Dev(32 + d))| <= -s.devSems[32 + d] && |Queue(s.asl, Dev(40 + d))| <= -s.devSems[40 + d];
    hide Sems;
    var due := Due(s, e, p);
    assert due == if tx && IsHead(Queue(s.asl, Dev(32 + d)), p) then Some(Some(e.txStatus))
                  else if rx && IsHead(Queue(s.asl, Dev(40 + d)), p) then Some(Some(e.status)) else None;
    hide Due, Acknowledged;
    var s1 := if tx then Deliver(s, 32 + d, e.txStatus, true) else s;
    if tx { DeliverPcb(s, 32 + d, e.txStatus, true); }
    assert Queue(s1.asl, Dev(40 + d)) == Queue(s.asl, Dev(40 + d)) && s1.devSems[40 + d] == s.devSems[40 + d];
    if rx { DeliverPcb(s1, 40 + d, e.status, false); }
    assert DeviceInterrupt(s, 7, e) == if rx then Deliver(s1, 40 + d, e.status, false) else s1;
  }

  /** A device interrupt wakes the head of each queue it acknowledges, and nobody else. */
  lemma DevicePcb(s: State, e: Event, p: Id)
    requires Placement(s) && Sems(s) && e.interrupt && 17 <= e.saved.cause <= 21
    ensures DeviceInterrupt(s, e.saved.cause - 14, e).pcb[p] == After(s.pcb[p], Due(s, e, p))
  {
    hide Deliver, LowestDevice, Placement;
    match LowestDevice(e.pending, 0)
    case None =>
    case Some(d) =>
      var line := e.saved.cause - 14;
      if line == 7 {
        TerminalPcb(s, d, e, p);
      } else {
        DueOfHead(s, Dev(DevSem(line, d)), p);
        DeliverPcb(s, DevSem(line, d), e.status, false);
      }
  }

  // ---------------------------------------------------------------- whole handlers

  lemma DueFrame(s: State, r: State, e: Event, p: Id)
    requires s.asl == r.asl && s.pcb[p].semAdd == r.pcb[p].semAdd
    ensures Due(s, e, p) == Due(r, e, p)
  {
  }

  lemma EffectPcb(s: State, e: Event, p: Id)
    requires Inv(s) && e.interrupt && s.current != Some(p)
    ensures InterruptEffect(s, e).pcb[p] == After(s.pcb[p], Due(s, e, p))
    ensures InterruptEffect(s, e).free == s.free
  {
    hide Pids, Links, Counts, Placement, Sems, DeviceInterrupt, WakeSleepers, InsertByPrio;
    DueElsewhere(s, e, p);
    hide Due;
    if e.saved.cause == 3 {
      SleepersPcb(s, p);
      WakeSleepersInv(s);
    } else if 17 <= e.saved.cause <= 21 {
      DevicePcb(s, e, p);
      DeviceFree(s, e.saved.cause - 14, e);
    }
  }

  lemma InterruptPcb(s0: State, e: Event, p: Id)
    requires Inv(s0) && e.interrupt && s0.current != Some(p)
    ensures InterruptHandler(s0, e).pcb[p] == After(s0.pcb[p], Due(s0, e, p))
    ensures InterruptHandler(s0, e).free == s0.free
  {
    hide Inv, InterruptEffect, Scheduler, After;
    var s := StampInterrupt(s0, e.clk.t1);
    SameCoreInv(s0, s);
    DueFrame(s0, s, e, p);
    EffectPcb(s, e, p);
    assert s.pcb[p] == s0.pcb[p];
    SchedulerPcb(InterruptEffect(s, e), e.clk.t3);
  }

  lemma DueElsewhere(s: State, e: Event, p: Id)
    requires e.interrupt
    ensures !(e.saved.cause == 3 || 17 <= e.saved.cause <= 21) ==> Due(s, e, p) == None
    ensures Placement(s) && Sems(s) && e.saved.cause == 3 ==>
              Due(s, e, p) == if s.pcb[p].semAdd == Some(Dev(PSEUDOCLK_SEM)) then Some(Some(0)) else None
  {
  }

  lemma DeviceFree(s: State, line: int, e: Event)
    requires 3 <= line <= 7
    ensures DeviceInterrupt(s, line, e).free == s.free
  {
    forall r: State, i: nat, status: int, atTail: bool | i < TOT_SEMS { DeliverFree(r, i, status, atTail); }
    hide Deliver;
  }

  lemma DeliverFree(s: State, i: nat, status: int, atTail: bool)
    requires i < TOT_SEMS
    ensures Deliver(s, i, status, atTail).free == s.free
  {
    hide WakeHead;
    var s1 := s.(devSems := s.devSems[i := s.devSems[i] + 1]);
    if Queue(s1.asl, Dev(i)) != [] { WakeHeadRest(s1, Dev(i), Some(status), atTail); }
  }

  /** `p` is as it was, up to its list of children. */
  predicate Kept(s: State, r: State, p: Id) {
    r.pcb[p] == s.pcb[p].(children := r.pcb[p].children)
  }

  lemma BlockPcb(s: State, k: Sem, clk: Clock, p: Id)
    requires s.current.Some? && s.current != Some(p)
    ensures Block(s, k, clk).pcb[p] == s.pcb[p] && Block(s, k, clk).free == s.free
  {
    hide Scheduler;
    SchedulerPcb(Park(s, k, clk.t2), clk.t3);
  }

  lemma QuietCalls(s: State, e: Event, saved: Regs, p: Id)
    requires s.current.Some? && s.current != Some(p)
    ensures Kept(s, Passeren(s, e, saved), p) && Passeren(s, e, saved).free == s.free
    ensures InDeviceArea(saved.a1) ==> Kept(s, DoIo(s, e, saved), p) && DoIo(s, e, saved).free == s.free
    ensures Kept(s, ClockWait(s, e, saved), p) && ClockWait(s, e, saved).free == s.free
    ensures Kept(s, GetTime(s, e, saved), p) && GetTime(s, e, saved).free == s.free
    ensures Kept(s, GetProcessId(s, saved), p) && GetProcessId(s, saved).free == s.free
    ensures Kept(s, Yield(s, e, saved), p) && Yield(s, e, saved).free == s.free
  {
    hide Scheduler, Block, SemOfCommand;
    forall r: State, k: Sem | r.current == s.current { BlockPcb(r, k, e.clk, p); }
    forall r: State, now: int { SchedulerPcb(r, now); }
    if InDeviceArea(saved.a1) { SemOfCommandRange(saved.a1); }
  }

  lemma VerhogenPcb(s: State, e: Event, saved: Regs, p: Id)
    requires Placement(s) && Sems(s) && s.current.Some? && s.current != Some(p)
    ensures Verhogen(s, e, saved).pcb[p]
         == After(s.pcb[p], if IsHead(Queue(s.asl, Word(saved.a1)), p) then Some(None) else None)
    ensures Verhogen(s, e, saved).free == s.free
  {
    hide Placement, WakeHead, After;
    var s1 := SetRegs(ChargeTime(s, e.clk.t1), s.current.value, saved);
    var k := Word(saved.a1);
    var s2 := s1.(words := s1.words[saved.a1 := WordAt(s1.words, saved.a1) + 1]);
    assert |Queue(s.asl, k)| == Debt(WordAt(s.words, saved.a1));
    assert s2.pcb[p] == s.pcb[p];
    AfterNone(s.pcb[p]);
    if Queue(s.asl, k) != [] {
      WakeHeadPcb(s2, k, None, false);
      WakeHeadRest(s2, k, None, false);
    }
  }

  lemma CreatePcb(s: State, e: Event, saved: Regs, p: Id)
    requires Inv(s) && s.current.Some? && s.current != Some(p) && Live(s, p)
    ensures Kept(s, Create(s, e, saved), p) && Live(Create(s, e, saved), p)
  {
    if s.free != [] {
      RoomToCreate(s);
      CountHead(s.free, p);
      hide Inv, Count, Scheduler, InsertByPrio, FreeSlot, Create;
      SchedulerPcb(Spawn(s, e, saved), e.clk.t3);
    }
  }

  // ---------------------------------------------------------------- termination by an event

  lemma {:induction false} FindUpTo(s: State, pid: int, i: nat, p: Id, k: nat)
    requires Inv(s) && Live(s, p) && s.pcb[p].pid == pid
    requires i <= k < MAXPROC && s.active[k] == Some(p)
    ensures FindFrom(s.active, s.pcb, pid, i) == Some(p)
    decreases k - i
  {
    FindLive(s, pid, i);
    if s.active[i].Some? && s.pcb[s.active[i].value].pid == pid {
      assert s.pcb[p].pid >= 1;
    } else {
      hide Inv;
      FindUpTo(s, pid, i + 1, p, k);
    }
  }

  /** `findProcessByPid` finds the one live process with that pid, if there is one. */
  lemma FindExact(s: State, pid: int)
    requires Inv(s)
    ensures forall p: Id :: FindFrom(s.active, s.pcb, pid, 0) == Some(p) <==> Live(s, p) && s.pcb[p].pid == pid
  {
    hide Placement, Pids, Links, Sems, FindFrom, SumDev;
    FindLive(s, pid, 0);
    forall p: Id | Live(s, p) && s.pcb[p].pid == pid
      ensures FindFrom(s.active, s.pcb, pid, 0) == Some(p)
    {
      assert Slots(s.active, Some(p)) == 1;
      SlotIn(s.active, Some(p));
      var k :| 0 <= k < MAXPROC && s.active[k] == Some(p);
      FindUpTo(s, pid, 0, p, k);
    }
  }

  /** The target of TERMPROCESS, by pid. */
  ghost predicate Named(s: State, pid: int, v: Id) {
    if pid == 0 then s.current == Some(v) else Live(s, v) && s.pcb[v].pid == pid
  }

  /** The process whose subtree exception `e` terminates, if any. */
  ghost predicate IsVictim(s: State, e: Event, v: Id) {
    !e.interrupt && s.current.Some? &&
    var c := s.current.value;
    var dies := v == c && s.pcb[c].support == 0;
    if !IsSyscall(e.saved.cause) || e.saved.a0 >= 0 || e.saved.a0 < YIELD || e.saved.user then dies
    else e.saved.a0 == TERMPROCESS && Named(s, e.saved.a1, v)
  }

  lemma {:induction false} UnderSame(s: State, r: State, q: Id, p: Id)
    requires Links(s) && Links(r) && SameShape(s.pcb, r.pcb)
    ensures Under(s, q, p) == Under(r, q, p)
    decreases s.pcb[q].pid
  {
    if q != p && s.pcb[q].parent.Some? {
      assert s.pcb[s.pcb[q].parent.value].pid < s.pcb[q].pid;
      UnderSame(s, r, s.pcb[q].parent.value, p);
    }
  }

  lemma TreeGone(s: State, v: Id, p: Id)
    requires Inv(s) && Live(s, v) && s.yielded.None? && Live(s, p)
    ensures Live(TerminateTree(s, v), p) <==> !Under(s, p, v)
    ensures Live(TerminateTree(s, v), p) ==> Kept(s, TerminateTree(s, v), p)
    ensures Inv(TerminateTree(s, v))
  {
    TerminateExact(s, v);
    hide Placement, Pids, Counts, Sems, QueuesWithout, ActiveWithout, TerminateTree, RemoveFirst;
  }

  lemma DeathPcb(s: State, kind: int, e: Event, saved: Regs, p: Id)
    requires Inv(s) && s.current.Some? && s.yielded.None? && Live(s, p)
    ensures var r := PassUpOrDie(s, kind, e, saved);
            && (Live(r, p) <==> !(s.pcb[s.current.value].support == 0 && Under(s, p, s.current.value)))
            && (Live(r, p) && s.current != Some(p) ==> Kept(s, r, p))
  {
    hide Placement, Pids, Counts, Sems, Scheduler, TerminateTree;
    var c := s.current.value;
    if s.pcb[c].support == 0 {
      var s1 := ChargeTime(s, e.clk.t1);
      SameCoreInv(s, s1);
      CurrentLive(s1);
      UnderSame(s, s1, p, c);
      TreeGone(s1, c, p);
      SchedulerPcb(TerminateTree(s1, c).(current := None), e.clk.t3);
    }
  }

  lemma TerminatePcb(s: State, e: Event, saved: Regs, p: Id)
    requires Inv(s) && s.current.Some? && s.yielded.None? && Live(s, p)
    ensures var r := Terminate(s, e, saved);
            && (Live(r, p) <==> !exists v: Id :: Named(s, saved.a1, v) && Under(s, p, v))
            && (Live(r, p) && s.current != Some(p) ==> Kept(s, r, p))
  {
    hide Placement, Pids, Links, Counts, Sems, Scheduler, TerminateTree, FindFrom, Under;
    var s1 := ChargeTime(s, e.clk.t1);
    SameCoreInv(s, s1);
    FindExact(s1, saved.a1);
    var t := Target(s1, saved.a1);
    assert forall v: Id :: t == Some(v) <==> Named(s, saved.a1, v);
    CurrentLive(s1);
    hide Target, Named;
    if t.Some? {
      TerminateTarget(s, s1, t.value, p);
      SchedulerPcb(TerminateTree(s1, t.value), e.clk.t3);
      assert t == Some(t.value);
    }
  }

  lemma TerminateTarget(s: State, s1: State, v: Id, p: Id)
    requires Inv(s) && Inv(s1) && SameCore(s, s1) && s.yielded.None? && Live(s, v) && Live(s, p)
    requires s.current != Some(p) ==> s1.pcb[p] == s.pcb[p]
    ensures var r := TerminateTree(s1, v);
            && (Live(r, p) <==> !Under(s, p, v))
            && (Live(r, p) && s.current != Some(p) ==> Kept(s, r, p))
            && (r.current.Some? ==> r.current == s.current)
  {
    UnderSame(s, s1, p, v);
    TreeGone(s1, v, p);
    TerminateExact(s1, v);
    hide Placement, Pids, Links, Counts, Sems, TerminateTree, Under, TablesWithout, QueuesWithout, ActiveWithout;
  }

  // ---------------------------------------------------------------- every exception

  lemma DueOfCall(s: State, e: Event, p: Id)
    requires Placement(s) && !e.interrupt
    ensures !(IsSyscall(e.saved.cause) && !e.saved.user && e.saved.a0 == VERHOGEN) ==> Due(s, e, p) == None
    ensures IsSyscall(e.saved.cause) && !e.saved.user && e.saved.a0 == VERHOGEN ==>
              Due(s, e, p) == if IsHead(Queue(s.asl, Word(e.saved.a1)), p) then Some(None) else None
  {
    DueOfHead(s, Word(e.saved.a1), p);
    hide Placement;
  }

  lemma SyscallOutcome(s: State, e: Event, p: Id)
    requires Inv(s) && s.current.Some? && s.yielded.None? && Live(s, p) && !e.interrupt && IsSyscall(e.saved.cause)
    requires e.saved.a0 == DOIO && !e.saved.user ==> InDeviceArea(e.saved.a1)
    ensures var r := SyscallHandler(s, e, e.saved.(pc := e.saved.pc + WORDLEN));
            && (Live(r, p) <==> !exists v: Id :: IsVictim(s, e, v) && Under(s, p, v))
            && (Live(r, p) && s.current != Some(p) ==>
                  r.pcb[p] == After(s.pcb[p], Due(s, e, p)).(children := r.pcb[p].children))
  {
    var saved := e.saved.(pc := e.saved.pc + WORDLEN);
    hide Placement, Pids, Links, Counts, Sems, Scheduler, Under, Due, PassUpOrDie, Create, Terminate,
         Passeren, Verhogen, DoIo, ClockWait,
         Yield, GetTime, GetProcessId;
    DueOfCall(s, e, p);
    if saved.user || saved.a0 >= 0 || saved.a0 < YIELD {
      DeathPcb(s, GENERALEXCEPT, e, saved, p);
      DeathPcb(s, GENERALEXCEPT, e, saved.(cause := PRIVINSTR), p);
      assert forall v: Id :: IsVictim(s, e, v) <==> v == s.current.value && s.pcb[v].support == 0;
    } else if saved.a0 == TERMPROCESS {
      TerminatePcb(s, e, saved, p);
      assert forall v: Id :: IsVictim(s, e, v) <==> Named(s, saved.a1, v);
    } else {
      assert forall v: Id :: !IsVictim(s, e, v);
      GentleCalls(s, e, p);
    }
  }

  lemma GentleCalls(s: State, e: Event, p: Id)
    requires Inv(s) && s.current.Some? && s.yielded.None? && Live(s, p) && !e.interrupt && IsSyscall(e.saved.cause)
    requires YIELD <= e.saved.a0 < 0 && e.saved.a0 != TERMPROCESS && !e.saved.user
    requires e.saved.a0 == DOIO ==> InDeviceArea(e.saved.a1)
    ensures var r := SyscallHandler(s, e, e.saved.(pc := e.saved.pc + WORDLEN));
            && Live(r, p)
            && (s.current != Some(p) ==> r.pcb[p] == After(s.pcb[p], Due(s, e, p)).(children := r.pcb[p].children))
  {
    var saved := e.saved.(pc := e.saved.pc + WORDLEN);
    hide Placement, Pids, Links, Counts, Sems, Due, PassUpOrDie, Create, Passeren, Verhogen, DoIo, ClockWait,
         Yield, GetTime, GetProcessId, Terminate;
    DueOfCall(s, e, p);
    var other: Id := if s.current.value == 0 then 1 else 0;
    if s.current != Some(p) {
      CreatePcb(s, e, saved, p);
      VerhogenPcb(s, e, saved, p);
      QuietCalls(s, e, saved, p);
    } else {
      QuietCalls(s, e, saved, other);
      VerhogenPcb(s, e, saved, other);
      CreateKeepsCaller(s, e, saved);
    }
  }

  lemma CreateKeepsCaller(s: State, e: Event, saved: Regs)
    requires Inv(s) && s.current.Some?
    ensures Live(Create(s, e, saved), s.current.value)
  {
    CurrentLive(s);
    if s.free != [] {
      RoomToCreate(s);
      CountHead(s.free, s.current.value);
      hide Inv, Count, Scheduler, InsertByPrio, FreeSlot, Create;
      SchedulerPcb(Spawn(s, e, saved), e.clk.t3);
    }
  }

  /** The fate of every process at every exception. It dies iff it is in the subtree the
      exception terminates. If it lives on and was not the one running, its PCB is exactly what
      it was, unless the exception is the one its semaphore waits for: an interrupt that
      acknowledges its sub-device while it heads the queue, the clock tick, or a V that finds
      it at the head; then it is unblocked, with the status read before the ACK, or zero for
      the tick, in `a0`. */
  lemma StepOutcome(s: State, e: Event, p: Id)
    requires Inv(s) && Enabled(s, e) && Live(s, p)
    ensures Live(Step(s, e), p) <==> !exists v: Id :: IsVictim(s, e, v) && Under(s, p, v)
    ensures Live(Step(s, e), p) && s.current != Some(p) ==>
              Step(s, e).pcb[p] == After(s.pcb[p], Due(s, e, p)).(children := Step(s, e).pcb[p].children)
  {
    hide Placement, Pids, Links, Counts, Sems, Under, Due, InterruptHandler, SyscallHandler, PassUpOrDie;
    var s1 := ChargeTime(s, e.clk.t0);
    SameCoreInv(s, s1);
    DueFrame(s, s1, e, p);
    assert s.current != Some(p) ==> s1.pcb[p] == s.pcb[p];
    assert forall v: Id :: IsVictim(s, e, v) <==> IsVictim(s1, e, v);
    forall v: Id { UnderSame(s, s1, p, v); }
    if e.interrupt {
      if s.current != Some(p) { InterruptPcb(s1, e, p); }
      InterruptFree(s1, e);
      assert forall v: Id :: !IsVictim(s, e, v);
    } else {
      DueOfCall(s1, e, p);
      DeathPcb(s1, PGFAULTEXCEPT, e, e.saved, p);
      DeathPcb(s1, GENERALEXCEPT, e, e.saved, p);
      if IsSyscall(e.saved.cause) {
        SyscallOutcome(s1, e, p);
      } else {
        assert forall v: Id :: IsVictim(s1, e, v) <==> v == s.current.value && s1.pcb[v].support == 0;
      }
    }
  }

  lemma InterruptFree(s: State, e: Event)
    requires Inv(s) && e.interrupt
    ensures InterruptHandler(s, e).free == s.free
  {
    var other: Id := if s.current == Some(0) then 1 else 0;
    InterruptPcb(s, e, other);
  }
}
