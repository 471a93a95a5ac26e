/** DOIO and the interrupt handler agree on devices, and semaphore queues are first in, first
    out: a caller joins at the tail, the others keep their order. */
module Devices {
  import opened Queues
  import opened Nucleus
  import opened NucleusInvariant
  import opened BlockAndWake
  import opened Lifecycle
  import opened Termination
  import opened NucleusRun
  import opened Wakeups

  // ---------------------------------------------------------------- register addresses

  /** Address of word `w` of the register of device `dev` on `line`. */
  function DeviceWord(line: int, dev: int, w: int): int {
    START_DEVREG + (line - 3) * 0x80 + dev * 0x10 + w * WORDLEN
  }

  /** The command register of the sub-device that device semaphore `i` stands for. */
  function CommandRegister(i: nat): int
    requires i < PSEUDOCLK_SEM
  {
    if i < 32 then DeviceWord(3 + i / 8, i % 8, 1)
    else if i < 40 then DeviceWord(7, i - 32, 3)
    else DeviceWord(7, i - 40, 1)
  }

  /** DOIO on a command register blocks the caller on the semaphore of exactly that sub-device. */
  lemma DecodeInverts(i: nat)
    requires i < PSEUDOCLK_SEM
    ensures InDeviceArea(CommandRegister(i)) && SemOfCommand(CommandRegister(i)) == i
  {
    DecodeWord(if i < 32 then 3 + i / 8 else 7, if i < 32 then i % 8 else if i < 40 then i - 32 else i - 40,
               if 32 <= i < 40 then 3 else 1);
  }

  lemma DecodeWord(line: int, dev: int, w: int)
    requires 3 <= line <= 7 && 0 <= dev < 8 && 0 <= w < 4
    ensures InDeviceArea(DeviceWord(line, dev, w))
    ensures SemOfCommand(DeviceWord(line, dev, w))
         == if line == 7 then (if w == 3 then 32 + dev else 40 + dev) else DevSem(line, dev)
  {
    var offset := (line - 3) * 0x80 + (dev * 0x10 + w * WORDLEN);
    assert 0 <= dev * 0x10 + w * WORDLEN < 0x80;
    assert offset / 0x80 == line - 3 && offset % 0x80 == dev * 0x10 + w * WORDLEN;
  }

  /** The register the interrupt handler writes its ACK to when it serves semaphore `i`: word 1
      of the device, word 3 for a terminal transmitter. */
  function AckRegister(e: Event, i: int): int
    requires Acknowledged(e, i).Some?
  {
    var d := LowestDevice(e.pending, 0).value;
    DeviceWord(e.saved.cause - 14, d, if e.saved.cause == 21 && i == 32 + d then 3 else 1)
  }

  /** The handler acknowledges the sub-device whose command register DOIO decodes to the same
      semaphore: a process blocked by a DOIO is woken by the interrupt of its own device. */
  lemma AckMatchesCommand(e: Event, i: int)
    requires Acknowledged(e, i).Some?
    ensures 0 <= i < PSEUDOCLK_SEM && AckRegister(e, i) == CommandRegister(i)
    ensures SemOfCommand(AckRegister(e, i)) == i
  {
    var d := LowestDevice(e.pending, 0).value;
    if e.saved.cause < 21 {
      assert i / 8 == e.saved.cause - 17 && i % 8 == d;
    }
    DecodeInverts(i);
  }

  // ---------------------------------------------------------------- the caller

  /** The semaphore on which exception `e` blocks the running process, if it does. */
  function Blocks(s: State, e: Event): Option<Sem> {
    if e.interrupt || !IsSyscall(e.saved.cause) || e.saved.user then None
    else if e.saved.a0 == PASSEREN && WordAt(s.words, e.saved.a1) <= 0 then Some(Word(e.saved.a1))
    else if e.saved.a0 == DOIO then Some(Dev(SemOfCommand(e.saved.a1)))
    else if e.saved.a0 == CLOCKWAIT then Some(Dev(PSEUDOCLK_SEM))
    else None
  }

  /** `q` after some of its members left and `tail` joined; the others keep their order. */
  ghost predicate Fifo(q: seq<Id>, r: seq<Id>, tail: seq<Id>) {
    exists d: set<Id> :: r == Without(q, d) + tail
  }

  lemma FifoSame(q: seq<Id>)
    ensures Fifo(q, q, [])
  {
    WithoutOther(q, {});
    assert q == Without(q, {}) + [];
  }

  lemma FifoWithout(q: seq<Id>, d: set<Id>)
    ensures Fifo(q, Without(q, d), [])
  {
    assert Without(q, d) == Without(q, d) + [];
  }

  lemma FifoTrans(q: seq<Id>, r: seq<Id>, t: seq<Id>)
    requires Fifo(q, r, []) && Fifo(r, t, [])
    ensures Fifo(q, t, [])
  {
    var d: set<Id> :| r == Without(q, d) + [];
    var e: set<Id> :| t == Without(r, e) + [];
    assert r == Without(q, d);
    WithoutTwice(q, d, e);
    assert t == Without(q, d + e) + [];
  }

  lemma FifoHead(s: State, k: Sem)
    requires Placement(s) && Queue(s.asl, k) != []
    ensures Fifo(Queue(s.asl, k), Queue(s.asl, k)[1..], [])
  {
    var q := Queue(s.asl, k);
    assert Count(q, q[0]) == One(s.pcb[q[0]].semAdd == Some(k));
    WithoutOne(q, q[0]);
    FifoWithout(q, {q[0]});
  }

  ghost predicate AllFifo(s: State, r: State) {
    forall k: Sem :: Fifo(Queue(s.asl, k), Queue(r.asl, k), [])
  }

  lemma SameAsl(s: State, r: State)
    requires s.asl == r.asl
    ensures AllFifo(s, r)
  {
    hide Fifo;
    forall k: Sem
      ensures Fifo(Queue(s.asl, k), Queue(r.asl, k), [])
    {
      FifoSame(Queue(s.asl, k));
    }
  }

  lemma AllFifoTrans(s: State, r: State, t: State)
    requires AllFifo(s, r) && AllFifo(r, t)
    ensures AllFifo(s, t)
  {
    hide Fifo;
    forall k: Sem
      ensures Fifo(Queue(s.asl, k), Queue(t.asl, k), [])
    {
      FifoTrans(Queue(s.asl, k), Queue(r.asl, k), Queue(t.asl, k));
    }
  }

  lemma WakeFifo(s: State, k: Sem, result: Option<int>, atTail: bool)
    requires Placement(s) && Queue(s.asl, k) != []
    ensures AllFifo(s, WakeHead(s, k, result, atTail))
  {
    WakeHeadRest(s, k, result, atTail);
    hide Fifo, WakeHead, Placement;
    forall j: Sem
      ensures Fifo(Queue(s.asl, j), Queue(WakeHead(s, k, result, atTail).asl, j), [])
    {
      FifoSame(Queue(s.asl, j));
      FifoHead(s, k);
    }
  }

  lemma DeliverFifo(s: State, i: nat, status: int, atTail: bool)
    requires Placement(s) && i < TOT_SEMS
    ensures AllFifo(s, Deliver(s, i, status, atTail))
  {
    var s1 := s.(devSems := s.devSems[i := s.devSems[i] + 1]);
    if s.devSems[i] < 0 && Queue(s1.asl, Dev(i)) != [] {
      assert forall p: Id :: Places(s1, p) == Places(s, p);
      hide Placement, WakeHead, Fifo;
      WakeFifo(s1, Dev(i), Some(status), atTail);
    } else {
      SameAsl(s, Deliver(s, i, status, atTail));
    }
  }

  lemma {:induction false} SleepersFifo(s: State)
    requires Placement(s)
    ensures AllFifo(s, WakeSleepers(s))
    decreases |Queue(s.asl, Dev(PSEUDOCLK_SEM))|
  {
    var k := Dev(PSEUDOCLK_SEM);
    if Queue(s.asl, k) == [] {
      SameAsl(s, s);
    } else {
      WakeFifo(s, k, Some(0), false);
      WakeSleeperPlacement(s);
      hide WakeHead, Placement, Fifo;
      SleepersFifo(WakeSleeper(s));
      AllFifoTrans(s, WakeSleeper(s), WakeSleepers(s));
    }
  }

  lemma TerminalFifo(s: State, d: nat, e: Event)
    requires Inv(s) && d < 8
    ensures var s1 := if e.txStatus % 256 == OKCHARTRANS then Deliver(s, 32 + d, e.txStatus, true) else s;
            AllFifo(s, if e.status % 256 == CHARRECV then Deliver(s1, 40 + d, e.status, false) else s1)
  {
    hide Deliver, AllFifo, Inv;
    var s1 := if e.txStatus % 256 == OKCHARTRANS then Deliver(s, 32 + d, e.txStatus, true) else s;
    DeliverInv(s, 32 + d, e.txStatus, true);
    SameAsl(s, s);
    SameAsl(s1, s1);
    InvPlacement(s);
    InvPlacement(s1);
    DeliverFifo(s, 32 + d, e.txStatus, true);
    DeliverFifo(s1, 40 + d, e.status, false);
    AllFifoTrans(s, s1, if e.status % 256 == CHARRECV then Deliver(s1, 40 + d, e.status, false) else s1);
  }

  lemma InvPlacement(s: State)
    requires Inv(s)
    ensures Placement(s)
  {
  }

  lemma DeviceFifo(s: State, line: int, e: Event)
    requires Inv(s) && 3 <= line <= 7
    ensures AllFifo(s, DeviceInterrupt(s, line, e))
  {
    hide Deliver, AllFifo, Placement, Pids, Links, Counts, Sems;
    match LowestDevice(e.pending, 0)
    case None => SameAsl(s, s);
    case Some(dev) =>
      if line == 7 {
        TerminalFifo(s, dev, e);
      } else {
        DeliverFifo(s, DevSem(line, dev), e.status, false);
      }
  }

  lemma InterruptFifo(s0: State, e: Event)
    requires Inv(s0)
    ensures AllFifo(s0, InterruptHandler(s0, e))
  {
    hide Inv, AllFifo, Scheduler, DeviceInterrupt, WakeSleepers;
    var s := StampInterrupt(s0, e.clk.t1);
    SameCoreInv(s0, s);
    InvPlacement(s);
    SleepersFifo(s);
    if 17 <= e.saved.cause <= 21 { DeviceFifo(s, e.saved.cause - 14, e); }
    var r := InterruptEffect(s, e);
    SameAsl(s0, s);
    SameAsl(s, s);
    if e.saved.cause == 3 {
      SameAsl(WakeSleepers(s), r);
      AllFifoTrans(s, WakeSleepers(s), r);
    } else if e.saved.cause == 7 {
      SameAsl(s, r);
    }
    assert AllFifo(s, r);
    hide InterruptEffect, StampInterrupt;
    SchedulerPcb(r, e.clk.t3);
    SameAsl(r, InterruptHandler(s0, e));
    AllFifoTrans(s0, s, r);
    AllFifoTrans(s0, r, InterruptHandler(s0, e));
  }

  // ---------------------------------------------------------------- system calls

  /** What a blocking call leaves behind: its caller at the tail of `k`, every other queue as it
      was. */
  ghost predicate Joins(s: State, r: State, k: Sem) {
    && s.current.Some? && r.pcb[s.current.value].semAdd == Some(k)
    && Queue(r.asl, k) == Queue(s.asl, k) + [s.current.value]
    && (forall j :: j != k ==> Queue(r.asl, j) == Queue(s.asl, j))
  }

  lemma BlockJoins(s: State, s1: State, k: Sem, clk: Clock)
    requires Inv(s) && AboutToBlock(s, s1, k)
    ensures Joins(s, Block(s1, k, clk), k)
  {
    hide Inv, Scheduler, Park;
    ParkInv(s, s1, k, clk.t2);
    SchedulerPcb(Park(s1, k, clk.t2), clk.t3);
  }

  lemma BlockingCalls(s: State, e: Event, saved: Regs)
    requires Inv(s) && s.current.Some?
    ensures WordAt(s.words, saved.a1) <= 0 ==> Joins(s, Passeren(s, e, saved), Word(saved.a1))
    ensures WordAt(s.words, saved.a1) > 0 ==> Passeren(s, e, saved).asl == s.asl
                                              && Passeren(s, e, saved).current == s.current
    ensures InDeviceArea(saved.a1) ==> Joins(s, DoIo(s, e, saved), Dev(SemOfCommand(saved.a1)))
    ensures Joins(s, ClockWait(s, e, saved), Dev(PSEUDOCLK_SEM))
  {
    PasserenCall(s, e, saved);
    if InDeviceArea(saved.a1) { DoIoCall(s, e, saved); }
    ClockWaitCall(s, e, saved);
    hide Inv, Joins, Passeren, DoIo, ClockWait;
  }

  lemma PasserenCall(s: State, e: Event, saved: Regs)
    requires Inv(s) && s.current.Some?
    ensures WordAt(s.words, saved.a1) <= 0 ==> Joins(s, Passeren(s, e, saved), Word(saved.a1))
    ensures WordAt(s.words, saved.a1) > 0 ==> Passeren(s, e, saved).asl == s.asl
                                              && Passeren(s, e, saved).current == s.current
  {
    hide Inv, Block, Joins;
    var s1 := SetRegs(ChargeTime(s, e.clk.t1), s.current.value, saved);
    var s2 := s1.(words := s1.words[saved.a1 := WordAt(s1.words, saved.a1) - 1]);
    if WordAt(s.words, saved.a1) <= 0 { BlockJoins(s, s2, Word(saved.a1), e.clk); }
  }

  lemma DoIoCall(s: State, e: Event, saved: Regs)
    requires Inv(s) && s.current.Some? && InDeviceArea(saved.a1)
    ensures Joins(s, DoIo(s, e, saved), Dev(SemOfCommand(saved.a1)))
  {
    hide Inv, Block, SemOfCommand, Joins;
    SemOfCommandRange(saved.a1);
    var i := SemOfCommand(saved.a1);
    var s1 := SetRegs(ChargeTime(s, e.clk.t1), s.current.value, saved);
    var s2 := s1.(devSems := s1.devSems[i := s1.devSems[i] - 1]);
    BlockJoins(s, s2, Dev(i), e.clk);
  }

  lemma ClockWaitCall(s: State, e: Event, saved: Regs)
    requires Inv(s) && s.current.Some?
    ensures Joins(s, ClockWait(s, e, saved), Dev(PSEUDOCLK_SEM))
  {
    hide Inv, Block, Joins;
    var i := PSEUDOCLK_SEM;
    var s1 := SetRegs(ChargeTime(s, e.clk.t1), s.current.value, saved);
    var s2 := s1.(devSems := s1.devSems[i := s1.devSems[i] - 1], softBlock := s1.softBlock + 1);
    BlockJoins(s, s2, Dev(i), e.clk);
  }

  lemma TreeFifo(s: State, v: Id)
    requires Inv(s) && Live(s, v) && s.yielded.None?
    ensures AllFifo(s, TerminateTree(s, v))
  {
    TerminateExact(s, v);
    var d := Subtree(s, v);
    hide Placement, Pids, Links, Counts, Sems, Subtree, TerminateTree, Fifo, TablesWithout, ActiveWithout;
    forall k: Sem
      ensures Fifo(Queue(s.asl, k), Queue(TerminateTree(s, v).asl, k), [])
    {
      FifoWithout(Queue(s.asl, k), d);
    }
  }

  lemma DeathFifo(s: State, kind: int, e: Event, saved: Regs)
    requires Inv(s) && s.current.Some? && s.yielded.None?
    ensures AllFifo(s, PassUpOrDie(s, kind, e, saved))
  {
    hide Placement, Pids, Links, Counts, Sems, Scheduler, TerminateTree, AllFifo;
    if s.pcb[s.current.value].support != 0 {
      SameAsl(s, PassUpOrDie(s, kind, e, saved));
    } else {
      var s1 := ChargeTime(s, e.clk.t1);
      SameCoreInv(s, s1);
      CurrentLive(s1);
      TreeFifo(s1, s.current.value);
      var s2 := TerminateTree(s1, s.current.value).(current := None);
      SchedulerPcb(s2, e.clk.t3);
      SameAsl(s, s1);
      SameAsl(TerminateTree(s1, s.current.value), Scheduler(s2, e.clk.t3));
      AllFifoTrans(s, s1, TerminateTree(s1, s.current.value));
      AllFifoTrans(s, TerminateTree(s1, s.current.value), Scheduler(s2, e.clk.t3));
    }
  }

  lemma TerminateFifo(s: State, e: Event, saved: Regs)
    requires Inv(s) && s.current.Some? && s.yielded.None?
    ensures AllFifo(s, Terminate(s, e, saved))
  {
    hide Placement, Pids, Links, Counts, Sems, Scheduler, TerminateTree, AllFifo, FindFrom;
    var s1 := ChargeTime(s, e.clk.t1);
    SameCoreInv(s, s1);
    SameAsl(s, s1);
    CurrentLive(s1);
    FindLive(s1, saved.a1, 0);
    var t := Target(s1, saved.a1);
    hide ChargeTime, Target;
    if t.None? {
      SameAsl(s1, Continue(s1, saved));
      AllFifoTrans(s, s1, Continue(s1, saved));
    } else {
      TreeFifo(s1, t.value);
      var s2 := TerminateTree(s1, t.value);
      SchedulerPcb(s2, e.clk.t3);
      SameAsl(s2, Terminate(s, e, saved));
      AllFifoTrans(s, s1, s2);
      AllFifoTrans(s, s2, Terminate(s, e, saved));
    }
  }

  lemma VerhogenFifo(s: State, e: Event, saved: Regs)
    requires Placement(s) && s.current.Some?
    ensures AllFifo(s, Verhogen(s, e, saved))
  {
    var s1 := SetRegs(ChargeTime(s, e.clk.t1), s.current.value, saved);
    var s2 := s1.(words := s1.words[saved.a1 := WordAt(s1.words, saved.a1) + 1]);
    assert forall p: Id :: Places(s2, p) == Places(s, p);
    assert Placement(s2);
    hide Placement, WakeHead, AllFifo;
    SameAsl(s, Continue(s2, saved));
    SameAsl(s, s2);
    if Queue(s2.asl, Word(saved.a1)) != [] {
      var s3 := WakeHead(s2, Word(saved.a1), None, false);
      WakeFifo(s2, Word(saved.a1), None, false);
      AllFifoTrans(s, s2, s3);
      SameAsl(s3, Continue(s3, saved));
      AllFifoTrans(s, s3, Continue(s3, saved));
    }
  }

  lemma RestAsl(s: State, e: Event, saved: Regs)
    requires Inv(s) && s.current.Some?
    ensures Create(s, e, saved).asl == s.asl && GetTime(s, e, saved).asl == s.asl
    ensures GetProcessId(s, saved).asl == s.asl && Yield(s, e, saved).asl == s.asl
  {
    hide Inv, Scheduler, InsertByPrio, FreeSlot;
    if s.free != [] { RoomToCreate(s); }
    forall r: State, now: int { SchedulerPcb(r, now); }
  }

  lemma SyscallFifo(s: State, e: Event)
    requires Inv(s) && s.current.Some? && s.yielded.None? && !e.interrupt && IsSyscall(e.saved.cause)
    requires e.saved.a0 == DOIO && !e.saved.user ==> InDeviceArea(e.saved.a1)
    ensures var r := SyscallHandler(s, e, e.saved.(pc := e.saved.pc + WORDLEN));
            if Blocks(s, e).Some? then Joins(s, r, Blocks(s, e).value) else AllFifo(s, r)
  {
    var saved := e.saved.(pc := e.saved.pc + WORDLEN);
    hide Inv, AllFifo, Joins, PassUpOrDie, Create, Terminate, Passeren, Verhogen, DoIo, ClockWait,
         Yield, GetTime, GetProcessId,
         SemOfCommand;
    InvPlacement(s);
    DeathFifo(s, GENERALEXCEPT, e, saved);
    DeathFifo(s, GENERALEXCEPT, e, saved.(cause := PRIVINSTR));
    TerminateFifo(s, e, saved);
    VerhogenFifo(s, e, saved);
    BlockingCalls(s, e, saved);
    RestAsl(s, e, saved);
    if SyscallHandler(s, e, saved).asl == s.asl { SameAsl(s, SyscallHandler(s, e, saved)); }
  }

  lemma JoinFifo(s: State, r: State, k: Sem, j: Sem)
    requires Joins(s, r, k)
    ensures Fifo(Queue(s.asl, j), Queue(r.asl, j), if j == k then [s.current.value] else [])
  {
    FifoSame(Queue(s.asl, j));
    WithoutOther(Queue(s.asl, j), {});
  }

  /** The handlers behind `exceptionHandler`'s first charge. */
  lemma HandlerFifo(s: State, e: Event)
    requires Inv(s) && Enabled(s, e)
    ensures if Blocks(s, e).Some? then Joins(s, Step(s, e), Blocks(s, e).value) else AllFifo(s, Step(s, e))
  {
    hide Inv, InterruptHandler, SyscallHandler, PassUpOrDie, AllFifo, SemOfCommand;
    var s1 := ChargeTime(s, e.clk.t0);
    SameCoreInv(s, s1);
    SameAsl(s, s1);
    assert Blocks(s1, e) == Blocks(s, e) && s1.asl == s.asl && s1.current == s.current;
    if e.interrupt {
      InterruptFifo(s1, e);
    } else if IsSyscall(e.saved.cause) {
      SyscallFifo(s1, e);
    } else {
      DeathFifo(s1, PGFAULTEXCEPT, e, e.saved);
      DeathFifo(s1, GENERALEXCEPT, e, e.saved);
    }
    hide ChargeTime, Blocks;
    if Blocks(s, e).None? { AllFifoTrans(s, s1, Step(s, e)); }
  }

  /** Semaphore queues are first in, first out through every exception: a process that blocks
      joins at the tail of the queue its call names, and in every queue those who remain keep
      their order. */
  lemma StepFifo(s: State, e: Event, k: Sem)
    requires Inv(s) && Enabled(s, e)
    ensures Blocks(s, e).Some? ==> s.current.Some?
    ensures Fifo(Queue(s.asl, k), Queue(Step(s, e).asl, k),
                 if Blocks(s, e) == Some(k) then [s.current.value] else [])
    ensures Blocks(s, e) == Some(k) ==> Step(s, e).pcb[s.current.value].semAdd == Some(k)
  {
    HandlerFifo(s, e);
    hide Inv, Step, Fifo, Blocks, Enabled;
    if Blocks(s, e).Some? { JoinFifo(s, Step(s, e), Blocks(s, e).value, k); }
  }
}
