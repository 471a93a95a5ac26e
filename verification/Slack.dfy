/** How far the value of a device semaphore and the length of its queue drift apart. A completion
    and a wait move both; a termination takes processes out of the queue and leaves the value. */
module Slack {
  import opened Queues
  import opened Nucleus
  import opened NucleusInvariant
  import opened BlockAndWake
  import opened Termination
  import opened NucleusRun
  import opened Verdict
  import opened CpuTime
  import opened NucleusHistory
  import opened Wakeups
  import opened Devices

  // ---------------------------------------------------------------- the values

  predicate Ticks(e: Event) {
    e.interrupt && e.saved.cause == 3
  }

  /** The value of device semaphore `i` after exception `e`. */
  function SemAfter(s: State, e: Event, i: nat): int
    requires i < TOT_SEMS
  {
    if Ticks(e) && i == PSEUDOCLK_SEM then 0
    else if Acknowledged(e, i).Some? && s.devSems[i] < 0 then s.devSems[i] + 1
    else if Blocks(s, e) == Some(Dev(i)) then s.devSems[i] - 1
    else s.devSems[i]
  }

  lemma SchedulerSems(s: State, now: int)
    ensures Scheduler(s, now).devSems == s.devSems
  {
    hide InsertByPrio;
  }

  lemma DeliverSems(s: State, i: nat, status: int, atTail: bool)
    requires i < TOT_SEMS
    ensures Deliver(s, i, status, atTail).devSems
         == if s.devSems[i] >= 0 then s.devSems else s.devSems[i := s.devSems[i] + 1]
  {
    hide WakeHead;
    var s1 := s.(devSems := s.devSems[i := s.devSems[i] + 1]);
    if Queue(s1.asl, Dev(i)) != [] { WakeHeadRest(s1, Dev(i), Some(status), atTail); }
  }

  lemma {:induction false} SleepersSems(s: State)
    ensures WakeSleepers(s).devSems == s.devSems
    decreases |Queue(s.asl, Dev(PSEUDOCLK_SEM))|
  {
    if Queue(s.asl, Dev(PSEUDOCLK_SEM)) != [] {
      WakeHeadRest(s, Dev(PSEUDOCLK_SEM), Some(0), false);
      hide WakeHead;
      SleepersSems(WakeSleeper(s));
    }
  }

  lemma DeviceSems(s: State, e: Event, i: nat)
    requires i < TOT_SEMS && e.interrupt && 17 <= e.saved.cause <= 21
    ensures DeviceInterrupt(s, e.saved.cause - 14, e).devSems[i]
         == if Acknowledged(e, i).Some? && s.devSems[i] < 0 then s.devSems[i] + 1 else s.devSems[i]
  {
    hide Deliver, LowestDevice;
    match LowestDevice(e.pending, 0)
    case None =>
    case Some(d) =>
      if e.saved.cause == 21 {
        DeliverSems(s, 32 + d, e.txStatus, true);
        DeliverSems(s, 40 + d, e.status, false);
        DeliverSems(Deliver(s, 32 + d, e.txStatus, true), 40 + d, e.status, false);
      } else {
        DeliverSems(s, DevSem(e.saved.cause - 14, d), e.status, false);
      }
  }

  lemma InterruptSems(s: State, e: Event, i: nat)
    requires i < TOT_SEMS && e.interrupt
    ensures InterruptHandler(s, e).devSems[i] == SemAfter(s, e, i)
  {
    hide Scheduler, DeviceInterrupt, WakeSleepers, InsertByPrio;
    var s1 := StampInterrupt(s, e.clk.t1);
    SleepersSems(s1);
    if 17 <= e.saved.cause <= 21 { DeviceSems(s1, e, i); }
    SchedulerSems(InterruptEffect(s1, e), e.clk.t3);
  }

  lemma BlockSems(s: State, k: Sem, clk: Clock)
    requires s.current.Some?
    ensures Block(s, k, clk).devSems == s.devSems
  {
    hide Scheduler;
    SchedulerSems(Park(s, k, clk.t2), clk.t3);
  }

  lemma CallSems(s: State, e: Event, saved: Regs)
    requires s.current.Some?
    ensures Passeren(s, e, saved).devSems == s.devSems
    ensures InDeviceArea(saved.a1) ==>
              DoIo(s, e, saved).devSems == s.devSems[SemOfCommand(saved.a1) := s.devSems[SemOfCommand(saved.a1)] - 1]
    ensures ClockWait(s, e, saved).devSems == s.devSems[PSEUDOCLK_SEM := s.devSems[PSEUDOCLK_SEM] - 1]
    ensures GetTime(s, e, saved).devSems == s.devSems && GetProcessId(s, saved).devSems == s.devSems
    ensures Yield(s, e, saved).devSems == s.devSems
  {
    hide Scheduler, Block, SemOfCommand;
    forall r: State, k: Sem | r.current == s.current { BlockSems(r, k, e.clk); }
    forall r: State, now: int { SchedulerSems(r, now); }
    if InDeviceArea(saved.a1) { SemOfCommandRange(saved.a1); }
  }

  lemma VerhogenSems(s: State, e: Event, saved: Regs)
    requires s.current.Some?
    ensures Verhogen(s, e, saved).devSems == s.devSems
  {
    hide WakeHead;
    var s1 := SetRegs(ChargeTime(s, e.clk.t1), s.current.value, saved);
    var s2 := s1.(words := s1.words[saved.a1 := WordAt(s1.words, saved.a1) + 1]);
    if Queue(s2.asl, Word(saved.a1)) != [] { WakeHeadRest(s2, Word(saved.a1), None, false); }
  }

  lemma CreateSems(s: State, e: Event, saved: Regs)
    requires Inv(s) && s.current.Some?
    ensures Create(s, e, saved).devSems == s.devSems
  {
    hide Inv, Scheduler, InsertByPrio, FreeSlot;
    if s.free != [] {
      RoomToCreate(s);
      SchedulerSems(Spawn(s, e, saved), e.clk.t3);
    }
  }

  lemma DeathSems(s: State, kind: int, e: Event, saved: Regs)
    requires Inv(s) && s.current.Some? && s.yielded.None?
    ensures PassUpOrDie(s, kind, e, saved).devSems == s.devSems
  {
    hide Placement, Pids, Links, Counts, Sems, Scheduler, TerminateTree, TablesWithout, QueuesWithout, ActiveWithout,
         CountsWithout, Subtree;
    if s.pcb[s.current.value].support == 0 {
      var s1 := ChargeTime(s, e.clk.t1);
      SameCoreInv(s, s1);
      CurrentLive(s1);
      TerminateExact(s1, s.current.value);
      SchedulerSems(TerminateTree(s1, s.current.value).(current := None), e.clk.t3);
    }
  }

  lemma TerminateSems(s: State, e: Event, saved: Regs)
    requires Inv(s) && s.current.Some? && s.yielded.None?
    ensures Terminate(s, e, saved).devSems == s.devSems
  {
    hide Placement, Pids, Links, Counts, Sems, Scheduler, TerminateTree, TablesWithout, QueuesWithout, ActiveWithout,
         CountsWithout, Subtree, FindFrom;
    var s1 := ChargeTime(s, e.clk.t1);
    SameCoreInv(s, s1);
    CurrentLive(s1);
    FindLive(s1, saved.a1, 0);
    var t := Target(s1, saved.a1);
    if t.Some? {
      TerminateExact(s1, t.value);
      SchedulerSems(TerminateTree(s1, t.value), e.clk.t3);
    }
  }

  lemma SyscallSems(s: State, e: Event, i: nat)
    requires Inv(s) && s.current.Some? && s.yielded.None? && !e.interrupt && IsSyscall(e.saved.cause) && i < TOT_SEMS
    requires e.saved.a0 == DOIO && !e.saved.user ==> InDeviceArea(e.saved.a1)
    ensures SyscallHandler(s, e, e.saved.(pc := e.saved.pc + WORDLEN)).devSems[i] == SemAfter(s, e, i)
  {
    var saved := e.saved.(pc := e.saved.pc + WORDLEN);
    hide Inv, PassUpOrDie, Create, Terminate, Passeren, Verhogen, DoIo, ClockWait, Yield, GetTime, GetProcessId,
         SemOfCommand, Acknowledged;
    NotAcknowledged(e, i);
    DeathSems(s, GENERALEXCEPT, e, saved);
    DeathSems(s, GENERALEXCEPT, e, saved.(cause := PRIVINSTR));
    TerminateSems(s, e, saved);
    VerhogenSems(s, e, saved);
    CallSems(s, e, saved);
    CreateSems(s, e, saved);
    if InDeviceArea(saved.a1) { SemOfCommandRange(saved.a1); }
  }

  lemma NotAcknowledged(e: Event, i: int)
    requires !e.interrupt
    ensures Acknowledged(e, i).None?
  {
  }

  /** The value of a device semaphore falls by a wait for it, rises by a completion of it as long
      as it is negative, and no termination touches it. */
  lemma StepSems(s: State, e: Event, i: nat)
    requires Inv(s) && Enabled(s, e) && i < TOT_SEMS
    ensures Step(s, e).devSems[i] == SemAfter(s, e, i)
  {
    hide Inv, InterruptHandler, SyscallHandler, PassUpOrDie, SemOfCommand, Acknowledged;
    var s1 := ChargeTime(s, e.clk.t0);
    SameCoreInv(s, s1);
    assert Blocks(s1, e) == Blocks(s, e) && s1.devSems == s.devSems;
    if e.interrupt {
      InterruptSems(s1, e, i);
    } else {
      NotAcknowledged(e, i);
      if IsSyscall(e.saved.cause) {
        SyscallSems(s1, e, i);
      } else {
        DeathSems(s1, PGFAULTEXCEPT, e, e.saved);
        DeathSems(s1, GENERALEXCEPT, e, e.saved);
      }
    }
  }

  // ---------------------------------------------------------------- the queues

  /** The PCBs that no process has. */
  ghost function Unused(s: State): set<Id> {
    set p: Id | 0 <= p < MAXPROC && !Live(s, p)
  }

  lemma {:induction false} WithoutAgree(q: seq<Id>, d: set<Id>, e: set<Id>)
    requires forall x :: x in q ==> (x in d <==> x in e)
    ensures Without(q, d) == Without(q, e)
  {
    if q != [] {
      assert q[0] in q;
      WithoutAgree(q[1..], d, e);
    }
  }

  lemma {:induction false} WithoutLength(q: seq<Id>, d: set<Id>)
    ensures |Without(q, d)| <= |q|
    ensures |Without(q, d)| == |q| <==> forall x :: x in q ==> x !in d
  {
    if q != [] {
      assert q == [q[0]] + q[1..];
      WithoutLength(q[1..], d);
    }
  }

  lemma {:induction false} WithoutIn(q: seq<Id>, d: set<Id>, x: Id)
    ensures x in Without(q, d) <==> x in q && x !in d
  {
    if q != [] {
      assert q == [q[0]] + q[1..];
      WithoutIn(q[1..], d, x);
    }
  }

  lemma QueueMember(s: State, k: Sem, p: Id)
    requires Placement(s)
    ensures p in Queue(s.asl, k) <==> s.pcb[p].semAdd == Some(k)
    ensures s.pcb[p].semAdd.Some? ==> Live(s, p) && s.current != Some(p)
  {
    assert Count(Queue(s.asl, k), p) == One(s.pcb[p].semAdd == Some(k));
    assert Places(s, p) == 1;
    CountIn(Queue(s.asl, k), p);
  }

  /** Of the waiters for `k` exactly those stay that are alive and not due for a wake-up. */
  lemma WaiterStays(s: State, e: Event, k: Sem, p: Id)
    requires Inv(s) && Enabled(s, e) && p in Queue(s.asl, k)
    ensures p in Queue(Step(s, e).asl, k) <==> Live(Step(s, e), p) && Due(s, e, p).None?
  {
    StepInv(s, e);
    hide Pids, Links, Counts, Sems, Placement, Step, Enabled, Due, Live, Queue;
    QueueMember(s, k, p);
    StepOutcome(s, e, p);
    QueueMember(Step(s, e), k, p);
  }

  lemma DueWaiter(s: State, e: Event, i: nat, p: Id)
    requires Placement(s) && i < TOT_SEMS && p in Queue(s.asl, Dev(i))
    ensures Due(s, e, p).None? <==> !(Ticks(e) && i == PSEUDOCLK_SEM)
                                    && !(Acknowledged(e, i).Some? && p == Queue(s.asl, Dev(i))[0])
  {
    hide Placement, LowestDevice;
    QueueMember(s, Dev(i), p);
  }

  /** Who joins the queue of `k` by exception `e`. */
  function Joining(s: State, e: Event, k: Sem): seq<Id> {
    if Blocks(s, e) == Some(k) && s.current.Some? then [s.current.value] else []
  }

  lemma QueueAfter(s: State, e: Event, i: nat, d: set<Id>)
    requires Inv(s) && Enabled(s, e) && i < TOT_SEMS
    requires forall p :: p in Queue(s.asl, Dev(i)) ==> (p in d <==> !(Live(Step(s, e), p) && Due(s, e, p).None?))
    ensures Queue(Step(s, e).asl, Dev(i)) == Without(Queue(s.asl, Dev(i)), d) + Joining(s, e, Dev(i))
  {
    var q, r := Queue(s.asl, Dev(i)), Queue(Step(s, e).asl, Dev(i));
    hide Inv, Step, Enabled, Blocks, Due, Live, Queue;
    StepFifo(s, e, Dev(i));
    var tail := Joining(s, e, Dev(i));
    var d1: set<Id> :| r == Without(q, d1) + tail;
    forall p | p in q
      ensures p in d1 <==> p in d
    {
      WaiterStays(s, e, Dev(i), p);
      WithoutIn(q, d1, p);
      InvPlacement(s);
      QueueMember(s, Dev(i), p);
      assert p !in tail;
    }
    WithoutAgree(q, d1, d);
  }

  // ---------------------------------------------------------------- the slack

  /** By how much the debt of a device semaphore exceeds the number of its waiters. */
  function Excess(s: State, i: nat): int
    requires i < TOT_SEMS
  {
    -s.devSems[i] - |Queue(s.asl, Dev(i))|
  }

  /** How many waiters of semaphore `i` exception `e` terminates. */
  ghost function Killed(s: State, e: Event, i: nat): nat
    requires Inv(s) && Enabled(s, e)
  {
    var q := Queue(s.asl, Dev(i));
    WithoutLength(q, Unused(Step(s, e)));
    |q| - |Without(q, Unused(Step(s, e)))|
  }

  /** A completion that finds a negative value and nobody waiting. */
  predicate Unclaimed(s: State, e: Event, i: nat)
    requires i < TOT_SEMS
  {
    Acknowledged(e, i).Some? && Queue(s.asl, Dev(i)) == [] && s.devSems[i] < 0
  }

  lemma InterruptKillsNone(s: State, e: Event, i: nat)
    requires Inv(s) && Enabled(s, e) && e.interrupt
    ensures Killed(s, e, i) == 0
    ensures forall p :: p in Queue(s.asl, Dev(i)) ==> Live(Step(s, e), p)
  {
    var q := Queue(s.asl, Dev(i));
    forall p | p in q
      ensures Live(Step(s, e), p)
    {
      InvPlacement(s);
      QueueMember(s, Dev(i), p);
      StepOutcome(s, e, p);
    }
    hide Inv, Step, Enabled, Queue, Live;
    WithoutLength(q, Unused(Step(s, e)));
  }

  /** A completion with a waiter, or the clock tick. */
  lemma WakeExcess(s: State, e: Event, i: nat)
    requires Inv(s) && Enabled(s, e) && i < TOT_SEMS && Queue(s.asl, Dev(i)) != []
    requires Acknowledged(e, i).Some?
    ensures Excess(Step(s, e), i) == Excess(s, i)
  {
    hide Inv, Step, Enabled, Due, Live, Queue, Acknowledged, Blocks, Without, Killed;
    ValueBound(s, i);
    StepSems(s, e, i);
    AckNotTick(e, i);
    NoJoin(s, e, i);
    HeadLeaves(s, e, i);
  }

  lemma HeadLeaves(s: State, e: Event, i: nat)
    requires Inv(s) && Enabled(s, e) && i < TOT_SEMS && Queue(s.asl, Dev(i)) != [] && Acknowledged(e, i).Some?
    ensures |Queue(Step(s, e).asl, Dev(i))| == |Queue(s.asl, Dev(i))| - 1
  {
    hide Inv, Step, Enabled, Due, Live, Queue, Acknowledged, Blocks, Without, Killed;
    var q := Queue(s.asl, Dev(i));
    AckNotTick(e, i);
    InvPlacement(s);
    InterruptKillsNone(s, e, i);
    forall p | p in q
      ensures Due(s, e, p).None? <==> p != q[0]
    {
      DueWaiter(s, e, i, p);
    }
    QueueAfter(s, e, i, {q[0]});
    HeadOnce(s, i);
    WithoutOne(q, q[0]);
    NoJoin(s, e, i);
  }

  lemma ValueBound(s: State, i: nat)
    requires Inv(s) && i < TOT_SEMS
    ensures |Queue(s.asl, Dev(i))| <= -s.devSems[i]
  {
  }

  lemma AckNotTick(e: Event, i: int)
    requires Acknowledged(e, i).Some?
    ensures e.interrupt && !Ticks(e) && i != PSEUDOCLK_SEM
  {
  }

  lemma HeadOnce(s: State, i: nat)
    requires Inv(s) && Queue(s.asl, Dev(i)) != []
    ensures Count(Queue(s.asl, Dev(i)), Queue(s.asl, Dev(i))[0]) <= 1
  {
    var h := Queue(s.asl, Dev(i))[0];
    assert Count(Queue(s.asl, Dev(i)), h) == One(s.pcb[h].semAdd == Some(Dev(i)));
  }

  lemma NoJoin(s: State, e: Event, i: int)
    requires e.interrupt
    ensures Joining(s, e, Dev(i)) == [] && Blocks(s, e).None?
  {
  }

  lemma TickExcess(s: State, e: Event)
    requires Inv(s) && Enabled(s, e) && Ticks(e)
    ensures Excess(Step(s, e), PSEUDOCLK_SEM) == 0
  {
    StepInv(s, e);
    ValueBound(Step(s, e), PSEUDOCLK_SEM);
    hide Inv, Step, Enabled;
    StepSems(s, e, PSEUDOCLK_SEM);
  }

  /** Every other exception: waits move value and queue, terminations the queue alone, completions
      without a waiter the value alone. */
  lemma OtherExcess(s: State, e: Event, i: nat)
    requires Inv(s) && Enabled(s, e) && i < TOT_SEMS && !(Ticks(e) && i == PSEUDOCLK_SEM)
    requires Queue(s.asl, Dev(i)) == [] || Acknowledged(e, i).None?
    ensures Excess(Step(s, e), i) == Excess(s, i) + Killed(s, e, i) - if Unclaimed(s, e, i) then 1 else 0
  {
    var q := Queue(s.asl, Dev(i));
    hide Inv, Step, Enabled, Due, Live, Acknowledged, Blocks, Queue;
    StepSems(s, e, i);
    forall p | p in q
      ensures Due(s, e, p).None? && (p in Unused(Step(s, e)) <==> !Live(Step(s, e), p))
    {
      InvPlacement(s);
      DueWaiter(s, e, i, p);
    }
    QueueAfter(s, e, i, Unused(Step(s, e)));
    WithoutLength(q, Unused(Step(s, e)));
    StepFifo(s, e, Dev(i));
    if Acknowledged(e, i).Some? {
      AckNotTick(e, i);
      NoJoin(s, e, i);
    }
  }

  /** The exact drift: value and queue drift apart by one for every waiter that is terminated and
      come together again by one for every completion nobody waits for; the clock tick brings the
      clock's together at once. */
  lemma StepExcess(s: State, e: Event, i: nat)
    requires Inv(s) && Enabled(s, e) && i < TOT_SEMS
    ensures Excess(s, i) >= 0
    ensures Excess(Step(s, e), i)
         == if Ticks(e) && i == PSEUDOCLK_SEM then 0
            else Excess(s, i) + Killed(s, e, i) - if Unclaimed(s, e, i) then 1 else 0
  {
    ValueBound(s, i);
    hide Inv, Step, Enabled, Acknowledged, Queue;
    if Ticks(e) && i == PSEUDOCLK_SEM {
      TickExcess(s, e);
    } else if Acknowledged(e, i).Some? && Queue(s.asl, Dev(i)) != [] {
      AckNotTick(e, i);
      InterruptKillsNone(s, e, i);
      WakeExcess(s, e, i);
    } else {
      OtherExcess(s, e, i);
    }
  }

  /** A semaphore whose value counts its waiters still does after an exception exactly if none of
      them was terminated by it. */
  lemma StepLevel(s: State, e: Event, i: nat)
    requires Inv(s) && Enabled(s, e) && i < TOT_SEMS && -s.devSems[i] == |Queue(s.asl, Dev(i))|
    ensures -Step(s, e).devSems[i] == |Queue(Step(s, e).asl, Dev(i))|
       <==> forall p :: p in Queue(s.asl, Dev(i)) ==> Live(Step(s, e), p)
  {
    var q := Queue(s.asl, Dev(i));
    if Ticks(e) { InterruptKillsNone(s, e, i); }
    hide Inv, Step, Enabled, Acknowledged, Queue, Live;
    StepExcess(s, e, i);
    WithoutLength(q, Unused(Step(s, e)));
    assert forall p: Id :: p in Unused(Step(s, e)) <==> !Live(Step(s, e), p);
  }

  // ---------------------------------------------------------------- over runs

  /** How many waiters of semaphore `i` were terminated along the run. */
  ghost function KilledIn(s: State, es: seq<Event>, i: nat): nat
    requires Inv(s)
    decreases |es|
  {
    if es == [] || !Enabled(s, es[0]) then 0 else
      StepInv(s, es[0]);
      Killed(s, es[0], i) + KilledIn(Step(s, es[0]), es[1..], i)
  }

  /** How many completions of semaphore `i` found nobody waiting, for a negative value. */
  ghost function UnclaimedIn(s: State, es: seq<Event>, i: nat): nat
    requires Inv(s) && i < TOT_SEMS
    decreases |es|
  {
    if es == [] || !Enabled(s, es[0]) then 0 else
      StepInv(s, es[0]);
      (if Unclaimed(s, es[0], i) then 1 else 0) + UnclaimedIn(Step(s, es[0]), es[1..], i)
  }

  /** Over a run without clock ticks, or for a semaphore other than the clock's, the drift is what
      was terminated less what nobody claimed. */
  lemma {:induction false} RunExcess(s: State, es: seq<Event>, t: State, i: nat)
    requires Inv(s) && Run(s, es, t) && i < TOT_SEMS
    requires i == PSEUDOCLK_SEM ==> forall e :: e in es ==> !Ticks(e)
    ensures Excess(t, i) == Excess(s, i) + KilledIn(s, es, i) - UnclaimedIn(s, es, i)
    decreases |es|
  {
    if es != [] {
      assert es[0] in es;
      StepInv(s, es[0]);
      StepExcess(s, es[0], i);
      hide Inv, Step, Enabled, Killed, Unclaimed, Excess;
      RunExcess(Step(s, es[0]), es[1..], t, i);
    }
  }

  /** From boot on: the value of a device semaphore counts its waiters exactly when as many
      completions went unclaimed as waiters were terminated. */
  lemma BootLevel(words: map<int, int>, tod: int, now: int, regs: Regs, es: seq<Event>, t: State, i: nat)
    requires (forall a :: a in words ==> words[a] >= 0) && tod <= now && i < PSEUDOCLK_SEM
    requires Inv(Boot(words, tod, now, regs)) && Run(Boot(words, tod, now, regs), es, t)
    ensures var s := Boot(words, tod, now, regs);
            -t.devSems[i] == |Queue(t.asl, Dev(i))| <==> KilledIn(s, es, i) == UnclaimedIn(s, es, i)
  {
    var s := Boot(words, tod, now, regs);
    BootEmpty(words, tod, now, regs);
    hide Inv, Run, Boot, KilledIn, UnclaimedIn;
    RunExcess(s, es, t, i);
  }

  lemma BootEmpty(words: map<int, int>, tod: int, now: int, regs: Regs)
    ensures var s := Boot(words, tod, now, regs); s.asl == map[] && forall i :: 0 <= i < TOT_SEMS ==> s.devSems[i] == 0
  {
    hide Ids, Scheduler;
    SchedulerSems(BootState(words, tod, regs), now);
    SchedulerPcb(BootState(words, tod, regs), now);
  }
}
