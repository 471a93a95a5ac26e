/** Dispatch order: the ready queue stays sorted by priority, except exactly when a terminal
    transmitter interrupt appends a process that outranks the tail. */
module Priority {
  import opened Queues
  import opened Nucleus
  import opened NucleusInvariant
  import opened BlockAndWake
  import opened Lifecycle
  import opened Termination
  import opened NucleusRun
  import opened Verdict
  import opened Wakeups

  ghost predicate Sorted(s: State) {
    SortedByPrio(s.ready, Prios(s.pcb))
  }

  /** Same ready queue, same priorities of its members. */
  lemma SortedFrame(s: State, r: State)
    requires Sorted(s) && r.ready == s.ready
    requires forall p: Id :: p in s.ready ==> r.pcb[p].prio == s.pcb[p].prio
    ensures Sorted(r)
  {
    forall i, j | 0 <= i < j < |r.ready|
      ensures r.pcb[r.ready[i]].prio >= r.pcb[r.ready[j]].prio
    {
      assert s.ready[i] in s.ready && s.ready[j] in s.ready;
      assert s.pcb[s.ready[i]].prio >= s.pcb[s.ready[j]].prio;
    }
  }

  lemma MakeReadySorted(s: State, p: Id)
    requires Sorted(s)
    ensures Sorted(MakeReady(s, p))
  {
    hide InsertByPrio;
    InsertSorted(s.ready, p, Prios(s.pcb));
  }

  lemma PickSorted(s: State, now: int)
    requires Sorted(s)
    ensures Sorted(Pick(s, now))
  {
    var r := Pick(s, now);
    if s.ready != [] {
      forall i, j | 0 <= i < j < |r.ready|
        ensures r.pcb[r.ready[i]].prio >= r.pcb[r.ready[j]].prio
      {
        assert r.ready[i] == s.ready[i + 1] && r.ready[j] == s.ready[j + 1];
        assert s.pcb[s.ready[i + 1]].prio >= s.pcb[s.ready[j + 1]].prio;
      }
    }
  }

  lemma SchedulerSorted(s: State, now: int)
    requires Sorted(s)
    ensures Sorted(Scheduler(s, now))
  {
    hide InsertByPrio, Sorted;
    PickSorted(s, now);
    if s.yielded.Some? {
      var y := s.yielded.value;
      var s1 := s.(yielded := None);
      SortedSame(s, s1);
      MakeReadySorted(s1, y);
      hide MakeReady, Pick;
      PickSorted(MakeReady(s1, y), now);
      SortedSame(s1, Dispatch(s1, y, now));
    }
  }

  lemma SortedSame(s: State, r: State)
    requires Sorted(s) && r.ready == s.ready && r.pcb == s.pcb
    ensures Sorted(r)
  {
  }

  lemma ChargeSorted(s: State, now: int)
    requires Sorted(s)
    ensures Sorted(ChargeTime(s, now)) && Sorted(StampInterrupt(s, now))
  {
    SortedFrame(s, ChargeTime(s, now));
    SortedFrame(s, StampInterrupt(s, now));
  }

  lemma SortedRegs(s: State, p: Id, regs: Regs)
    requires Sorted(s)
    ensures Sorted(SetRegs(s, p, regs))
  {
    SortedFrame(s, SetRegs(s, p, regs));
  }

  /** On a sorted queue the scheduler picks the process at the head, which nobody outranks. */
  lemma DispatchBest(s: State, now: int)
    requires Sorted(s) && s.ready != [] && s.yielded.None?
    ensures Scheduler(s, now).current == Some(s.ready[0])
    ensures forall i :: 0 <= i < |s.ready| ==> s.pcb[s.ready[i]].prio <= s.pcb[s.ready[0]].prio
  {
    forall i | 0 < i < |s.ready|
      ensures s.pcb[s.ready[i]].prio <= s.pcb[s.ready[0]].prio
    {
    }
  }

  /** YIELD really yields: while the head of the ready queue has at least the yielder's
      priority, the head runs next and the yielder is ready behind every process of its rank;
      otherwise the yielder goes on. */
  lemma YieldYields(s: State, e: Event, saved: Regs)
    requires Inv(s) && s.current.Some? && s.yielded.None?
    ensures var c := s.current.value;
            var r := Yield(s, e, saved);
            if s.ready != [] && s.pcb[s.ready[0]].prio >= s.pcb[c].prio
            then r.current == Some(s.ready[0]) && s.ready[0] != c
            && r.ready == InsertByPrio(s.ready, c, Prios(s.pcb))[1..]
            else r.current == Some(c) && r.ready == s.ready
  {
    var c := s.current.value;
    assert Places(s, c) == 1;
    CountIn(s.ready, c);
    var s1 := SetRegs(ChargeTime(s, e.clk.t1), c, saved);
    assert Prios(s1.pcb) == Prios(s.pcb);
    hide Inv, Placement;
    if s.ready != [] && s.pcb[s.ready[0]].prio >= s.pcb[c].prio {
      assert InsertByPrio(s.ready, c, Prios(s.pcb))[0] == s.ready[0];
    }
  }

  // ---------------------------------------------------------------- wake-ups

  lemma WakeSorted(s: State, k: Sem, result: Option<int>)
    requires Sorted(s) && Queue(s.asl, k) != []
    ensures Sorted(WakeHead(s, k, result, false))
  {
    var p := Queue(s.asl, k)[0];
    var s1 := RemoveBlocked(s, k);
    var s2 := if result.None? then s1 else SetRegs(s1, p, s1.pcb[p].regs.(a0 := result.value));
    hide MakeReady, DropBlocked;
    assert forall x: Id :: s2.pcb[x].prio == s.pcb[x].prio;
    SortedFrame(s, s2);
    MakeReadySorted(s2, p);
  }

  lemma WakePrio(s: State, k: Sem, result: Option<int>, atTail: bool)
    requires Queue(s.asl, k) != []
    ensures forall x: Id :: WakeHead(s, k, result, atTail).pcb[x].prio == s.pcb[x].prio
    ensures atTail ==> WakeHead(s, k, result, atTail).ready == s.ready + [Queue(s.asl, k)[0]]
    ensures !atTail ==> exists pr: seq<int> :: |pr| == MAXPROC && pr == Prios(s.pcb)
                          && WakeHead(s, k, result, atTail).ready == InsertByPrio(s.ready, Queue(s.asl, k)[0], pr)
  {
    hide InsertByPrio, DropBlocked;
    var p := Queue(s.asl, k)[0];
    var s1 := RemoveBlocked(s, k);
    var s2 := if result.None? then s1 else SetRegs(s1, p, s1.pcb[p].regs.(a0 := result.value));
    assert Prios(s2.pcb) == Prios(s.pcb);
  }

  lemma DeliverSorted(s: State, i: nat, status: int)
    requires Sorted(s) && i < TOT_SEMS
    ensures Sorted(Deliver(s, i, status, false))
  {
    hide WakeHead, Sorted;
    var s1 := s.(devSems := s.devSems[i := s.devSems[i] + 1]);
    SortedSame(s, s1);
    if s.devSems[i] < 0 && Queue(s1.asl, Dev(i)) != [] {
      WakeSorted(s1, Dev(i), Some(status));
      SortedSame(WakeHead(s1, Dev(i), Some(status), false), Deliver(s, i, status, false));
    }
  }

  lemma {:induction false} SleepersSorted(s: State)
    requires Sorted(s)
    ensures Sorted(WakeSleepers(s))
    decreases |Queue(s.asl, Dev(PSEUDOCLK_SEM))|
  {
    var k := Dev(PSEUDOCLK_SEM);
    if Queue(s.asl, k) != [] {
      WakeSorted(s, k, Some(0));
      WakeHeadRest(s, k, Some(0), false);
      hide WakeHead, Sorted;
      SortedSame(WakeHead(s, k, Some(0), false), WakeSleeper(s));
      SleepersSorted(WakeSleeper(s));
    }
  }

  /** The transmitter wakes a process that outranks the tail of the ready queue. */
  ghost predicate TxOvertakes(s: State, e: Event) {
    && e.interrupt && e.saved.cause == 21
    && e.txStatus % 256 == OKCHARTRANS
    && (match LowestDevice(e.pending, 0)
        case None => false
        case Some(d) =>
          Queue(s.asl, Dev(32 + d)) != [] && s.ready != []
          && s.pcb[s.ready[|s.ready| - 1]].prio < s.pcb[Queue(s.asl, Dev(32 + d))[0]].prio)
  }

  lemma TxDelivers(s: State, i: nat, status: int)
    requires Sems(s) && i < TOT_SEMS
    ensures var r := Deliver(s, i, status, true);
            && (forall x: Id :: r.pcb[x].prio == s.pcb[x].prio)
            && r.ready == if Queue(s.asl, Dev(i)) == [] then s.ready else s.ready + [Queue(s.asl, Dev(i))[0]]
  {
    hide WakeHead;
    assert |Queue(s.asl, Dev(i))| <= -s.devSems[i];
    var s1 := s.(devSems := s.devSems[i := s.devSems[i] + 1]);
    if Queue(s1.asl, Dev(i)) != [] { WakePrio(s1, Dev(i), Some(status), true); }
  }

  lemma TxSorted(s: State, i: nat, status: int)
    requires Sems(s) && Sorted(s) && i < TOT_SEMS
    ensures Sorted(Deliver(s, i, status, true))
       <==> !(Queue(s.asl, Dev(i)) != [] && s.ready != []
              && s.pcb[s.ready[|s.ready| - 1]].prio < s.pcb[Queue(s.asl, Dev(i))[0]].prio)
  {
    hide Sems, Deliver;
    TxDelivers(s, i, status);
    var r := Deliver(s, i, status, true);
    assert Prios(r.pcb) == Prios(s.pcb);
    if Queue(s.asl, Dev(i)) != [] {
      AppendSorted(s.ready, Queue(s.asl, Dev(i))[0], Prios(s.pcb));
    }
  }

  lemma InsertKeepsDisorder(q: seq<Id>, p: Id, pr: seq<int>)
    requires |pr| == MAXPROC && SortedByPrio(InsertByPrio(q, p, pr), pr)
    ensures SortedByPrio(q, pr)
  {
    var k := Slot(q, pr[p], pr);
    var r := InsertByPrio(q, p, pr);
    forall i, j | 0 <= i < j < |q|
      ensures pr[q[i]] >= pr[q[j]]
    {
      var a := if i < k then i else i + 1;
      var b := if j < k then j else j + 1;
      assert q[i] == r[a] && q[j] == r[b] && a < b;
    }
  }

  lemma RxSorted(s: State, i: nat, status: int)
    requires i < TOT_SEMS && Sorted(Deliver(s, i, status, false))
    ensures Sorted(s)
  {
    hide WakeHead;
    var s1 := s.(devSems := s.devSems[i := s.devSems[i] + 1]);
    if s.devSems[i] < 0 && Queue(s1.asl, Dev(i)) != [] {
      WakePrio(s1, Dev(i), Some(status), false);
      assert Prios(Deliver(s, i, status, false).pcb) == Prios(s.pcb);
      InsertKeepsDisorder(s.ready, Queue(s.asl, Dev(i))[0], Prios(s.pcb));
    }
  }

  lemma DeviceSorted(s: State, e: Event)
    requires Sems(s) && Sorted(s) && e.interrupt && 17 <= e.saved.cause <= 21
    ensures Sorted(DeviceInterrupt(s, e.saved.cause - 14, e)) <==> !TxOvertakes(s, e)
  {
    hide Sorted, Deliver, LowestDevice, Sems;
    match LowestDevice(e.pending, 0)
    case None =>
    case Some(d) =>
      if e.saved.cause == 21 {
        TxSorted(s, 32 + d, e.txStatus);
        var s1 := if e.txStatus % 256 == OKCHARTRANS then Deliver(s, 32 + d, e.txStatus, true) else s;
        if Sorted(s1) { DeliverSorted(s1, 40 + d, e.status); }
        if Sorted(Deliver(s1, 40 + d, e.status, false)) { RxSorted(s1, 40 + d, e.status); }
      } else {
        DeliverSorted(s, DevSem(e.saved.cause - 14, d), e.status);
      }
  }

  lemma EffectSorted(s: State, e: Event)
    requires Sems(s) && Sorted(s) && e.interrupt
    ensures Sorted(InterruptEffect(s, e)) <==> !TxOvertakes(s, e)
    ensures e.saved.cause == 21 ==> InterruptEffect(s, e).current == s.current
  {
    hide Sems, Sorted, TxOvertakes, DeviceInterrupt, WakeSleepers, MakeReady;
    NoOvertake(s, e);
    if e.saved.cause == 7 {
      if s.current.Some? {
        var s1 := SetRegs(s, s.current.value, e.saved.(mie := true));
        SortedRegs(s, s.current.value, e.saved.(mie := true));
        MakeReadySorted(s1, s.current.value);
        SortedSame(MakeReady(s1, s.current.value), MakeReady(s1, s.current.value).(current := None));
      }
    } else if e.saved.cause == 3 {
      SleepersSorted(s);
      SortedSame(WakeSleepers(s), InterruptEffect(s, e));
    } else if 17 <= e.saved.cause <= 21 {
      DeviceSorted(s, e);
      DeviceCurrent(s, e);
    }
  }

  lemma InterruptSorted(s0: State, e: Event)
    requires Inv(s0) && Sorted(s0) && e.interrupt && (s0.current.None? ==> s0.ready == [])
    ensures Sorted(InterruptHandler(s0, e)) <==> !TxOvertakes(s0, e)
  {
    hide Inv, Sorted, InterruptEffect, Scheduler, TxOvertakes;
    var s := StampInterrupt(s0, e.clk.t1);
    SameCoreInv(s0, s);
    ChargeSorted(s0, e.clk.t1);
    OvertakesFrame(s0, s, e);
    NoOvertake(s0, e);
    assert s.current == s0.current && s.ready == s0.ready;
    InvSems(s);
    EffectSorted(s, e);
    hide StampInterrupt;
    var r := InterruptEffect(s, e);
    ResumeSorted(r, e);
    if Sorted(r) { SchedulerSorted(r, e.clk.t3); }
  }

  lemma InvSems(s: State)
    requires Inv(s)
    ensures Sems(s)
  {
  }

  lemma NoOvertake(s: State, e: Event)
    ensures e.saved.cause != 21 || s.ready == [] ==> !TxOvertakes(s, e)
  {
  }

  lemma OvertakesFrame(s: State, r: State, e: Event)
    requires s.asl == r.asl && s.ready == r.ready && forall x: Id :: s.pcb[x].prio == r.pcb[x].prio
    ensures TxOvertakes(s, e) <==> TxOvertakes(r, e)
  {
  }

  lemma DeviceCurrent(s: State, e: Event)
    requires 17 <= e.saved.cause <= 21
    ensures DeviceInterrupt(s, e.saved.cause - 14, e).current == s.current
  {
    forall r: State, i: nat, status: int, atTail: bool | i < TOT_SEMS { DeliverCurrent(r, i, status, atTail); }
    hide Deliver;
  }

  lemma DeliverCurrent(s: State, i: nat, status: int, atTail: bool)
    requires i < TOT_SEMS
    ensures Deliver(s, i, status, atTail).current == s.current
  {
    hide WakeHead;
    var s1 := s.(devSems := s.devSems[i := s.devSems[i] + 1]);
    if Queue(s1.asl, Dev(i)) != [] { WakeHeadRest(s1, Dev(i), Some(status), atTail); }
  }

  lemma ResumeSorted(s: State, e: Event)
    ensures s.current.Some? ==> (Sorted(Resume(s, e)) <==> Sorted(s))
    ensures Sorted(s) ==> Sorted(Resume(s, e))
  {
    hide Scheduler;
    if Sorted(s) { SchedulerSorted(s, e.clk.t3); }
  }

  // ---------------------------------------------------------------- system calls

  lemma BlockSorted(s: State, k: Sem, clk: Clock)
    requires Sorted(s)
    ensures Sorted(Block(s, k, clk))
  {
    if s.current.Some? {
      var r := Park(s, k, clk.t2);
      assert r.ready == s.ready && forall p: Id :: r.pcb[p].prio == s.pcb[p].prio;
      SortedFrame(s, r);
      hide Sorted, Scheduler, Park;
      SchedulerSorted(r, clk.t3);
    }
  }

  lemma TerminateTreeSorted(s: State, p: Id)
    requires Inv(s) && Live(s, p) && s.yielded.None? && Sorted(s)
    ensures Sorted(TerminateTree(s, p))
  {
    TerminateExact(s, p);
    var d := Subtree(s, p);
    var r := TerminateTree(s, p);
    hide Placement, Pids, Links, Counts, Sems, TerminateTree, Subtree;
    WithoutSorted(s.ready, d, Prios(s.pcb));
    forall x: Id | x in r.ready
      ensures r.pcb[x].prio == s.pcb[x].prio
    {
      assert x !in d;
    }
    SortedFrame(s.(ready := Without(s.ready, d)), r);
  }

  lemma DieSorted(s: State, p: Id, now: int)
    requires Inv(s) && Live(s, p) && s.yielded.None? && Sorted(s)
    ensures var r := TerminateTree(s, p);
            && Sorted(r) && Sorted(Scheduler(r.(current := None), now)) && Sorted(Scheduler(r, now))
  {
    hide Inv, Sorted, Scheduler;
    TerminateTreeSorted(s, p);
    var r := TerminateTree(s, p);
    SortedSame(r, r.(current := None));
    SchedulerSorted(r.(current := None), now);
    SchedulerSorted(r, now);
  }

  lemma DeathSorted(s: State, kind: int, e: Event, saved: Regs)
    requires Inv(s) && s.current.Some? && s.yielded.None? && Sorted(s)
    ensures Sorted(PassUpOrDie(s, kind, e, saved))
  {
    hide Placement, Pids, Links, Counts, Sems, Sorted, Scheduler, TerminateTree;
    var c := s.current.value;
    if s.pcb[c].support != 0 {
      SortedSame(s, PassUpOrDie(s, kind, e, saved));
    } else {
      var s1 := ChargeTime(s, e.clk.t1);
      SameCoreInv(s, s1);
      ChargeSorted(s, e.clk.t1);
      CurrentLive(s1);
      DieSorted(s1, c, e.clk.t3);
    }
  }

  lemma TerminateSorted(s: State, e: Event, saved: Regs)
    requires Inv(s) && s.current.Some? && s.yielded.None? && Sorted(s)
    ensures Sorted(Terminate(s, e, saved))
  {
    hide Placement, Pids, Links, Counts, Sems, Sorted, Scheduler, TerminateTree, FindFrom;
    var s1 := ChargeTime(s, e.clk.t1);
    SameCoreInv(s, s1);
    ChargeSorted(s, e.clk.t1);
    CurrentLive(s1);
    FindLive(s1, saved.a1, 0);
    var t := Target(s1, saved.a1);
    hide ChargeTime, Target;
    if t.None? {
      SortedSame(s1, Continue(s1, saved));
    } else {
      DieSorted(s1, t.value, e.clk.t3);
      var s2 := TerminateTree(s1, t.value);
      if s2.current.Some? {
        SortedRegs(s2, s2.current.value, saved);
        SortedSame(SetRegs(s2, s2.current.value, saved), Continue(SetRegs(s2, s2.current.value, saved), saved));
      }
    }
  }

  lemma FreshNotReady(s: State)
    requires Inv(s) && s.free != []
    ensures s.free[0] !in s.ready
  {
    assert Places(s, s.free[0]) == 1;
    CountHead(s.free, s.free[0]);
    CountIn(s.ready, s.free[0]);
  }

  lemma SpawnSorted(s: State, e: Event, saved: Regs)
    requires s.current.Some? && s.free != [] && FreeSlot(s.active) < MAXPROC && s.free[0] != s.current.value
    requires Sorted(s) && s.free[0] !in s.ready
    ensures Sorted(Spawn(s, e, saved))
  {
    hide MakeReady, FreeSlot;
    var c := s.current.value;
    var p := s.free[0];
    var s1 := WithChild(s, e, saved);
    SortedFrame(s, s1);
    hide Sorted;
    MakeReadySorted(s1, c);
    MakeReadySorted(MakeReady(s1, c), p);
    SortedSame(MakeReady(MakeReady(s1, c), p), Spawn(s, e, saved));
  }

  lemma CreateSorted(s: State, e: Event, saved: Regs)
    requires Inv(s) && s.current.Some? && Sorted(s)
    ensures Sorted(Create(s, e, saved))
  {
    hide Inv;
    if s.free == [] {
      SortedFrame(s, Create(s, e, saved));
    } else {
      hide Sorted, Scheduler, Create, Spawn;
      RoomToCreate(s);
      FreshNotReady(s);
      SpawnSorted(s, e, saved);
      SchedulerSorted(Spawn(s, e, saved), e.clk.t3);
    }
  }

  lemma VerhogenSorted(s: State, e: Event, saved: Regs)
    requires s.current.Some? && Sorted(s)
    ensures Sorted(Verhogen(s, e, saved))
  {
    var s1 := SetRegs(ChargeTime(s, e.clk.t1), s.current.value, saved);
    var s2 := s1.(words := s1.words[saved.a1 := WordAt(s1.words, saved.a1) + 1]);
    SortedFrame(s, s2);
    hide Sorted, WakeHead;
    if Queue(s2.asl, Word(saved.a1)) != [] {
      WakeSorted(s2, Word(saved.a1), None);
      SortedSame(WakeHead(s2, Word(saved.a1), None, false), Continue(WakeHead(s2, Word(saved.a1), None, false), saved));
    }
    SortedSame(s2, Continue(s2, saved));
  }

  lemma PasserenSorted(s: State, e: Event, saved: Regs)
    requires s.current.Some? && Sorted(s)
    ensures Sorted(Passeren(s, e, saved))
  {
    hide Sorted, Block;
    ChargeSorted(s, e.clk.t1);
    var s0 := ChargeTime(s, e.clk.t1);
    SortedRegs(s0, s.current.value, saved);
    var s1 := SetRegs(s0, s.current.value, saved);
    var s2 := s1.(words := s1.words[saved.a1 := WordAt(s1.words, saved.a1) - 1]);
    SortedSame(s1, s2);
    BlockSorted(s2, Word(saved.a1), e.clk);
    SortedSame(s2, Continue(s2, saved));
  }

  lemma DeviceCallSorted(s: State, e: Event, saved: Regs)
    requires s.current.Some? && Sorted(s)
    ensures InDeviceArea(saved.a1) ==> Sorted(DoIo(s, e, saved))
    ensures Sorted(ClockWait(s, e, saved))
  {
    var s1 := SetRegs(ChargeTime(s, e.clk.t1), s.current.value, saved);
    SortedFrame(s, s1);
    if InDeviceArea(saved.a1) { SemOfCommandRange(saved.a1); }
    hide Sorted, Block, SemOfCommand;
    forall r: State | r.ready == s1.ready && r.pcb == s1.pcb
      ensures Sorted(r)
    {
      SortedSame(s1, r);
    }
    forall r: State, k: Sem | Sorted(r) { BlockSorted(r, k, e.clk); }
    hide SetRegs, ChargeTime;
  }

  lemma RestSorted(s: State, e: Event, saved: Regs)
    requires s.current.Some? && Sorted(s)
    ensures Sorted(GetTime(s, e, saved)) && Sorted(GetProcessId(s, saved)) && Sorted(Yield(s, e, saved))
    ensures Sorted(Continue(s, saved.(a0 := s.pcb[s.current.value].support)))
  {
    var s0 := ChargeTime(s, e.clk.t1);
    var s1 := SetRegs(s0, s.current.value, saved).(yielded := s.current, current := None);
    SortedFrame(s, s0);
    SortedFrame(s, s1);
    hide Sorted, Scheduler;
    SchedulerSorted(s1, e.clk.t3);
    SortedSame(s0, GetTime(s, e, saved));
    SortedSame(s, GetProcessId(s, saved));
    SortedSame(s, Continue(s, saved.(a0 := s.pcb[s.current.value].support)));
  }

  lemma SyscallSorted(s: State, e: Event, saved: Regs)
    requires Inv(s) && s.current.Some? && s.yielded.None? && Sorted(s)
    requires saved.a0 == DOIO && !saved.user ==> InDeviceArea(saved.a1)
    ensures Sorted(SyscallHandler(s, e, saved))
  {
    hide Inv, Sorted, PassUpOrDie, Create, Terminate, Passeren, Verhogen, DoIo, ClockWait, Yield, GetTime, GetProcessId;
    DeathSorted(s, GENERALEXCEPT, e, saved);
    DeathSorted(s, GENERALEXCEPT, e, saved.(cause := PRIVINSTR));
    TerminateSorted(s, e, saved);
    CreateSorted(s, e, saved);
    PasserenSorted(s, e, saved);
    VerhogenSorted(s, e, saved);
    DeviceCallSorted(s, e, saved);
    RestSorted(s, e, saved);
  }

  /** The ready queue stays sorted through every exception but one, and loses its order exactly
      then. */
  lemma StepSorted(s: State, e: Event)
    requires Inv(s) && Settled(s) && Enabled(s, e) && Sorted(s)
    ensures Sorted(Step(s, e)) <==> !TxOvertakes(s, e)
  {
    hide Inv, Sorted, TxOvertakes, InterruptHandler, SyscallHandler, PassUpOrDie;
    var s1 := ChargeTime(s, e.clk.t0);
    SameCoreInv(s, s1);
    ChargeSorted(s, e.clk.t0);
    OvertakesFrame(s, s1, e);
    if e.interrupt {
      InterruptSorted(s1, e);
    } else {
      TrapsDoNotOvertake(s, e);
      DeathSorted(s1, PGFAULTEXCEPT, e, e.saved);
      DeathSorted(s1, GENERALEXCEPT, e, e.saved);
      if IsSyscall(e.saved.cause) { SyscallSorted(s1, e, e.saved.(pc := e.saved.pc + WORDLEN)); }
    }
  }

  lemma TrapsDoNotOvertake(s: State, e: Event)
    ensures !e.interrupt ==> !TxOvertakes(s, e)
  {
  }
}
