/** Runs from boot in which what fails does fail: the ready queue out of order, and a device
    semaphore whose value no longer counts its waiters. */
module NucleusWitness {
  import opened Queues
  import opened Nucleus
  import opened NucleusInvariant
  import opened Lifecycle
  import opened Termination
  import opened NucleusRun
  import opened Verdict
  import opened CpuTime
  import opened Priority
  import opened NucleusHistory
  import opened Wakeups
  import opened Devices
  import opened Calls
  import opened Slack

  const NOW := Clock(0, 0, 0, 0)
  const TX_SEM: nat := 32

  /** A call from kernel mode. */
  function Call(number: int, a1: int, a2: int): Event {
    Event(false, Regs(number, a1, a2, 0, 0, 8, false, true, 0), NO_REGS, {}, 0, 0, NOW)
  }

  /** The transmitter of terminal 0 has sent its character. */
  function Sent(): Event {
    Event(true, Regs(0, 0, 0, 0, 0, 21, true, true, 0), NO_REGS, {0}, 0, OKCHARTRANS, NOW)
  }

  /** `current` runs, at clock reading 0. */
  predicate Runs(s: State, current: Id, ready: seq<Id>) {
    s.current == Some(current) && s.ready == ready && s.yielded.None? && s.cpu.Load? && s.startTOD == 0
  }

  // ---------------------------------------------------------------- the steps

  lemma Boots(regs: Regs)
    ensures var s := Boot(map[], 0, 0, regs);
            && Inv(s) && Settled(s) && Sorted(s) && Runs(s, 0, []) && s.free == Ids(MAXPROC)[1..] && s.nextPid == 2
            && s.pcb[0].prio == PROCESS_PRIO_LOW && s.asl == map[] && s.devSems[TX_SEM] == 0
  {
    BootInv(map[], 0, 0, regs);
    hide Inv, Settled, TimeInv, Sorted, Ids;
  }

  /** A process with nobody ready creates a child of higher priority, which runs at once. */
  lemma CreateRuns(s: State, c: Id, prio: int)
    requires Inv(s) && Runs(s, c, []) && s.free != [] && s.pcb[c].prio < prio
    ensures var e := Call(CREATEPROCESS, 0, prio);
            && Enabled(s, e)
            && var r := Step(s, e);
               var p := s.free[0];
               && Inv(r) && Runs(r, p, [c]) && r.free == s.free[1..] && r.nextPid == s.nextPid + 1
               && r.asl == s.asl && r.devSems == s.devSems
               && r.pcb[p].prio == prio && r.pcb[p].pid == s.nextPid
               && forall q: Id :: q != p ==> r.pcb[q].prio == s.pcb[q].prio && r.pcb[q].pid == s.pcb[q].pid
  {
    hide Inv, FreeSlot, SyscallHandler, Step, Enabled, Create, Issues;
    var e := Call(CREATEPROCESS, 0, prio);
    CallEnabled(s, CREATEPROCESS, 0, prio);
    StepInv(s, e);
    StepIsCall(s, e, CREATEPROCESS);
    var s1 := ChargeTime(s, 0);
    RoomToCreate(s1);
    CallIsCreate(s1, e);
    Spawns(s1, e, c, s.free[0]);
  }

  lemma CallEnabled(s: State, number: int, a1: int, a2: int)
    requires s.current.Some? && s.yielded.None? && s.cpu.Load? && s.startTOD == 0 && number < 0
    requires number == DOIO ==> InDeviceArea(a1)
    ensures Enabled(s, Call(number, a1, a2)) && Issues(s, Call(number, a1, a2), number)
    ensures Issues(ChargeTime(s, 0), Call(number, a1, a2), number)
  {
  }

  lemma CallIsCreate(s: State, e: Event)
    requires Inv(s) && s.current.Some? && s.yielded.None? && Issues(s, e, CREATEPROCESS)
    ensures var saved := e.saved.(pc := e.saved.pc + WORDLEN);
            SyscallHandler(s, e, saved) == Create(s, e, saved)
  {
    hide Create, Inv;
  }

  lemma Spawns(s: State, e: Event, c: Id, p: Id)
    requires s.current == Some(c) && s.ready == [] && s.yielded.None? && s.free != [] && s.free[0] == p != c
    requires FreeSlot(s.active) < MAXPROC && s.pcb[c].prio < e.saved.a2 && e.clk == NOW
    ensures var r := Create(s, e, e.saved.(pc := e.saved.pc + WORDLEN));
            && Runs(r, p, [c]) && r.free == s.free[1..] && r.nextPid == s.nextPid + 1
            && r.asl == s.asl && r.devSems == s.devSems && r.pcb[p].prio == e.saved.a2 && r.pcb[p].pid == s.nextPid
            && forall q: Id :: q != p ==> r.pcb[q].prio == s.pcb[q].prio && r.pcb[q].pid == s.pcb[q].pid
  {
    hide FreeSlot;
    var s1 := WithChild(s, e, e.saved.(pc := e.saved.pc + WORDLEN));
    var s2 := MakeReady(s1, c);
    assert s2.ready == [c];
    var s3 := MakeReady(s2, p);
    assert s3.ready == [p, c];
  }

  /** The running process waits for its transmitter, and the only ready one runs. */
  lemma SendRuns(s: State, c: Id, d: Id)
    requires Inv(s) && Runs(s, c, [d])
    ensures var e := Call(DOIO, CommandRegister(TX_SEM), 0);
            && Enabled(s, e)
            && var r := Step(s, e);
               && Inv(r) && Runs(r, d, []) && r.free == s.free && r.nextPid == s.nextPid
               && r.devSems[TX_SEM] == s.devSems[TX_SEM] - 1
               && Queue(r.asl, Dev(TX_SEM)) == Queue(s.asl, Dev(TX_SEM)) + [c]
               && forall q: Id :: r.pcb[q].prio == s.pcb[q].prio && r.pcb[q].pid == s.pcb[q].pid
  {
    hide Inv, SyscallHandler, Step, SemOfCommand, CommandRegister, Enabled, Issues, DoIo, InDeviceArea, Queue;
    var e := Call(DOIO, CommandRegister(TX_SEM), 0);
    DecodeInverts(TX_SEM);
    CallEnabled(s, DOIO, CommandRegister(TX_SEM), 0);
    StepInv(s, e);
    WaitExact(s, e);
    StepIsCall(s, e, DOIO);
    var s1 := ChargeTime(s, 0);
    CallIsDoIo(s1, e);
    Parks(s1, e, d);
  }

  lemma CallIsDoIo(s: State, e: Event)
    requires Inv(s) && s.current.Some? && s.yielded.None? && Issues(s, e, DOIO) && InDeviceArea(e.saved.a1)
    ensures var saved := e.saved.(pc := e.saved.pc + WORDLEN);
            SyscallHandler(s, e, saved) == DoIo(s, e, saved)
  {
    hide DoIo, Inv;
  }

  lemma Parks(s: State, e: Event, d: Id)
    requires s.current.Some? && s.ready == [d] && s.yielded.None? && InDeviceArea(e.saved.a1) && e.clk == NOW
    ensures var r := DoIo(s, e, e.saved.(pc := e.saved.pc + WORDLEN));
            && Runs(r, d, []) && r.free == s.free && r.nextPid == s.nextPid
            && forall q: Id :: r.pcb[q].prio == s.pcb[q].prio && r.pcb[q].pid == s.pcb[q].pid
  {
    SemOfCommandRange(e.saved.a1);
    hide SemOfCommand;
  }

  lemma RunLast(s: State, es: seq<Event>, t: State, e: Event)
    requires Inv(s) && Run(s, es, t) && Inv(t) && Enabled(t, e)
    ensures Inv(Step(t, e)) && Run(s, es + [e], Step(t, e))
    decreases |es|
  {
    hide Inv, Step, Enabled;
    StepInv(t, e);
    if es == [] {
      assert Run(Step(t, e), [e][1..], Step(t, e));
      assert es + [e] == [e];
    } else {
      StepInv(s, es[0]);
      RunLast(Step(s, es[0]), es[1..], t, e);
      assert (es + [e])[1..] == es[1..] + [e];
    }
  }

  // ---------------------------------------------------------------- a sender of high priority

  const HIGH := 2
  const MIDDLE := 1

  /** Process 0 creates one of high priority, which sends a character and waits. */
  function Sending(): seq<Event> {
    [Call(CREATEPROCESS, 0, HIGH), Call(DOIO, CommandRegister(TX_SEM), 0)]
  }

  lemma SenderWaits(regs: Regs) returns (t: State)
    ensures var s := Boot(map[], 0, 0, regs);
            && Inv(s) && Inv(t) && Run(s, Sending(), t) && Runs(t, 0, []) && t.free == Ids(MAXPROC)[2..]
            && t.nextPid == 3 && t.pcb[0].prio == PROCESS_PRIO_LOW && t.pcb[1].prio == HIGH && t.pcb[1].pid == 2
            && t.devSems[TX_SEM] == -1 && Queue(t.asl, Dev(TX_SEM)) == [1]
  {
    hide Inv, Boot, Ids, Step, Enabled, CommandRegister, Call, Settled, Sorted;
    var s := Boot(map[], 0, 0, regs);
    Boots(regs);
    FreeIds();
    CreateRuns(s, 0, HIGH);
    var s1 := Step(s, Call(CREATEPROCESS, 0, HIGH));
    SendRuns(s1, 1, 0);
    t := Step(s1, Call(DOIO, CommandRegister(TX_SEM), 0));
    RunLast(s, [], s, Call(CREATEPROCESS, 0, HIGH));
    assert [] + [Call(CREATEPROCESS, 0, HIGH)] == [Call(CREATEPROCESS, 0, HIGH)];
    RunLast(s, [Call(CREATEPROCESS, 0, HIGH)], s1, Call(DOIO, CommandRegister(TX_SEM), 0));
    assert [Call(CREATEPROCESS, 0, HIGH)] + [Call(DOIO, CommandRegister(TX_SEM), 0)] == Sending();
  }

  lemma FreeIds()
    ensures var q := Ids(MAXPROC)[1..]; |q| == 19 && q[0] == 1 && q[1..] == Ids(MAXPROC)[2..] && q[1] == 2
  {
    hide Ids;
  }

  /** While it waits another of middle priority is created and runs; then the character is sent:
      the ready queue was sorted up to then and is not any more. */
  lemma OrderLost(regs: Regs) returns (t: State)
    ensures var s := Boot(map[], 0, 0, regs);
            && Inv(s) && Inv(t) && Run(s, Sending() + [Call(CREATEPROCESS, 0, MIDDLE)], t) && Enabled(t, Sent())
            && Sorted(t) && !Sorted(Step(t, Sent()))
  {
    hide Inv, Boot, Ids, Step, Call, Settled, Sending, Run;
    var s := Boot(map[], 0, 0, regs);
    var s2 := SenderWaits(regs);
    FreeIds();
    CreateRuns(s2, 0, MIDDLE);
    t := Step(s2, Call(CREATEPROCESS, 0, MIDDLE));
    RunLast(s, Sending(), s2, Call(CREATEPROCESS, 0, MIDDLE));
    Overtakes(t);
    RunSettled(regs, Sending() + [Call(CREATEPROCESS, 0, MIDDLE)], t);
    StepSorted(t, Sent());
  }

  lemma Overtakes(t: State)
    requires t.ready == [0] && t.pcb[0].prio < t.pcb[1].prio && Queue(t.asl, Dev(TX_SEM)) == [1]
    ensures Sorted(t) && TxOvertakes(t, Sent())
  {
    assert LowestDevice({0}, 0) == Some(0);
  }

  lemma RunSettled(regs: Regs, es: seq<Event>, t: State)
    requires Inv(Boot(map[], 0, 0, regs)) && Run(Boot(map[], 0, 0, regs), es, t)
    ensures Settled(t)
  {
    BootInv(map[], 0, 0, regs);
    hide Inv, Settled, TimeInv, Run, Boot;
    RunInv(Boot(map[], 0, 0, regs), es, t, Epoch(0, []));
  }

  /** The sender is terminated while it waits: nobody is in the queue of its transmitter, and the
      value of the semaphore still says that one is. */
  lemma LevelLost(regs: Regs) returns (t: State)
    ensures var s := Boot(map[], 0, 0, regs);
            && Inv(s) && Inv(t) && Run(s, Sending() + [Call(TERMPROCESS, 2, 0)], t)
            && Queue(t.asl, Dev(TX_SEM)) == [] && t.devSems[TX_SEM] == -1
  {
    hide Inv, Boot, Ids, Step, Sending, Run, Enabled;
    var s := Boot(map[], 0, 0, regs);
    var s2 := SenderWaits(regs);
    var e := Call(TERMPROCESS, 2, 0);
    CallEnabled(s2, TERMPROCESS, 2, 0);
    t := Step(s2, e);
    RunLast(s, Sending(), s2, e);
    SenderDies(s2);
    StepLevel(s2, e, TX_SEM);
    StepSems(s2, e, TX_SEM);
    ValueBound(t, TX_SEM);
  }

  lemma SenderDies(s: State)
    requires Inv(s) && Enabled(s, Call(TERMPROCESS, 2, 0)) && s.current == Some(0)
    requires s.pcb[1].pid == 2 && Queue(s.asl, Dev(TX_SEM)) == [1]
    ensures 1 in Queue(s.asl, Dev(TX_SEM)) && !Live(Step(s, Call(TERMPROCESS, 2, 0)), 1)
  {
    hide Placement, Pids, Links, Counts, Sems, Step, Enabled, Live;
    var e := Call(TERMPROCESS, 2, 0);
    QueueMember(s, Dev(TX_SEM), 1);
    StepOutcome(s, e, 1);
    assert IsVictim(s, e, 1) && Under(s, 1, 1);
  }
}
