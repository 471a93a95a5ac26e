/** The Nucleus as it runs: the kernel's globals and the handlers that update them in place.
    Every method is proved against the function of `Nucleus` or `NucleusRun` it implements. */
module KernelCode {
  import opened Queues
  import opened Nucleus
  import opened NucleusInvariant
  import opened BlockAndWake
  import opened Lifecycle
  import opened Termination
  import opened Marking
  import opened NucleusRun
  import opened NucleusHistory
  import opened Verdict
  import opened CpuTime
  import opened Priority

  class Kernel {
    const pcb: array<Pcb>
    const devSems: array<int>
    const active: array<Option<Id>>
    var free: seq<Id>
    var nextPid: int
    var asl: map<Sem, seq<Id>>
    var ready: seq<Id>
    var current: Option<Id>
    var yielded: Option<Id>
    var processCount: int
    var softBlock: int
    var words: map<int, int>
    var startTOD: int
    var cpu: Cpu
    ghost var ledger: seq<Charge>

    ghost predicate Valid() {
      pcb.Length == MAXPROC && devSems.Length == TOT_SEMS && active.Length == MAXPROC
    }

    /** The value of all globals. */
    ghost function St(): State
      requires Valid()
      reads this, pcb, devSems, active
    {
      State(pcb[..], free, nextPid, asl, ready, current, yielded, processCount, softBlock,
            devSems[..], words, active[..], startTOD, cpu, ledger)
    }

    // -------------------------------------------------------------- time and queues

    method UpdateCPUTime(now: int)
      requires Valid()
      modifies this, pcb
      ensures Valid() && St() == ChargeTime(old(St()), now)
    {
      if current.Some? {
        var c := current.value;
        ledger := ledger + [Charge(pcb[c].pid, startTOD, now)];
        pcb[c] := pcb[c].(time := pcb[c].time + (now - startTOD));
        startTOD := now;
        assert pcb[..] == old(pcb[..])[c := pcb[c]];
      }
    }

    /** `copyState` into the saved state of `p`. */
    method SaveState(p: Id, regs: Regs)
      requires Valid()
      modifies pcb
      ensures Valid() && St() == SetRegs(old(St()), p, regs)
    {
      pcb[p] := pcb[p].(regs := regs);
      assert pcb[..] == old(pcb[..])[p := pcb[p]];
    }

    /** `insertProcQ` on the ready queue: walk to the first process of lower priority. */
    method InsertReady(p: Id)
      requires Valid()
      modifies this`ready
      ensures Valid() && St() == MakeReady(old(St()), p)
    {
      var k := 0;
      while k < |ready| && pcb[p].prio <= pcb[ready[k]].prio
        invariant k <= |ready|
        invariant forall i :: 0 <= i < k ==> pcb[ready[i]].prio >= pcb[p].prio
      {
        k := k + 1;
      }
      SlotUnique(ready, Prios(pcb[..])[p], Prios(pcb[..]), k);
      ready := ready[..k] + [p] + ready[k..];
    }

    /** The scheduler once no yielder is left: dispatch, or halt, wait, panic. */
    method DispatchOrStop(now: int)
      requires Valid()
      modifies this
      ensures Valid() && St() == Pick(old(St()), now)
    {
      if ready != [] {
        current := Some(ready[0]);
        ready := ready[1..];
        startTOD := now;
        cpu := Load(pcb[current.value].regs);
        return;
      }
      current := None;
      if processCount == 0 {
        cpu := Halt;
      } else if softBlock > 0 {
        cpu := Wait;
      } else {
        cpu := Panic;
      }
    }

    method Schedule(now: int)
      requires Valid()
      modifies this
      ensures Valid() && St() == Scheduler(old(St()), now)
    {
      hide MakeReady, Pick;
      if yielded.Some? {
        var y := yielded.value;
        yielded := None;
        if ready != [] && pcb[ready[0]].prio >= pcb[y].prio {
          InsertReady(y);
        } else {
          current := Some(y);
          startTOD := now;
          cpu := Load(pcb[y].regs);
          return;
        }
      }
      DispatchOrStop(now);
    }

    // -------------------------------------------------------------- semaphore queues

    method JoinQueue(k: Sem, p: Id)
      requires Valid()
      modifies this`asl
      ensures Valid() && St() == InsertBlocked(old(St()), k, p)
    {
      if k in asl {
        asl := asl[k := asl[k] + [p]];
      } else if |asl| < MAXPROC {
        asl := asl[k := [p]];
      }
    }

    method BlockCurrentProcess(k: Sem, clk: Clock)
      requires Valid()
      modifies this, pcb
      ensures Valid() && St() == Block(old(St()), k, clk)
    {
      if current.None? {
        cpu := Panic;
        return;
      }
      var c := current.value;
      UpdateCPUTime(clk.t2);
      label charged:
      pcb[c] := pcb[c].(semAdd := Some(k));
      assert pcb[..] == old@charged(pcb[..])[c := pcb[c]];
      if IsDevice(k) {
        softBlock := softBlock + 1;
      }
      JoinQueue(k, c);
      current := None;
      assert St() == Park(old(St()), k, clk.t2);
      Schedule(clk.t3);
    }

    /** `removeBlocked`: the head of `k` leaves; its descriptor is released with the last one. */
    method PopQueue(k: Sem) returns (p: Id)
      requires Valid() && Queue(asl, k) != []
      modifies this`asl, pcb
      ensures Valid() && p == old(Queue(asl, k)[0]) && St() == RemoveBlocked(old(St()), k)
    {
      p := asl[k][0];
      DropHead(asl, k);
      asl := if |asl[k]| == 1 then asl - {k} else asl[k := asl[k][1..]];
      pcb[p] := pcb[p].(semAdd := None);
      assert pcb[..] == old(pcb[..])[p := pcb[p]];
    }

    /** The wake-up of the head of `k`. */
    method Wake(k: Sem, result: Option<int>, atTail: bool)
      requires Valid() && Queue(asl, k) != []
      modifies this, pcb
      ensures Valid() && St() == WakeHead(old(St()), k, result, atTail)
    {
      hide InsertByPrio, DropBlocked;
      var p := PopQueue(k);
      if result.Some? {
        SaveState(p, pcb[p].regs.(a0 := result.value));
      }
      if atTail {
        ready := ready + [p];
      } else {
        InsertReady(p);
      }
    }

    // -------------------------------------------------------------- interrupts

    /** `getHighestPriorityDevice`: the first pending bit. */
    method HighestPriorityDevice(pending: set<int>) returns (d: Option<nat>)
      ensures d == LowestDevice(pending, 0)
    {
      d := None;
      for i := 0 to 8
        invariant LowestDevice(pending, 0) == LowestDevice(pending, i)
      {
        if i in pending {
          return Some(i);
        }
      }
    }

    /** The completion of an operation of device semaphore `i`. */
    method Complete(i: nat, status: int, atTail: bool)
      requires Valid() && i < TOT_SEMS
      modifies this, pcb, devSems
      ensures Valid() && St() == Deliver(old(St()), i, status, atTail)
    {
      hide WakeHead;
      if devSems[i] < 0 {
        devSems[i] := devSems[i] + 1;
        assert devSems[..] == old(devSems[..])[i := old(devSems[i]) + 1];
        if Queue(asl, Dev(i)) != [] {
          WakeHeadRest(St(), Dev(i), Some(status), atTail);
          Wake(Dev(i), Some(status), atTail);
          softBlock := softBlock - 1;
        }
      }
    }

    /** The pseudo-clock tick: wake every sleeper, then reset the semaphore. */
    method ClockTick()
      requires Valid()
      modifies this, pcb, devSems
      ensures Valid()
      ensures var s1 := WakeSleepers(old(St())); St() == s1.(devSems := s1.devSems[PSEUDOCLK_SEM := 0])
    {
      hide WakeHead;
      var k := Dev(PSEUDOCLK_SEM);
      while Queue(asl, k) != []
        invariant Valid() && WakeSleepers(St()) == WakeSleepers(old(St()))
        decreases |Queue(asl, k)|
      {
        WakeHeadRest(St(), k, Some(0), false);
        Wake(k, Some(0), false);
        softBlock := softBlock - 1;
      }
      label drained:
      devSems[PSEUDOCLK_SEM] := 0;
      assert devSems[..] == old@drained(devSems[..])[PSEUDOCLK_SEM := 0];
    }

    method DeviceLine(line: int, e: Event)
      requires Valid() && 3 <= line <= 7
      modifies this, pcb, devSems
      ensures Valid() && St() == DeviceInterrupt(old(St()), line, e)
    {
      hide Deliver, LowestDevice;
      var d := HighestPriorityDevice(e.pending);
      if d.Some? {
        if line == 7 {
          if e.txStatus % 256 == OKCHARTRANS {
            Complete(32 + d.value, e.txStatus, true);
          }
          if e.status % 256 == CHARRECV {
            Complete(40 + d.value, e.status, false);
          }
        } else {
          Complete(DevSem(line, d.value), e.status, false);
        }
      }
    }

    method HandleInterrupt(e: Event)
      requires Valid()
      modifies this, pcb, devSems
      ensures Valid() && St() == InterruptHandler(old(St()), e)
    {
      hide DeviceInterrupt, WakeSleepers, Scheduler, MakeReady, Deliver;
      UpdateCPUTime(e.clk.t1);
      startTOD := e.clk.t1;
      assert St() == StampInterrupt(old(St()), e.clk.t1);
      if e.saved.cause == 7 {
        if current.Some? {
          SaveState(current.value, e.saved.(mie := true));
          InsertReady(current.value);
          current := None;
        }
        Schedule(e.clk.t3);
        return;
      }
      if e.saved.cause == 3 {
        ClockTick();
      } else if 17 <= e.saved.cause <= 21 {
        DeviceLine(e.saved.cause - 14, e);
      }
      if current.Some? {
        cpu := Load(e.saved);
      } else {
        Schedule(e.clk.t3);
      }
    }

    // -------------------------------------------------------------- active table

    method AddActive(p: Id) returns (ok: bool)
      requires Valid()
      modifies active
      ensures Valid() && ok == (FreeSlot(old(active[..])) < MAXPROC)
      ensures active[..] == if ok then old(active[..])[FreeSlot(old(active[..])) := Some(p)] else old(active[..])
    {
      var i := 0;
      while i < MAXPROC && active[i].Some?
        invariant i <= MAXPROC && active[..] == old(active[..])
        invariant forall j :: 0 <= j < i ==> active[j].Some?
      {
        i := i + 1;
      }
      FreeSlotIs(active[..], i);
      ok := i < MAXPROC;
      if ok {
        active[i] := Some(p);
        assert active[..] == old(active[..])[i := Some(p)];
      }
    }

    method RemoveActive(p: Id)
      requires Valid()
      modifies active
      ensures Valid() && active[..] == ActiveRemove(old(active[..]), p)
    {
      var i := 0;
      while i < MAXPROC && active[i] != Some(p)
        invariant i <= MAXPROC && active[..] == old(active[..])
        invariant forall j :: 0 <= j < i ==> active[j] != Some(p)
      {
        i := i + 1;
      }
      SlotOfIs(active[..], p, i);
      if i < MAXPROC {
        active[i] := None;
        assert active[..] == old(active[..])[i := None];
      }
    }

    method FindProcessByPid(pid: int) returns (r: Option<Id>)
      requires Valid()
      ensures r == FindFrom(active[..], pcb[..], pid, 0)
    {
      for i := 0 to MAXPROC
        invariant FindFrom(active[..], pcb[..], pid, 0) == FindFrom(active[..], pcb[..], pid, i)
      {
        if active[i].Some? && pcb[active[i].value].pid == pid {
          return active[i];
        }
      }
      return None;
    }

    // -------------------------------------------------------------- termination

    /** `outChild`: `p` leaves its parent's list. */
    method OutChild(p: Id)
      requires Valid()
      modifies pcb
      ensures Valid()
      ensures pcb[..] == var t := Unlink(old(pcb[..]), p); t[p := t[p].(parent := None)]
    {
      hide RemoveFirst;
      if pcb[p].parent.Some? {
        var q := pcb[p].parent.value;
        pcb[q] := pcb[q].(children := RemoveFirst(pcb[q].children, p));
        assert pcb[..] == Unlink(old(pcb[..]), p);
        label unlinked:
        pcb[p] := pcb[p].(parent := None);
        assert pcb[..] == old@unlinked(pcb[..])[p := pcb[p]];
      }
    }

    /** `outBlocked` and what follows it: leave the semaphore queue, undo the P of an ordinary
        semaphore, lower the soft-block count for a device or the clock. */
    method LeaveQueue(p: Id)
      requires Valid()
      modifies this`asl, this`softBlock, this`words, pcb
      ensures Valid() && St() == Unblock(old(St()), p)
    {
      hide DropBlocked, WordAt;
      if pcb[p].semAdd.Some? {
        var k := pcb[p].semAdd.value;
        pcb[p] := pcb[p].(semAdd := None);
        assert pcb[..] == old(pcb[..])[p := pcb[p]];
        if p in Queue(asl, k) {
          asl := DropBlocked(asl, k, p);
          if k.Dev? {
            softBlock := softBlock - 1;
          } else {
            words := words[k.addr := WordAt(words, k.addr) + 1];
          }
        }
      }
    }

    /** `removeChild` for a process that has children. */
    method RemoveChild(p: Id) returns (c: Id)
      requires Valid() && pcb[p].children != []
      modifies pcb
      ensures Valid() && c == old(pcb[p].children[0])
      ensures pcb[..] == var t := old(pcb[..]);
                         var u := t[p := t[p].(children := t[p].children[1..])];
                         u[c := u[c].(parent := None)]
    {
      c := pcb[p].children[0];
      pcb[p] := pcb[p].(children := pcb[p].children[1..]);
      assert pcb[..] == old(pcb[..])[p := pcb[p]];
      label shortened:
      pcb[c] := pcb[c].(parent := None);
      assert pcb[..] == old@shortened(pcb[..])[c := pcb[c]];
    }

    /** The part of `terminateProcess` after the loop over the children. */
    method Reap(p: Id)
      requires Valid() && pcb[p].pid == -1
      modifies this, pcb, active
      ensures Valid() && St() == KillLeaf(old(St()), p)
    {
      hide Unlink, Unblock, ActiveRemove, RemoveFirst;
      UnlinkTable(St().pcb, p);
      OutChild(p);
      RemoveActive(p);
      assert St() == var t := Unlink(old(St()).pcb, p);
                     old(St()).(pcb := t[p := t[p].(pid := -1, parent := None)],
                                active := ActiveRemove(old(active[..]), p));
      LeaveQueue(p);
      ready := RemoveFirst(ready, p);
      if current == Some(p) {
        current := None;
      }
      free := free + [p];
      processCount := processCount - 1;
    }

    /** `terminateProcess`: nothing for a process already marked; otherwise mark `p`, detach and
        terminate its children one by one, then take `p` itself away. `s` is the system without
        the marks `m` and detachments `d` of the calls under way. */
    method TerminateProcess(p: Id, ghost s: State, ghost m: set<Id>, ghost d: set<Id>)
      requires Valid() && St() == Veiled(s, m, d)
      requires pcb[p].pid != -1 ==> Inv(s) && Live(s, p) && s.yielded.None? && Above(s, p, m, d)
      modifies this, pcb, active
      ensures Valid()
      ensures old(pcb[p].pid) == -1 ==> St() == old(St())
      ensures old(pcb[p].pid) != -1 ==> St() == Veiled(TerminateTree(s, p), m, d)
      decreases if pcb[p].pid == -1 then 0 else MAXPROC - |s.free|,
                if pcb[p].pid == -1 then 0 else s.nextPid - s.pcb[p].pid
    {
      hide Placement, Pids, Links, Counts, Sems, KillLeaf, Veil, Above, Live, TerminateTree, Shrunk;
      if pcb[p].pid == -1 {
        return;
      }
      MarkFacts(s, m, d, p);
      pcb[p] := pcb[p].(pid := -1);
      assert pcb[..] == old(pcb[..])[p := pcb[p]];
      ghost var g := s;
      while pcb[p].children != []
        invariant Valid() && Inv(g) && Live(g, p) && g.yielded.None? && Above(g, p, m, d)
        invariant g.nextPid == s.nextPid && |s.free| <= |g.free| <= MAXPROC && g.pcb[p].pid == s.pcb[p].pid
        invariant TerminateTree(g, p) == TerminateTree(s, p)
        invariant St() == Veiled(g, m + {p}, d)
        decreases MAXPROC - |g.free|
      {
        DetachFacts(g, m, d, p);
        ChildCall(g, m, d, p);
        AfterCall(g, m, d, p);
        var c := RemoveChild(p);
        TerminateProcess(c, g, m + {p}, d + {c});
        g := TerminateTree(g, c);
      }
      ChildrenStay(g, p, m, d);
      TerminateLeaf(g, p);
      VeilLeaf(g, m, d, p);
      Reap(p);
    }

    // -------------------------------------------------------------- system calls

    method AllocPcb() returns (r: Option<Id>)
      requires Valid()
      modifies this`free, this`nextPid, pcb
      ensures Valid()
      ensures old(free) == [] ==> r == None && St() == old(St())
      ensures old(free) != [] ==>
                var p := old(free[0]);
                r == Some(p)
                && St() == old(St()).(free := old(free[1..]), nextPid := old(nextPid) + 1,
                                      pcb := old(pcb[..])[p := Pcb(old(nextPid), None, [], None, 0, 0, 0,
                                                                   old(pcb[p].regs))])
    {
      if free == [] {
        return None;
      }
      var p := free[0];
      free := free[1..];
      pcb[p] := Pcb(nextPid, None, [], None, 0, 0, 0, pcb[p].regs);
      assert pcb[..] == old(pcb[..])[p := pcb[p]];
      nextPid := nextPid + 1;
      r := Some(p);
    }

    method InsertChild(parent: Id, p: Id)
      requires Valid()
      modifies pcb
      ensures Valid()
      ensures pcb[..] == var t := old(pcb[..])[p := old(pcb[p]).(parent := Some(parent))];
                         t[parent := t[parent].(children := t[parent].children + [p])]
    {
      pcb[p] := pcb[p].(parent := Some(parent));
      label linked:
      assert pcb[..] == old(pcb[..])[p := pcb[p]];
      pcb[parent] := pcb[parent].(children := pcb[parent].children + [p]);
      assert pcb[..] == old@linked(pcb[..])[parent := pcb[parent]];
    }

    method CreateProcess(e: Event, saved: Regs)
      requires Valid() && current.Some?
      requires free != [] ==> free[0] != current.value
      modifies this, pcb, active
      ensures Valid() && St() == Create(old(St()), e, saved)
    {
      hide Scheduler, MakeReady, FreeSlot;
      var c := current.value;
      var child := AllocPcb();
      if child.None? {
        SaveState(c, saved.(a0 := -1));
        cpu := Load(saved.(a0 := -1));
        return;
      }
      var p := child.value;
      label granted:
      pcb[p] := pcb[p].(regs := e.newState, support := saved.a3, prio := saved.a2);
      assert pcb[..] == old@granted(pcb[..])[p := pcb[p]];
      assert pcb[..] == old(pcb[..])[p := Pcb(old(nextPid), None, [], None, saved.a3, 0, saved.a2, e.newState)];
      var ok := AddActive(p);
      if !ok {
        cpu := Panic;
        return;
      }
      InsertChild(c, p);
      processCount := processCount + 1;
      SaveState(c, saved.(a0 := pcb[p].pid));
      assert St().pcb == WithChild(old(St()), e, saved).pcb;
      assert St() == WithChild(old(St()), e, saved);
      ReadyBoth(c, p, e.clk.t3);
    }

    /** Parent and child both become ready, and the scheduler chooses. */
    method ReadyBoth(c: Id, p: Id, now: int)
      requires Valid()
      modifies this
      ensures Valid() && St() == Scheduler(MakeReady(MakeReady(old(St()), c), p).(current := None), now)
    {
      hide Scheduler, MakeReady;
      InsertReady(c);
      InsertReady(p);
      current := None;
      Schedule(now);
    }

    method DoPasseren(e: Event, saved: Regs)
      requires Valid() && current.Some?
      modifies this, pcb
      ensures Valid() && St() == Passeren(old(St()), e, saved)
    {
      hide Block, ChargeTime, SetRegs;
      var c := current.value;
      UpdateCPUTime(e.clk.t1);
      SaveState(c, saved);
      var v := WordAt(words, saved.a1) - 1;
      words := words[saved.a1 := v];
      if v < 0 {
        BlockCurrentProcess(Word(saved.a1), e.clk);
      } else {
        cpu := Load(saved);
      }
    }

    method DoVerhogen(e: Event, saved: Regs)
      requires Valid() && current.Some?
      modifies this, pcb
      ensures Valid() && St() == Verhogen(old(St()), e, saved)
    {
      hide WakeHead, ChargeTime, SetRegs;
      var c := current.value;
      UpdateCPUTime(e.clk.t1);
      SaveState(c, saved);
      var v := WordAt(words, saved.a1) + 1;
      words := words[saved.a1 := v];
      if v <= 0 && Queue(asl, Word(saved.a1)) != [] {
        Wake(Word(saved.a1), None, false);
      }
      cpu := Load(saved);
    }

    method DoDeviceIo(e: Event, saved: Regs)
      requires Valid() && current.Some? && InDeviceArea(saved.a1)
      modifies this, pcb, devSems
      ensures Valid() && St() == DoIo(old(St()), e, saved)
    {
      hide Block, ChargeTime, SetRegs, SemOfCommand;
      SemOfCommandRange(saved.a1);
      var c := current.value;
      var i := SemOfCommand(saved.a1);
      UpdateCPUTime(e.clk.t1);
      SaveState(c, saved);
      label ready:
      devSems[i] := devSems[i] - 1;
      assert devSems[..] == old@ready(devSems[..])[i := devSems[i]];
      BlockCurrentProcess(Dev(i), e.clk);
    }

    method WaitForClock(e: Event, saved: Regs)
      requires Valid() && current.Some?
      modifies this, pcb, devSems
      ensures Valid() && St() == ClockWait(old(St()), e, saved)
    {
      hide Block, ChargeTime, SetRegs;
      var c := current.value;
      UpdateCPUTime(e.clk.t1);
      SaveState(c, saved);
      label ready:
      devSems[PSEUDOCLK_SEM] := devSems[PSEUDOCLK_SEM] - 1;
      assert devSems[..] == old@ready(devSems[..])[PSEUDOCLK_SEM := devSems[PSEUDOCLK_SEM]];
      softBlock := softBlock + 1;
      BlockCurrentProcess(Dev(PSEUDOCLK_SEM), e.clk);
    }

    method DoYield(e: Event, saved: Regs)
      requires Valid() && current.Some?
      modifies this, pcb
      ensures Valid() && St() == Yield(old(St()), e, saved)
    {
      hide Scheduler, ChargeTime, SetRegs;
      var c := current.value;
      UpdateCPUTime(e.clk.t1);
      SaveState(c, saved);
      yielded := Some(c);
      current := None;
      Schedule(e.clk.t3);
    }

    method PassUp(kind: int, e: Event, saved: Regs)
      requires Valid() && Inv(St()) && current.Some? && yielded.None?
      modifies this, pcb, active
      ensures Valid() && St() == PassUpOrDie(old(St()), kind, e, saved)
    {
      hide Placement, Tree, Counts, Sems, Scheduler, TerminateTree, Shrunk, Veil;
      var c := current.value;
      if pcb[c].support != 0 {
        cpu := Handler(pcb[c].support, kind, saved);
        return;
      }
      UpdateCPUTime(e.clk.t1);
      ghost var s1 := St();
      SameCoreInv(old(St()), s1);
      CurrentLive(s1);
      LivePid(s1, c);
      VeilNone(s1.pcb);
      TerminateProcess(c, s1, {}, {});
      VeilNone(TerminateTree(s1, c).pcb);
      current := None;
      Schedule(e.clk.t3);
    }

    method DoTerminate(e: Event, saved: Regs)
      requires Valid() && Inv(St()) && current.Some? && yielded.None?
      modifies this, pcb, active
      ensures Valid() && St() == Terminate(old(St()), e, saved)
    {
      hide Placement, Tree, Counts, Sems, Scheduler, TerminateTree, Shrunk, Veil, FindFrom, SetRegs;
      UpdateCPUTime(e.clk.t1);
      ghost var s1 := St();
      SameCoreInv(old(St()), s1);
      var t := current;
      if saved.a1 != 0 {
        t := FindProcessByPid(saved.a1);
      }
      if t.None? {
        cpu := Load(saved);
        return;
      }
      CurrentLive(s1);
      FindLive(s1, saved.a1, 0);
      LivePid(s1, t.value);
      VeilNone(s1.pcb);
      TerminateProcess(t.value, s1, {}, {});
      VeilNone(TerminateTree(s1, t.value).pcb);
      if current.None? {
        Schedule(e.clk.t3);
      } else {
        SaveState(current.value, saved);
        cpu := Load(saved);
      }
    }

    /** `syscallHandler`. */
    method Syscall(e: Event, saved: Regs)
      requires Valid() && Inv(St()) && current.Some? && yielded.None?
      requires saved.a0 == DOIO && !saved.user ==> InDeviceArea(saved.a1)
      modifies this, pcb, active, devSems
      ensures Valid() && St() == SyscallHandler(old(St()), e, saved)
    {
      hide Inv, PassUpOrDie, Create, Terminate, Passeren, Verhogen, DoIo, ClockWait, Yield, ChargeTime;
      var c := current.value;
      if saved.user && saved.a0 < 0 {
        PassUp(GENERALEXCEPT, e, saved.(cause := PRIVINSTR));
      } else if saved.a0 >= 1 {
        PassUp(GENERALEXCEPT, e, saved);
      } else if saved.a0 == CREATEPROCESS {
        RoomIfFree(St());
        CreateProcess(e, saved);
      } else if saved.a0 == TERMPROCESS {
        DoTerminate(e, saved);
      } else if saved.a0 == PASSEREN {
        DoPasseren(e, saved);
      } else if saved.a0 == VERHOGEN {
        DoVerhogen(e, saved);
      } else if saved.a0 == DOIO {
        DoDeviceIo(e, saved);
      } else if saved.a0 == GETTIME {
        UpdateCPUTime(e.clk.t1);
        cpu := Load(saved.(a0 := pcb[c].time));
      } else if saved.a0 == CLOCKWAIT {
        WaitForClock(e, saved);
      } else if saved.a0 == GETSUPPORTPTR {
        cpu := Load(saved.(a0 := pcb[c].support));
      } else if saved.a0 == GETPROCESSID {
        DoGetProcessId(saved);
      } else if saved.a0 == YIELD {
        DoYield(e, saved);
      } else {
        PassUp(GENERALEXCEPT, e, saved);
      }
    }

    method DoGetProcessId(saved: Regs)
      requires Valid() && current.Some?
      modifies this`cpu
      ensures Valid() && St() == GetProcessId(old(St()), saved)
    {
      var p := pcb[current.value];
      var id := 0;
      if saved.a1 == 0 {
        id := p.pid;
      } else if p.parent.Some? {
        id := pcb[p.parent.value].pid;
      }
      cpu := Load(saved.(a0 := id));
    }

    /** `exceptionHandler`: the kernel makes exactly the step of the model, so every theorem
        about runs of the model is one about runs of the kernel. */
    method HandleException(e: Event)
      requires Valid() && Inv(St()) && Enabled(St(), e)
      modifies this, pcb, active, devSems
      ensures Valid() && St() == Step(old(St()), e) && Inv(St()) && yielded.None?
    {
      hide Placement, Tree, Counts, Sems, InterruptHandler, SyscallHandler, PassUpOrDie;
      StepInv(St(), e);
      UpdateCPUTime(e.clk.t0);
      SameCoreInv(old(St()), St());
      if e.interrupt {
        HandleInterrupt(e);
      } else if IsSyscall(e.saved.cause) {
        Syscall(e, e.saved.(pc := e.saved.pc + WORDLEN));
      } else if IsMemoryTrap(e.saved.cause) {
        PassUp(PGFAULTEXCEPT, e, e.saved);
      } else {
        PassUp(GENERALEXCEPT, e, e.saved);
      }
    }

    // -------------------------------------------------------------- boot

    /** `main`: empty tables, the process of `test` as the only one, and the scheduler. */
    constructor (memory: map<int, int>, tod: int, now: int, regs: Regs)
      requires forall a :: a in memory ==> memory[a] >= 0
      requires tod <= now
      ensures Valid() && fresh(pcb) && fresh(devSems) && fresh(active)
      ensures St() == Boot(memory, tod, now, regs) && Inv(St()) && current == Some(0)
    {
      pcb := new Pcb[MAXPROC](_ => NO_PCB);
      devSems := new int[TOT_SEMS];
      active := new Option<Id>[MAXPROC];
      free := Ids(MAXPROC);
      nextPid := 1;
      asl := map[];
      ready := [];
      current := None;
      yielded := None;
      processCount := 0;
      softBlock := 0;
      words := memory;
      startTOD := tod;
      cpu := Panic;
      ledger := [];
      new;
      hide Inv, Scheduler, Settled, TimeInv, Sorted, Ids, BootState;
      ClearTables();
      StartTest(regs);
      BootInv(memory, tod, now, regs);
      Schedule(now);
    }

    method ClearTables()
      requires Valid()
      modifies devSems, active
      ensures devSems[..] == seq(TOT_SEMS, _ => 0) && active[..] == seq(MAXPROC, _ => None)
    {
      for i := 0 to TOT_SEMS
        invariant forall j :: 0 <= j < i ==> devSems[j] == 0
        modifies devSems
      {
        devSems[i] := 0;
      }
      for i := 0 to MAXPROC
        invariant forall j :: 0 <= j < i ==> active[j] == None
        modifies active
      {
        active[i] := None;
      }
    }

    /** The first process: allocated, entered in slot 0, made ready. */
    method StartTest(regs: Regs)
      requires Valid() && pcb[..] == seq(MAXPROC, _ => NO_PCB) && active[..] == seq(MAXPROC, _ => None)
      requires devSems[..] == seq(TOT_SEMS, _ => 0)
      requires St() == State(pcb[..], Ids(MAXPROC), 1, map[], [], None, None, 0, 0, devSems[..], words, active[..],
                             startTOD, Panic, [])
      modifies this, pcb, active
      ensures Valid() && St() == BootState(old(words), old(startTOD), regs)
    {
      hide Ids;
      BootFree(0);
      assert Ids(MAXPROC)[0] == 0;
      var test := AllocPcb();
      label granted:
      pcb[0] := pcb[0].(regs := regs, prio := PROCESS_PRIO_LOW);
      assert pcb[..] == old@granted(pcb[..])[0 := pcb[0]];
      assert pcb[..] == BootState(words, startTOD, regs).pcb;
      active[0] := test;
      assert active[..] == old@granted(active[..])[0 := test];
      assert active[..] == BootState(words, startTOD, regs).active;
      InsertReady(0);
      processCount := 1;
    }
  }

  lemma LivePid(s: State, p: Id)
    requires Inv(s) && Live(s, p)
    ensures s.pcb[p].pid >= 1
  {
  }

  lemma RoomIfFree(s: State)
    requires Inv(s) && s.current.Some?
    ensures s.free != [] ==> s.free[0] != s.current.value
  {
    if s.free != [] { RoomToCreate(s); }
  }
}
