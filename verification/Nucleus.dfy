/** The Nucleus as a value: its globals, and what each exception does to them. Every handler
    ends by loading a processor state, passing up, waiting or stopping, so one exception is
    one atomic step from one `State` to the next. */
module Nucleus {
  import opened Queues

  // ---------------------------------------------------------------- data

  const TOT_SEMS: nat := 49
  const PSEUDOCLK_SEM: nat := 48
  const START_DEVREG := 0x10000054
  const PGFAULTEXCEPT := 0
  const GENERALEXCEPT := 1
  const OKCHARTRANS := 5
  const CHARRECV := 5
  const WORDLEN := 4

  /** A processor state. `cause` is the exception code, `user` says that the previous privilege
      bits are zero, `mie` is the interrupt enable bit, `rest` every register not named here. */
  datatype Regs = Regs(a0: int, a1: int, a2: int, a3: int, pc: int, cause: int, user: bool, mie: bool, rest: int)

  /** A semaphore address: a word outside the kernel, or an element of `devSems`. */
  datatype Sem = Word(addr: int) | Dev(index: int)

  /** `support` is the address of the support structure, 0 for none. */
  datatype Pcb = Pcb(pid: int, parent: Option<Id>, children: seq<Id>, semAdd: Option<Sem>,
                     support: int, time: int, prio: int, regs: Regs)

  const NO_REGS := Regs(0, 0, 0, 0, 0, 0, false, false, 0)
  const NO_PCB := Pcb(0, None, [], None, 0, 0, 0, NO_REGS)

  type PcbTable = t: seq<Pcb> | |t| == MAXPROC witness seq(MAXPROC, _ => NO_PCB)
  type SemArray = t: seq<int> | |t| == TOT_SEMS witness seq(TOT_SEMS, _ => 0)
  type ActiveTable = t: seq<Option<Id>> | |t| == MAXPROC witness seq(MAXPROC, _ => None)

  /** What the processor does after a handler. */
  datatype Cpu =
    | Load(regs: Regs)                                // LDST
    | Handler(support: int, kind: int, saved: Regs)   // LDCXT after passing up
    | Wait
    | Halt
    | Panic

  /** History: process `pid` was charged the processor time from `from` to `until`. */
  datatype Charge = Charge(pid: int, from: int, until: int)

  datatype State = State(
    pcb: PcbTable,
    free: seq<Id>,
    nextPid: int,
    asl: map<Sem, seq<Id>>,
    ready: seq<Id>,
    current: Option<Id>,
    yielded: Option<Id>,
    processCount: int,
    softBlock: int,
    devSems: SemArray,
    words: map<int, int>,
    active: ActiveTable,
    startTOD: int,
    cpu: Cpu,
    ledger: seq<Charge>)

  /** The successive clock readings of one handler. */
  datatype Clock = Clock(t0: int, t1: int, t2: int, t3: int)

  /** One exception: the top bit of the cause register, the saved state, the state
      CREATEPROCESS points at, and for an interrupt the pending devices of the line and the
      first and third register word of the device served. */
  datatype Event = Event(interrupt: bool, saved: Regs, newState: Regs,
                         pending: set<int>, status: int, txStatus: int, clk: Clock)

  function Prios(t: PcbTable): (r: seq<int>)
    ensures |r| == MAXPROC && forall p: Id :: r[p] == t[p].prio
  {
    seq(MAXPROC, i requires 0 <= i < MAXPROC => t[i].prio)
  }

  function Queue(asl: map<Sem, seq<Id>>, k: Sem): seq<Id> {
    if k in asl then asl[k] else []
  }

  function WordAt(words: map<int, int>, a: int): int {
    if a in words then words[a] else 0
  }

  // ---------------------------------------------------------------- clock and queues

  /** `updateCPUTime`, and the charge at the head of `blockCurrentProcess`. */
  function ChargeTime(s: State, now: int): State {
    if s.current.None? then s else
      var c := s.current.value;
      s.(pcb := s.pcb[c := s.pcb[c].(time := s.pcb[c].time + (now - s.startTOD))],
         startTOD := now,
         ledger := s.ledger + [Charge(s.pcb[c].pid, s.startTOD, now)])
  }

  function SetRegs(s: State, p: Id, r: Regs): State {
    s.(pcb := s.pcb[p := s.pcb[p].(regs := r)])
  }

  function MakeReady(s: State, p: Id): State {
    s.(ready := InsertByPrio(s.ready, p, Prios(s.pcb)))
  }

  // ---------------------------------------------------------------- scheduler

  function Dispatch(s: State, p: Id, now: int): State {
    s.(current := Some(p), startTOD := now, cpu := Load(s.pcb[p].regs))
  }

  function Pick(s: State, now: int): State {
    if s.ready != [] then Dispatch(s.(ready := s.ready[1..]), s.ready[0], now)
    else if s.processCount == 0 then s.(current := None, cpu := Halt)
    else if s.softBlock > 0 then s.(current := None, cpu := Wait)
    else s.(current := None, cpu := Panic)
  }

  function Scheduler(s: State, now: int): State {
    if s.yielded.None? then Pick(s, now) else
      var y := s.yielded.value;
      var s1 := s.(yielded := None);
      if s.ready != [] && s.pcb[s.ready[0]].prio >= s.pcb[y].prio
      then Pick(MakeReady(s1, y), now)
      else Dispatch(s1, y, now)
  }

  // ---------------------------------------------------------------- semaphore queues

  /** `insertBlocked`: the queue of `k` grows at its tail; a fresh descriptor is taken when `k`
      has none, and the call fails when none is left. */
  function InsertBlocked(s: State, k: Sem, p: Id): State {
    if k in s.asl then s.(asl := s.asl[k := s.asl[k] + [p]])
    else if |s.asl| >= MAXPROC then s
    else s.(asl := s.asl[k := [p]])
  }

  /** The ASL after `p` left the queue of `k`: an emptied descriptor is released. */
  function DropBlocked(asl: map<Sem, seq<Id>>, k: Sem, p: Id): map<Sem, seq<Id>> {
    var q := RemoveFirst(Queue(asl, k), p);
    if q == [] then asl - {k} else asl[k := q]
  }

  /** `removeBlocked` for a non-empty queue: its head leaves. */
  function RemoveBlocked(s: State, k: Sem): State
    requires Queue(s.asl, k) != []
  {
    var p := Queue(s.asl, k)[0];
    s.(asl := DropBlocked(s.asl, k, p), pcb := s.pcb[p := s.pcb[p].(semAdd := None)])
  }

  /** A wake-up: the head of `k` leaves its queue, finds `result` in `a0` if there is one, and
      joins the ready queue by priority or, for the terminal transmitter, at its tail. */
  function WakeHead(s: State, k: Sem, result: Option<int>, atTail: bool): State
    requires Queue(s.asl, k) != []
  {
    var p := Queue(s.asl, k)[0];
    var s1 := RemoveBlocked(s, k);
    var s2 := if result.None? then s1 else SetRegs(s1, p, s1.pcb[p].regs.(a0 := result.value));
    if atTail then s2.(ready := s2.ready + [p]) else MakeReady(s2, p)
  }

  /** Neither ordinary words nor the pseudo-clock count as device semaphores. */
  predicate IsDevice(k: Sem) {
    k.Dev? && 0 <= k.index < TOT_SEMS && k.index != PSEUDOCLK_SEM
  }

  /** The body of `blockCurrentProcess`, up to the call of the scheduler. */
  function Park(s: State, k: Sem, now: int): State
    requires s.current.Some?
  {
    var c := s.current.value;
    var s1 := ChargeTime(s, now);
    var s2 := s1.(pcb := s1.pcb[c := s1.pcb[c].(semAdd := Some(k))],
                  softBlock := s1.softBlock + if IsDevice(k) then 1 else 0);
    InsertBlocked(s2, k, c).(current := None)
  }

  /** `blockCurrentProcess`; without a current process it is a kernel panic. */
  function Block(s: State, k: Sem, clk: Clock): State {
    if s.current.None? then s.(cpu := Panic) else Scheduler(Park(s, k, clk.t2), clk.t3)
  }

  // ---------------------------------------------------------------- active table

  function FreeSlot(t: seq<Option<Id>>): (i: nat)
    ensures i <= |t| && forall j :: 0 <= j < i ==> t[j].Some?
    ensures i < |t| ==> t[i].None?
  {
    if t == [] || t[0].None? then 0 else
      var i := FreeSlot(t[1..]);
      assert forall j :: 0 < j < 1 + i ==> t[j] == t[1..][j - 1];
      1 + i
  }

  lemma FreeSlotIs(t: seq<Option<Id>>, i: nat)
    requires i <= |t| && forall j :: 0 <= j < i ==> t[j].Some?
    requires i < |t| ==> t[i].None?
    ensures i == FreeSlot(t)
  {
    var k := FreeSlot(t);
    assert !(k < i) && !(i < k);
  }

  lemma SlotOfIs(t: seq<Option<Id>>, p: Id, i: nat)
    requires i <= |t| && forall j :: 0 <= j < i ==> t[j] != Some(p)
    requires i < |t| ==> t[i] == Some(p)
    ensures i == SlotOf(t, p)
  {
    var k := SlotOf(t, p);
    assert !(k < i) && !(i < k);
  }

  function SlotOf(t: seq<Option<Id>>, p: Id): (i: nat)
    ensures i <= |t| && forall j :: 0 <= j < i ==> t[j] != Some(p)
    ensures i < |t| ==> t[i] == Some(p)
  {
    if t == [] || t[0] == Some(p) then 0 else
      var i := SlotOf(t[1..], p);
      assert forall j :: 0 < j < 1 + i ==> t[j] == t[1..][j - 1];
      1 + i
  }

  function ActiveRemove(t: ActiveTable, p: Id): ActiveTable {
    var i := SlotOf(t, p);
    if i < MAXPROC then t[i := None] else t
  }

  /** `findProcessByPid` from slot `i` on. */
  function FindFrom(t: ActiveTable, pcb: PcbTable, pid: int, i: nat): (r: Option<Id>)
    requires i <= MAXPROC
    decreases MAXPROC - i
  {
    if i == MAXPROC then None
    else if t[i].Some? && pcb[t[i].value].pid == pid then t[i]
    else FindFrom(t, pcb, pid, i + 1)
  }

  // ---------------------------------------------------------------- termination of one process

  /** The parent's side of `outChild`. */
  function Unlink(pcb: PcbTable, p: Id): PcbTable {
    if pcb[p].parent.None? then pcb else
      var q := pcb[p].parent.value;
      pcb[q := pcb[q].(children := RemoveFirst(pcb[q].children, p))]
  }

  /** Leaving the semaphore queue: a soft-blocked process lowers the soft-block count and leaves
      the semaphore alone, any other undoes its P. */
  function Unblock(s: State, p: Id): State {
    if s.pcb[p].semAdd.None? then s else
      var k := s.pcb[p].semAdd.value;
      var s1 := s.(pcb := s.pcb[p := s.pcb[p].(semAdd := None)]);
      if p !in Queue(s.asl, k) then s1 else
        var s2 := s1.(asl := DropBlocked(s.asl, k, p));
        if k.Dev? then s2.(softBlock := s.softBlock - 1)
        else s2.(words := s.words[k.addr := WordAt(s.words, k.addr) + 1])
  }

  /** What `terminateProcess` does to a process whose children are gone. */
  function KillLeaf(s: State, p: Id): State {
    var t := Unlink(s.pcb, p);
    var s1 := s.(pcb := t[p := t[p].(pid := -1, parent := None)], active := ActiveRemove(s.active, p));
    var s2 := Unblock(s1, p);
    s2.(ready := RemoveFirst(s2.ready, p),
        current := if s2.current == Some(p) then None else s2.current,
        free := s2.free + [p],
        processCount := s2.processCount - 1)
  }

  // ---------------------------------------------------------------- interrupts

  /** The end of an operation of device semaphore `i`: the value is raised, the head of the
      queue, if it was not terminated meanwhile, wakes with the status. */
  function Deliver(s: State, i: nat, status: int, atTail: bool): State
    requires i < TOT_SEMS
  {
    if s.devSems[i] >= 0 then s else
      var s1 := s.(devSems := s.devSems[i := s.devSems[i] + 1]);
      if Queue(s1.asl, Dev(i)) == [] then s1 else
        WakeHead(s1, Dev(i), Some(status), atTail).(softBlock := s.softBlock - 1)
  }

  /** One turn of the pseudo-clock loop. */
  function WakeSleeper(s: State): State
    requires Queue(s.asl, Dev(PSEUDOCLK_SEM)) != []
  {
    WakeHead(s, Dev(PSEUDOCLK_SEM), Some(0), false).(softBlock := s.softBlock - 1)
  }

  function WakeSleepers(s: State): State
    decreases |Queue(s.asl, Dev(PSEUDOCLK_SEM))|
  {
    if Queue(s.asl, Dev(PSEUDOCLK_SEM)) == [] then s else WakeSleepers(WakeSleeper(s))
  }

  /** The least pending device of a line. */
  function LowestDevice(pending: set<int>, i: nat): (r: Option<nat>)
    requires i <= 8
    ensures r.Some? ==> i <= r.value < 8 && r.value in pending
    ensures forall j :: i <= j < 8 && j in pending ==> r.Some? && r.value <= j
    decreases 8 - i
  {
    if i == 8 then None else if i in pending then Some(i) else LowestDevice(pending, i + 1)
  }

  function DevSem(line: int, dev: int): int {
    (line - 3) * 8 + dev
  }

  /** A device interrupt on `line`; `status` and `txStatus` are words 0 and 2 of the device. */
  function DeviceInterrupt(s: State, line: int, e: Event): State
    requires 3 <= line <= 7
  {
    match LowestDevice(e.pending, 0)
    case None => s
    case Some(dev) =>
      if line == 7 then
        var s1 := if e.txStatus % 256 == OKCHARTRANS then Deliver(s, 32 + dev, e.txStatus, true) else s;
        if e.status % 256 == CHARRECV then Deliver(s1, 40 + dev, e.status, false) else s1
      else Deliver(s, DevSem(line, dev), e.status, false)
  }

  /** How every interrupt but the processor timer's ends. */
  function Resume(s: State, e: Event): State {
    if s.current.Some? then s.(cpu := Load(e.saved)) else Scheduler(s, e.clk.t3)
  }

  function StampInterrupt(s: State, now: int): State {
    if s.current.Some? then ChargeTime(s, now) else s.(startTOD := now)
  }

  /** The work of the handler between the time stamp and its last call. */
  function InterruptEffect(s: State, e: Event): State {
    if e.saved.cause == 7 then
      if s.current.None? then s else
        MakeReady(SetRegs(s, s.current.value, e.saved.(mie := true)), s.current.value).(current := None)
    else if e.saved.cause == 3 then
      var s1 := WakeSleepers(s);
      s1.(devSems := s1.devSems[PSEUDOCLK_SEM := 0])
    else if 17 <= e.saved.cause <= 21 then DeviceInterrupt(s, e.saved.cause - 14, e)
    else s
  }

  function InterruptHandler(s: State, e: Event): State {
    var s1 := InterruptEffect(StampInterrupt(s, e.clk.t1), e);
    if e.saved.cause == 7 then Scheduler(s1, e.clk.t3) else Resume(s1, e)
  }

  // ---------------------------------------------------------------- system calls without termination

  function Continue(s: State, regs: Regs): State {
    s.(cpu := Load(regs))
  }

  /** The new process, allocated, entered in the active table and made the caller's last child;
      the caller's result is its pid. */
  function WithChild(s: State, e: Event, saved: Regs): State
    requires s.current.Some? && s.free != [] && FreeSlot(s.active) < MAXPROC
  {
    var c := s.current.value;
    var p := s.free[0];
    var t := s.pcb[p := Pcb(s.nextPid, Some(c), [], None, saved.a3, 0, saved.a2, e.newState)];
    s.(free := s.free[1..], nextPid := s.nextPid + 1,
       active := s.active[FreeSlot(s.active) := Some(p)], processCount := s.processCount + 1,
       pcb := t[c := t[c].(children := t[c].children + [p], regs := saved.(a0 := s.nextPid))])
  }

  /** The state in which CREATEPROCESS calls the scheduler: parent and child are both ready. */
  function Spawn(s: State, e: Event, saved: Regs): State
    requires s.current.Some? && s.free != [] && FreeSlot(s.active) < MAXPROC
  {
    MakeReady(MakeReady(WithChild(s, e, saved), s.current.value), s.free[0]).(current := None)
  }

  /** CREATEPROCESS; `activeProcs_add` panics on a full table. */
  function Create(s: State, e: Event, saved: Regs): State
    requires s.current.Some?
  {
    var c := s.current.value;
    if s.free == [] then
      Continue(SetRegs(s, c, saved.(a0 := -1)), saved.(a0 := -1))
    else if FreeSlot(s.active) == MAXPROC then
      s.(cpu := Panic, free := s.free[1..], nextPid := s.nextPid + 1,
         pcb := s.pcb[s.free[0] := Pcb(s.nextPid, None, [], None, saved.a3, 0, saved.a2, e.newState)])
    else Scheduler(Spawn(s, e, saved), e.clk.t3)
  }

  function Passeren(s: State, e: Event, saved: Regs): State
    requires s.current.Some?
  {
    var c := s.current.value;
    var s1 := SetRegs(ChargeTime(s, e.clk.t1), c, saved);
    var v := WordAt(s1.words, saved.a1) - 1;
    var s2 := s1.(words := s1.words[saved.a1 := v]);
    if v < 0 then Block(s2, Word(saved.a1), e.clk) else Continue(s2, saved)
  }

  function Verhogen(s: State, e: Event, saved: Regs): State
    requires s.current.Some?
  {
    var c := s.current.value;
    var s1 := SetRegs(ChargeTime(s, e.clk.t1), c, saved);
    var v := WordAt(s1.words, saved.a1) + 1;
    var s2 := s1.(words := s1.words[saved.a1 := v]);
    var s3 := if v <= 0 && Queue(s2.asl, Word(saved.a1)) != []
              then WakeHead(s2, Word(saved.a1), None, false)
              else s2;
    Continue(s3, saved)
  }

  /** The semaphore DOIO computes from a command register address. */
  function SemOfCommand(addr: int): int {
    var offset := addr - START_DEVREG;
    var line := offset / 0x80 + 3;
    var dev := (offset % 0x80) / 0x10;
    var subword := (offset % 0x10) / WORDLEN;
    if line == 7 then (if subword == 3 then 32 + dev else 40 + dev) else DevSem(line, dev)
  }

  predicate InDeviceArea(addr: int) {
    START_DEVREG <= addr < START_DEVREG + 5 * 0x80
  }

  function DoIo(s: State, e: Event, saved: Regs): State
    requires InDeviceArea(saved.a1)
    requires s.current.Some?
  {
    var i := SemOfCommand(saved.a1);
    var s1 := SetRegs(ChargeTime(s, e.clk.t1), s.current.value, saved);
    Block(s1.(devSems := s1.devSems[i := s1.devSems[i] - 1]), Dev(i), e.clk)
  }

  function ClockWait(s: State, e: Event, saved: Regs): State
    requires s.current.Some?
  {
    var s1 := SetRegs(ChargeTime(s, e.clk.t1), s.current.value, saved);
    Block(s1.(devSems := s1.devSems[PSEUDOCLK_SEM := s1.devSems[PSEUDOCLK_SEM] - 1],
              softBlock := s1.softBlock + 1), Dev(PSEUDOCLK_SEM), e.clk)
  }

  function GetTime(s: State, e: Event, saved: Regs): State
    requires s.current.Some?
  {
    var s1 := ChargeTime(s, e.clk.t1);
    Continue(s1, saved.(a0 := s1.pcb[s.current.value].time))
  }

  function GetProcessId(s: State, saved: Regs): State
    requires s.current.Some?
  {
    var c := s.current.value;
    var id := if saved.a1 == 0 then s.pcb[c].pid
              else if s.pcb[c].parent.Some? then s.pcb[s.pcb[c].parent.value].pid else 0;
    Continue(s, saved.(a0 := id))
  }

  function Yield(s: State, e: Event, saved: Regs): State
    requires s.current.Some?
  {
    var c := s.current.value;
    var s1 := SetRegs(ChargeTime(s, e.clk.t1), c, saved);
    Scheduler(s1.(yielded := Some(c), current := None), e.clk.t3)
  }
}
