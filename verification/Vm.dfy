/** The Support Level's virtual memory: swap pool, page tables, TLB and flash devices, and every
    U-proc as a program counter through the pager and through termination. Each step is one
    action that no interrupt can split. */
module Vm {
  import opened Queues

  const SWAP_POOL_SIZE: nat := 16
  const SWAP_FRAME_FREE := -1
  const PAGEWORDS: nat := 1024
  const SHELL: Asid := 1

  type Asid = n: Id | 1 <= n <= 8 witness 1
  type Page = n: nat | n < 32
  type Frame = n: nat | n < SWAP_POOL_SIZE
  type Content = c: seq<int> | |c| == PAGEWORDS witness seq(PAGEWORDS, _ => 0)

  function Blank(): Content {
    seq(PAGEWORDS, _ => 0)
  }

  /** A page of a U-proc: also the name of its page table entry and of its flash block. */
  datatype Vpage = Vpage(asid: Asid, page: Page)

  datatype Pte = Pte(valid: bool, frame: Frame)

  /** An entry of the swap pool table: `sw_asid`, `sw_pageNo` and what `sw_pte` points at. */
  datatype Slot = Slot(asid: int, page: Page, pte: Vpage)

  datatype Op = Read | Write

  /** Within `flashOperation`: before the P, before the command, while the device works (and has
      or has not moved the block), and before the V with the outcome. */
  datatype Stage = Lock | Issue | Busy(moved: bool) | Unlock(ready: bool)

  /** Where a U-proc is. `PagerP`, `PagerQ`: before and inside the P on the swap pool; the pages
      are `None` for a fault outside the logical address space. `Evict`: a frame was chosen that
      is in use. `Claim`, `Map`: before the swap pool and before the page table are updated.
      `Leave`, `Abort`: before the final V. `Signal`: before the V on what waits for the end. */
  datatype Pc =
    | Idle
    | User
    | PagerP(page: Option<Page>)
    | PagerQ(page: Option<Page>)
    | PagerIn(page: Option<Page>)
    | Evict(p: Page, i: Frame)
    | Flash(op: Op, p: Page, i: Frame, dev: Asid, block: Page, stage: Stage)
    | FlashQ(dev: Asid)
    | Claim(p: Page, i: Frame)
    | Map(p: Page, i: Frame)
    | Leave
    | Abort
    | TermP
    | TermQ
    | TermLoop(j: nat)
    | TermV
    | Signal
    | Gone
    | ExecP(child: Asid)
    | ExecQ(child: Asid)

  datatype Instantiator = Starting | Waiting | Finished

  type Frames = t: seq<Content> | |t| == SWAP_POOL_SIZE witness seq(SWAP_POOL_SIZE, _ => Blank())
  type Pool = t: seq<Slot> | |t| == SWAP_POOL_SIZE witness seq(SWAP_POOL_SIZE, _ => Slot(-1, 0, Vpage(1, 0)))

  /** `choices` counts the frames chosen since boot and `owner` is the last to pass the P on the
      swap pool without a V since: history, which no step reads. */
  datatype State = State(
    frames: Frames,
    flash: map<Vpage, Content>,
    ptes: map<Vpage, Pte>,
    tlb: map<Vpage, Pte>,
    swap: Pool,
    fifoNext: int,
    swapPoolSem: int,
    swapQueue: seq<Asid>,
    flashMutex: map<Asid, int>,
    shellSem: int,
    shellQueue: seq<Asid>,
    masterSem: int,
    pcs: map<Asid, Pc>,
    inst: Instantiator,
    choices: nat,
    owner: Option<Asid>)

  const NOT_PRESENT := Pte(false, 0)

  function PcOf(s: State, a: Asid): Pc {
    if a in s.pcs then s.pcs[a] else Idle
  }

  function PteOf(s: State, v: Vpage): Pte {
    if v in s.ptes then s.ptes[v] else NOT_PRESENT
  }

  function BlockOf(s: State, v: Vpage): Content {
    if v in s.flash then s.flash[v] else Blank()
  }

  function MutexOf(s: State, d: Asid): int {
    if d in s.flashMutex then s.flashMutex[d] else 1
  }

  function Goto(s: State, a: Asid, pc: Pc): State {
    s.(pcs := s.pcs[a := pc])
  }

  // ---------------------------------------------------------------- semaphores

  /** P on `swapPoolSem`: pass to `inside`, or join the queue at `waiting`. */
  function Enter(s: State, a: Asid, waiting: Pc, inside: Pc): State {
    var s1 := s.(swapPoolSem := s.swapPoolSem - 1);
    if s1.swapPoolSem < 0 then Goto(s1, a, waiting).(swapQueue := s.swapQueue + [a])
    else Goto(s1, a, inside).(owner := Some(a))
  }

  /** Where a process finds itself when its P succeeds. */
  function Admitted(pc: Pc): Pc {
    match pc
    case PagerQ(page) => PagerIn(page)
    case TermQ => TermLoop(0)
    case _ => pc
  }

  /** V on `swapPoolSem` by `a`, which goes on to `next`. */
  function Exit(s: State, a: Asid, next: Pc): State {
    var s1 := Goto(s, a, next).(swapPoolSem := s.swapPoolSem + 1, owner := None);
    if s1.swapPoolSem <= 0 && s.swapQueue != [] then
      var h := s.swapQueue[0];
      Goto(s1, h, Admitted(PcOf(s1, h))).(swapQueue := s.swapQueue[1..], owner := Some(h))
    else s1
  }

  /** V on `masterSemaphore` by the shell, on `shellSemaphore` by every other U-proc. */
  function SignalEnd(s: State, a: Asid): State {
    var s1 := Goto(s, a, Gone);
    if a == SHELL then
      s1.(masterSem := s.masterSem + 1,
          inst := if s.masterSem + 1 <= 0 && s.inst == Waiting then Finished else s.inst)
    else
      var s2 := s1.(shellSem := s.shellSem + 1);
      if s2.shellSem <= 0 && s.shellQueue != [] then
        Goto(s2, s.shellQueue[0], User).(shellQueue := s.shellQueue[1..])
      else s2
  }

  // ---------------------------------------------------------------- memory management

  /** `markPageNotValid`: page table and TLB change together. */
  function MarkNotValid(s: State, v: Vpage): State {
    s.(ptes := s.ptes[v := PteOf(s, v).(valid := false)], tlb := map[])
  }

  /** `markPagePresent`: the new entry is also written to the emptied TLB. */
  function MarkPresent(s: State, v: Vpage, i: Frame): State {
    s.(ptes := s.ptes[v := Pte(true, i)], tlb := map[v := Pte(true, i)])
  }

  /** `initUprocPageTable` and the rest of `launchUproc`. */
  function LaunchUproc(s: State, a: Asid): State {
    Goto(s.(ptes := map v | v in s.ptes && v.asid != a :: s.ptes[v]), a, User)
  }

  /** The frame choice and what it leads to. */
  function Choose(s: State, a: Asid, p: Page): State {
    var i: Frame := s.fifoNext % SWAP_POOL_SIZE;
    Goto(s, a, if s.swap[i].asid != SWAP_FRAME_FREE then Evict(p, i) else Flash(Read, p, i, a, p, Lock))
      .(fifoNext := (s.fifoNext + 1) % SWAP_POOL_SIZE, choices := s.choices + 1)
  }

  /** Where the next step of `flashOperation` that is the processor's leads: a P that finds the
      mutex taken would wait; a write is followed by the read of the missing page. */
  function FlashNext(s: State, a: Asid, pc: Pc): Pc
    requires pc.Flash? && !pc.stage.Busy?
  {
    match pc.stage
    case Lock => if MutexOf(s, pc.dev) - 1 < 0 then FlashQ(pc.dev) else pc.(stage := Issue)
    case Issue => pc.(stage := Busy(false))
    case Unlock(ready) =>
      if !ready then Abort
      else if pc.op == Write then Flash(Read, pc.p, pc.i, a, pc.p, Lock)
      else Claim(pc.p, pc.i)
  }

  function FlashStep(s: State, a: Asid, pc: Pc): State
    requires pc.Flash? && !pc.stage.Busy?
  {
    var change := if pc.stage == Lock then -1 else if pc.stage.Unlock? then 1 else 0;
    Goto(s, a, FlashNext(s, a, pc)).(flashMutex := s.flashMutex[pc.dev := MutexOf(s, pc.dev) + change])
  }

  /** The device moves the block, at some time while it is busy. */
  function Transfer(s: State, a: Asid, pc: Pc): State
    requires pc.Flash?
  {
    var v := Vpage(pc.dev, pc.block);
    var s1 := Goto(s, a, pc.(stage := Busy(true)));
    if pc.op == Write then s1.(flash := s.flash[v := s.frames[pc.i]])
    else s1.(frames := s.frames[pc.i := BlockOf(s, v)])
  }

  // ---------------------------------------------------------------- the machine

  datatype Event =
    | Load(a: Asid, page: Page, off: nat)
    | Store(a: Asid, page: Page, off: nat, w: int)
    | Refill(a: Asid, page: Page)
    | Fault(a: Asid, page: Page)
    | BadFault(a: Asid)
    | Trap(a: Asid)
    | Execute(a: Asid, child: Asid)
    | Launch(child: Asid)
    | Drop(v: Vpage)
    | Go(a: Asid)
    | Move(a: Asid)
    | Done(a: Asid, ready: bool)
    | Await

  /** Which pcs have a next step of their own. */
  predicate CanGo(pc: Pc) {
    match pc
    case Idle => false
    case User => false
    case PagerQ(_) => false
    case TermQ => false
    case FlashQ(_) => false
    case Flash(_, _, _, _, _, stage) => !stage.Busy?
    case Gone => false
    case ExecQ(_) => false
    case _ => true
  }

  /** The processor serves `a`. */
  function GoStep(s: State, a: Asid): State
    requires CanGo(PcOf(s, a))
  {
    var pc := PcOf(s, a);
    match pc
    case PagerP(page) => Enter(s, a, PagerQ(page), PagerIn(page))
    case PagerIn(page) => if page.None? then Goto(s, a, Abort) else Choose(s, a, page.value)
    case Evict(p, i) =>
      var d := s.swap[i];
      var dev: Asid := if 1 <= d.asid <= 8 then d.asid else a;
      Goto(MarkNotValid(s, d.pte), a, Flash(Write, p, i, dev, d.page, Lock))
    case Flash(_, _, _, _, _, _) => FlashStep(s, a, pc)
    case Claim(p, i) => Goto(s.(swap := s.swap[i := Slot(a, p, Vpage(a, p))]), a, Map(p, i))
    case Map(p, i) => Goto(MarkPresent(s, Vpage(a, p), i), a, Leave)
    case Leave => Exit(s, a, User)
    case Abort => Exit(s, a, TermP)
    case TermP => Enter(s, a, TermQ, TermLoop(0))
    case TermLoop(j) =>
      if j >= SWAP_POOL_SIZE then Goto(s, a, TermV)
      else Goto(s.(swap := if s.swap[j].asid == a then s.swap[j := s.swap[j].(asid := SWAP_FRAME_FREE)] else s.swap),
                a, TermLoop(j + 1))
    case TermV => Exit(s, a, Signal)
    case Signal => SignalEnd(s, a)
    case ExecP(child) =>
      var s1 := s.(shellSem := s.shellSem - 1);
      if s1.shellSem < 0 then Goto(s1, a, ExecQ(child)).(shellQueue := s.shellQueue + [a]) else Goto(s1, a, User)
  }

  /** What can happen. A U-proc runs only on valid TLB entries; a page outside the TLB is
      refilled, one that is there and invalid faults. An ASID is launched when no U-proc has it
      and the TLB holds no valid entry of it. READY means that the block was moved. */
  predicate Enabled(s: State, e: Event) {
    match e
    case Load(a, page, off) =>
      PcOf(s, a) == User && Vpage(a, page) in s.tlb && s.tlb[Vpage(a, page)].valid && off < PAGEWORDS
    case Store(a, page, off, _) =>
      PcOf(s, a) == User && Vpage(a, page) in s.tlb && s.tlb[Vpage(a, page)].valid && off < PAGEWORDS
    case Refill(a, page) => PcOf(s, a) == User && Vpage(a, page) !in s.tlb
    case Fault(a, page) => PcOf(s, a) == User && Vpage(a, page) in s.tlb && !s.tlb[Vpage(a, page)].valid
    case BadFault(a) => PcOf(s, a) == User
    case Trap(a) => PcOf(s, a) == User
    case Execute(a, child) => PcOf(s, a) == User && a != child && Launchable(s, child)
    case Launch(child) => Launchable(s, child)
    case Drop(v) => v in s.tlb
    case Go(a) => CanGo(PcOf(s, a))
    case Move(a) => PcOf(s, a).Flash? && PcOf(s, a).stage == Busy(false)
    case Done(a, ready) => PcOf(s, a).Flash? && PcOf(s, a).stage.Busy? && (ready ==> PcOf(s, a).stage.moved)
    case Await => s.inst == Starting
  }

  /** No U-proc has the ASID. */
  predicate Dead(pc: Pc) {
    pc.Idle? || pc.Gone?
  }

  /** No earlier U-proc with the ASID left a valid entry behind. */
  predicate CleanTlb(s: State, child: Asid) {
    forall v :: v in s.tlb && v.asid == child ==> !s.tlb[v].valid
  }

  predicate Launchable(s: State, child: Asid) {
    Dead(PcOf(s, child)) && CleanTlb(s, child)
  }

  function Step(s: State, e: Event): State
    requires Enabled(s, e)
  {
    match e
    case Load(_, _, _) => s
    case Store(a, page, off, w) =>
      var i := s.tlb[Vpage(a, page)].frame;
      s.(frames := s.frames[i := s.frames[i][off := w]])
    case Refill(a, page) => s.(tlb := s.tlb[Vpage(a, page) := PteOf(s, Vpage(a, page))])
    case Fault(a, page) => Goto(s, a, PagerP(Some(page)))
    case BadFault(a) => Goto(s, a, PagerP(None))
    case Trap(a) => Goto(s, a, TermP)
    case Execute(a, child) => Goto(LaunchUproc(s, child), a, ExecP(child))
    case Launch(child) => LaunchUproc(s, child)
    case Drop(v) => s.(tlb := s.tlb - {v})
    case Go(a) => GoStep(s, a)
    case Move(a) => Transfer(s, a, PcOf(s, a))
    case Done(a, ready) => Goto(s, a, PcOf(s, a).(stage := Unlock(ready)))
    case Await =>
      s.(masterSem := s.masterSem - 1, inst := if s.masterSem - 1 < 0 then Waiting else Finished)
  }

  /** What a load returns. */
  function Loaded(s: State, e: Event): int
    requires e.Load? && Enabled(s, e)
  {
    s.frames[s.tlb[Vpage(e.a, e.page)].frame][e.off]
  }

  /** `test` up to its first P: empty swap pool, the shell launched. */
  function Start(frames: Frames, flash: map<Vpage, Content>): State {
    State(frames, flash, map[], map[], seq(SWAP_POOL_SIZE, _ => Slot(SWAP_FRAME_FREE, 0, Vpage(1, 0))), 0, 1, [],
          map[], 0, [], 0, map[SHELL := User], Starting, 0, None)
  }
}
