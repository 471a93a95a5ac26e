/** What every step of the virtual memory keeps, flash errors and all: mutual exclusion from the
    semaphore, no two valid pages in one frame, page tables and TLB that agree. */
module VmInvariant {
  import opened Queues
  import opened NucleusInvariant
  import opened Vm

  // ---------------------------------------------------------------- the invariant

  /** Between the P on the swap pool and the V. */
  predicate Inside(pc: Pc) {
    match pc
    case PagerIn(_) => true
    case Evict(_, _) => true
    case Flash(_, _, _, _, _, _) => true
    case FlashQ(_) => true
    case Claim(_, _) => true
    case Map(_, _) => true
    case Leave => true
    case Abort => true
    case TermLoop(_) => true
    case TermV => true
    case _ => false
  }

  predicate Queued(pc: Pc) {
    pc.PagerQ? || pc.TermQ?
  }

  /** Launched, and not yet at the loop that gives its frames back. */
  predicate Active(pc: Pc) {
    !pc.Idle? && !pc.TermLoop? && !pc.TermV? && !pc.Signal? && !pc.Gone?
  }

  /** The value of `swapPoolSem` counts the waiters, and at most one process is inside. */
  ghost predicate Mutex(s: State) {
    && (forall a: Asid :: Inside(PcOf(s, a)) <==> s.owner == Some(a))
    && (s.owner.None? ==> s.swapPoolSem == 1 && s.swapQueue == [])
    && (s.owner.Some? ==> s.swapPoolSem == -|s.swapQueue|)
    && (forall a: Asid :: Count(s.swapQueue, a) == One(Queued(PcOf(s, a))))
  }

  predicate Holding(s: State, d: Asid) {
    && s.owner.Some?
    && var pc := PcOf(s, s.owner.value);
       pc.Flash? && pc.dev == d && pc.stage != Lock
  }

  /** The P on a flash device's mutex always finds it free. */
  ghost predicate FlashFree(s: State) {
    && (forall d: Asid :: MutexOf(s, d) == if Holding(s, d) then 0 else 1)
    && (forall a: Asid :: !PcOf(s, a).FlashQ?)
  }

  predicate Names(d: Slot, v: Vpage) {
    d == Slot(v.asid, v.page, v)
  }

  predicate Free(d: Slot) {
    d.asid == SWAP_FRAME_FREE
  }

  /** The first frame a process may still own: the loop of `supTerminate` has passed the others. */
  function OwnsFrom(pc: Pc): nat {
    if Active(pc) then 0 else if pc.TermLoop? && pc.j < SWAP_POOL_SIZE then pc.j else SWAP_POOL_SIZE
  }

  /** A valid page of a U-proc whose frame has not been given back: of every U-proc until it gets
      to the loop of `supTerminate`, and there of the frames the loop has not passed. */
  predicate Present(s: State, v: Vpage) {
    PteOf(s, v).valid && OwnsFrom(PcOf(s, v.asid)) <= PteOf(s, v).frame
  }

  /** A swap pool entry in use names a page table entry of a process that may own the frame. */
  predicate Owns(s: State, d: Slot, i: Frame) {
    1 <= d.asid <= 8 && d.pte == Vpage(d.asid, d.page) && OwnsFrom(PcOf(s, d.asid)) <= i
  }

  ghost predicate Slots(s: State) {
    forall i: Frame :: !Free(s.swap[i]) ==> Owns(s, s.swap[i], i)
  }

  /** A present page maps a frame whose swap pool entry names exactly its page table entry. */
  ghost predicate Exclusive(s: State) {
    forall v: Vpage :: Present(s, v) ==> Names(s.swap[PteOf(s, v).frame], v)
  }

  /** The page a U-proc faulted on. */
  function FaultPage(pc: Pc): Option<Page> {
    match pc
    case PagerP(page) => page
    case PagerQ(page) => page
    case PagerIn(page) => page
    case Evict(p, _) => Some(p)
    case Flash(_, p, _, _, _, _) => Some(p)
    case Claim(p, _) => Some(p)
    case Map(p, _) => Some(p)
    case _ => None
  }

  /** Until the pager publishes it, the page a U-proc faulted on stays invalid. */
  ghost predicate Faulting(s: State) {
    forall a: Asid :: FaultPage(PcOf(s, a)).Some? ==> !PteOf(s, Vpage(a, FaultPage(PcOf(s, a)).value)).valid
  }

  /** Nobody maps frame `i`: it is free, or its page has been invalidated. */
  predicate Unmapped(s: State, i: Frame) {
    Free(s.swap[i]) || !PteOf(s, s.swap[i].pte).valid
  }

  /** What the pager of `a` has established about the frame it chose. */
  predicate Transit(s: State, a: Asid, pc: Pc) {
    match pc
    case Evict(_, i) => !Free(s.swap[i])
    case Flash(Write, _, i, dev, block, _) => Names(s.swap[i], Vpage(dev, block)) && Unmapped(s, i)
    case Flash(Read, p, i, dev, block, _) => dev == a && block == p && Unmapped(s, i)
    case Claim(_, i) => Unmapped(s, i)
    case Map(p, i) => Names(s.swap[i], Vpage(a, p))
    case _ => true
  }

  ghost predicate Transits(s: State) {
    forall a: Asid :: Transit(s, a, PcOf(s, a))
  }

  /** Equal, but for the frame number of what is not valid. */
  predicate Agree(x: Pte, y: Pte) {
    x.valid == y.valid && (x.valid ==> x.frame == y.frame)
  }

  /** Every TLB entry agrees with its page table entry. */
  ghost predicate Coherent(s: State) {
    forall v :: v in s.tlb ==> Agree(s.tlb[v], PteOf(s, v))
  }

  function FrameOf(pc: Pc): Option<Frame> {
    match pc
    case Evict(_, i) => Some(i)
    case Flash(_, _, i, _, _, _) => Some(i)
    case Claim(_, i) => Some(i)
    case Map(_, i) => Some(i)
    case _ => None
  }

  /** `fifoNext` counts the choices modulo 16, and the frame in transit is the last one chosen. */
  ghost predicate Fifo(s: State) {
    && s.fifoNext == s.choices % SWAP_POOL_SIZE
    && (forall a: Asid :: FrameOf(PcOf(s, a)).Some? ==>
          s.choices >= 1 && FrameOf(PcOf(s, a)).value == (s.choices - 1) % SWAP_POOL_SIZE)
  }

  /** The waiters of `shellSemaphore` are the U-procs inside EXECUTE. */
  ghost predicate Parents(s: State) {
    forall a: Asid :: Count(s.shellQueue, a) == One(PcOf(s, a).ExecQ?)
  }

  /** The part of the invariant about memory. */
  ghost predicate Memory(s: State) {
    Slots(s) && Exclusive(s) && Faulting(s) && Transits(s) && Coherent(s)
  }

  ghost predicate Inv(s: State) {
    Mutex(s) && Parents(s) && FlashFree(s) && Memory(s) && Fifo(s)
  }

  // ---------------------------------------------------------------- mutual exclusion

  lemma EnterMutex(s: State, a: Asid, waiting: Pc, inside: Pc)
    requires Mutex(s) && !Inside(PcOf(s, a)) && !Queued(PcOf(s, a))
    requires Queued(waiting) && !Inside(waiting) && Inside(inside) && !Queued(inside)
    ensures Mutex(Enter(s, a, waiting, inside))
  {
    hide Count, Inside, Queued, PcOf, Enter;
    var r := Enter(s, a, waiting, inside);
    EnterMoves(s, a, waiting, inside);
    EnterQueue(s, a, waiting, inside);
    forall b: Asid
      ensures Count(s.swapQueue + [a], b) == Count(s.swapQueue, b) + One(a == b)
    {
      CountSplit(s.swapQueue, [a], b);
      CountOne(a, b);
    }
  }

  lemma EnterQueue(s: State, a: Asid, waiting: Pc, inside: Pc)
    ensures var r := Enter(s, a, waiting, inside);
            && r.swapPoolSem == s.swapPoolSem - 1
            && r.swapQueue == if s.swapPoolSem - 1 < 0 then s.swapQueue + [a] else s.swapQueue
  {
  }

  lemma ExitMutex(s: State, a: Asid, next: Pc)
    requires Mutex(s) && s.owner == Some(a) && !Inside(next) && !Queued(next)
    ensures Mutex(Exit(s, a, next))
    ensures var r := Exit(s, a, next);
            if s.swapQueue == [] then r.owner == None && r.swapQueue == [] else
              var h := s.swapQueue[0];
              && h != a && r.owner == Some(h) && r.swapQueue == s.swapQueue[1..]
              && (PcOf(s, h).PagerQ? || PcOf(s, h).TermQ?)
              && PcOf(r, h) == if PcOf(s, h).PagerQ? then PagerIn(PcOf(s, h).page) else TermLoop(0)
  {
    hide Count;
    if s.swapQueue != [] {
      forall b: Asid
        ensures Count(s.swapQueue, b) == One(s.swapQueue[0] == b) + Count(s.swapQueue[1..], b)
      {
        CountHead(s.swapQueue, b);
      }
      CountIn(s.swapQueue, s.swapQueue[0]);
    }
  }

  /** Only `a` moved, to `pc`. */
  ghost predicate OnlyMoved(s: State, r: State, a: Asid, pc: Pc) {
    forall b: Asid :: PcOf(r, b) == if b == a then pc else PcOf(s, b)
  }

  /** A step of `a` that moves neither into nor out of the swap pool. */
  lemma MoveMutex(s: State, r: State, a: Asid, pc: Pc)
    requires Mutex(s) && Inside(PcOf(s, a)) == Inside(pc) && Queued(PcOf(s, a)) == Queued(pc)
    requires r.owner == s.owner && r.swapPoolSem == s.swapPoolSem && r.swapQueue == s.swapQueue
             && OnlyMoved(s, r, a, pc)
    ensures Mutex(r)
  {
    hide Inside, Queued, PcOf, Count;
  }

  // ---------------------------------------------------------------- page tables, TLB and swap pool

  /** A change of program counter that claims nothing new about memory. */
  predicate Harmless(pc: Pc, next: Pc) {
    && (Active(next) ==> Active(pc))
    && OwnsFrom(next) == OwnsFrom(pc)
    && (FaultPage(next).None? || FaultPage(next) == FaultPage(pc))
  }

  /** Steps that only move program counters. */
  lemma ControlMemory(s: State, r: State)
    requires Memory(s) && s.swap == r.swap && s.ptes == r.ptes && s.tlb == r.tlb
    requires forall b: Asid :: Harmless(PcOf(s, b), PcOf(r, b)) && Transit(r, b, PcOf(r, b))
    ensures Memory(r)
  {
    hide Transit, FaultPage, OwnsFrom, Active, PteOf;
    forall v: Vpage
      ensures PteOf(r, v) == PteOf(s, v) && (Present(r, v) ==> Names(r.swap[PteOf(r, v).frame], v))
    {
      PteSame(s, r, v);
      assert Present(s, v) ==> Names(s.swap[PteOf(s, v).frame], v);
    }
  }

  lemma PteSame(s: State, r: State, v: Vpage)
    requires s.ptes == r.ptes
    ensures PteOf(r, v) == PteOf(s, v)
  {
  }

  lemma SlotOfDead(s: State, i: Frame, a: Asid)
    requires Slots(s) && OwnsFrom(PcOf(s, a)) >= SWAP_POOL_SIZE
    ensures s.swap[i].asid != a
  {
    assert !Free(s.swap[i]) ==> Owns(s, s.swap[i], i);
  }

  /** `markPageNotValid` can only help. */
  lemma InvalidateMemory(s: State, v: Vpage)
    requires Memory(s)
    ensures Memory(MarkNotValid(s, v)) && !PteOf(MarkNotValid(s, v), v).valid
  {
    hide FaultPage, OwnsFrom, Active;
    var r := MarkNotValid(s, v);
    assert forall a: Asid :: PcOf(r, a) == PcOf(s, a);
    forall a: Asid
      ensures Transit(r, a, PcOf(r, a))
    {
      assert Transit(s, a, PcOf(s, a));
    }
    forall i: Frame | !Free(r.swap[i])
      ensures Owns(r, r.swap[i], i)
    {
      assert Owns(s, s.swap[i], i);
    }
    forall w: Vpage | Present(r, w)
      ensures Names(r.swap[PteOf(r, w).frame], w)
    {
      assert Present(s, w);
    }
  }

  /** A pager invalidates the page that inhabits the frame it chose. */
  lemma EvictMemory(s: State, a: Asid, p: Page, i: Frame)
    requires Mutex(s) && Memory(s) && PcOf(s, a) == Evict(p, i)
    ensures Memory(GoStep(s, a))
    ensures Names(s.swap[i], s.swap[i].pte) && Active(PcOf(s, s.swap[i].pte.asid))
  {
    Evicted(s, a, p, i);
    var v := s.swap[i].pte;
    var s1 := MarkNotValid(s, v);
    InvalidateMemory(s, v);
    hide Mutex, Memory, MarkNotValid;
    ControlMemory(s1, GoStep(s, a));
  }

  lemma Evicted(s: State, a: Asid, p: Page, i: Frame)
    requires Mutex(s) && Memory(s) && PcOf(s, a) == Evict(p, i)
    ensures var v := s.swap[i].pte;
            && Names(s.swap[i], v) && Active(PcOf(s, v.asid))
            && GoStep(s, a) == Goto(MarkNotValid(s, v), a, Flash(Write, p, i, v.asid, v.page, Lock))
    ensures forall b: Asid :: b != a ==> Transit(GoStep(s, a), b, PcOf(s, b))
  {
    assert Transit(s, a, PcOf(s, a));
    assert Owns(s, s.swap[i], i);
    Alone(s, a);
  }

  /** While `a` is inside, nobody else is. */
  lemma Alone(s: State, a: Asid)
    requires Mutex(s) && Inside(PcOf(s, a))
    ensures forall b: Asid :: b != a ==> !Inside(PcOf(s, b))
  {
    assert s.owner == Some(a);
  }

  lemma OutsideTransit(s: State, b: Asid, pc: Pc)
    ensures !Inside(pc) ==> Transit(s, b, pc)
  {
  }

  /** Only the process inside has a frame in transit. */
  lemma AloneTransits(s: State, r: State, a: Asid)
    requires Mutex(s) && Inside(PcOf(s, a)) && OnlyMoved(s, r, a, PcOf(r, a)) && Transit(r, a, PcOf(r, a))
    ensures Transits(r)
  {
    hide Inside, Transit, PcOf;
    Alone(s, a);
    forall b: Asid
      ensures Transit(r, b, PcOf(r, b))
    {
      OutsideTransit(r, b, PcOf(r, b));
    }
  }

  /** A pager enters its page in the swap pool. */
  lemma ClaimMemory(s: State, a: Asid, p: Page, i: Frame)
    requires Mutex(s) && Memory(s) && PcOf(s, a) == Claim(p, i)
    ensures Memory(GoStep(s, a))
  {
    assert Transit(s, a, PcOf(s, a));
    var r := GoStep(s, a);
    PageStays(s, a);
    AloneTransits(s, r, a);
    hide Mutex, Transits;
    forall w: Vpage | Present(r, w)
      ensures Names(r.swap[PteOf(r, w).frame], w)
    {
      assert Present(s, w);
    }
  }

  /** A pager publishes its page. */
  lemma MapMemory(s: State, a: Asid, p: Page, i: Frame)
    requires Mutex(s) && Memory(s) && PcOf(s, a) == Map(p, i)
    ensures Memory(GoStep(s, a))
  {
    assert Transit(s, a, PcOf(s, a));
    var r := GoStep(s, a);
    PageStays(s, a);
    AloneTransits(s, r, a);
    hide Mutex, Transits;
    forall w: Vpage | Present(r, w) && w != Vpage(a, p)
      ensures Names(r.swap[PteOf(r, w).frame], w)
    {
      assert Present(s, w);
    }
  }

  lemma FreeSlots(s: State, a: Asid, j: nat)
    requires Slots(s) && PcOf(s, a) == TermLoop(j)
    ensures Slots(GoStep(s, a))
  {
    var r := GoStep(s, a);
    forall i: Frame | !Free(r.swap[i])
      ensures Owns(r, r.swap[i], i)
    {
      assert r.swap[i] == s.swap[i];
      assert Owns(s, s.swap[i], i);
    }
  }

  /** `supTerminate` gives a frame back, or passes it by. */
  lemma FreeMemory(s: State, a: Asid, j: nat)
    requires Mutex(s) && Memory(s) && PcOf(s, a) == TermLoop(j)
    ensures Memory(GoStep(s, a))
  {
    Alone(s, a);
    FreeSlots(s, a, j);
    FreeExclusive(s, a, j);
    hide Slots, OwnsFrom, Mutex, Exclusive;
    var r := GoStep(s, a);
    assert forall b: Asid :: b != a ==> PcOf(r, b) == PcOf(s, b);
    assert Transits(r);
  }

  lemma FreeExclusive(s: State, a: Asid, j: nat)
    requires Exclusive(s) && PcOf(s, a) == TermLoop(j)
    ensures Exclusive(GoStep(s, a))
  {
    var r := GoStep(s, a);
    forall w: Vpage | Present(r, w)
      ensures Names(r.swap[PteOf(r, w).frame], w)
    {
      assert PteOf(r, w) == PteOf(s, w) && Present(s, w);
    }
  }

  /** A launch starts from an empty page table and without valid TLB entries. */
  lemma LaunchMemory(s: State, a: Asid)
    requires Memory(s) && Launchable(s, a)
    ensures Memory(LaunchUproc(s, a))
  {
    forall i: Frame
      ensures s.swap[i].asid != a
    {
      SlotOfDead(s, i, a);
    }
    var r := LaunchUproc(s, a);
    forall b: Asid
      ensures Transit(r, b, PcOf(r, b))
    {
      assert Transit(s, b, PcOf(s, b));
    }
    forall w: Vpage | Present(r, w)
      ensures Names(r.swap[PteOf(r, w).frame], w)
    {
      assert w.asid != a && Present(s, w);
    }
  }

  // ---------------------------------------------------------------- every step

  lemma GoMutex(s: State, a: Asid)
    requires Mutex(s) && Parents(s) && CanGo(PcOf(s, a))
    ensures Mutex(GoStep(s, a))
  {
    hide Mutex, Enter, Exit, SignalEnd, OnlyMoved, Parents, Inside, Choose, FlashStep;
    var pc := PcOf(s, a);
    if pc.PagerP? {
      EnterMutex(s, a, PagerQ(pc.page), PagerIn(pc.page)) by { KindsOf(pc); }
    } else if pc.TermP? {
      EnterMutex(s, a, TermQ, TermLoop(0)) by { KindsOf(pc); }
    } else if pc.Leave? || pc.Abort? || pc.TermV? {
      KindsOf(pc);
      OwnerIs(s, a);
      ExitMutex(s, a, if pc.Leave? then User else if pc.Abort? then TermP else Signal);
    } else if pc.Signal? {
      SignalMutex(s, a);
    } else {
      PlainGo(s, a);
      MoveMutex(s, GoStep(s, a), a, PcOf(GoStep(s, a), a));
    }
  }

  lemma KindsOf(pc: Pc)
    ensures pc.PagerP? ==> !Inside(pc) && Inside(PagerIn(pc.page)) && !Inside(PagerQ(pc.page))
    ensures pc.TermP? ==> !Inside(pc) && Inside(TermLoop(0)) && !Inside(TermQ)
    ensures pc.Leave? || pc.Abort? || pc.TermV? ==> Inside(pc)
    ensures !Inside(User) && !Inside(TermP) && !Inside(Signal) && !Queued(User) && !Queued(TermP) && !Queued(Signal)
  {
  }

  predicate Plain(pc: Pc) {
    CanGo(pc) && !pc.PagerP? && !pc.TermP? && !pc.Leave? && !pc.Abort? && !pc.TermV? && !pc.Signal?
  }

  /** The steps without a P or V on the swap pool. */
  ghost predicate Stays(s: State, r: State, a: Asid) {
    && OnlyMoved(s, r, a, PcOf(r, a)) && r.owner == s.owner && r.swapPoolSem == s.swapPoolSem
    && r.swapQueue == s.swapQueue
    && Inside(PcOf(s, a)) == Inside(PcOf(r, a)) && Queued(PcOf(s, a)) == Queued(PcOf(r, a))
  }

  lemma FlashStays(s: State, a: Asid)
    requires PcOf(s, a).Flash? && !PcOf(s, a).stage.Busy?
    ensures Stays(s, FlashStep(s, a, PcOf(s, a)), a)
  {
    hide MutexOf;
  }

  lemma ChooseStays(s: State, a: Asid, p: Page)
    requires PcOf(s, a).PagerIn?
    ensures Stays(s, Choose(s, a, p), a)
  {
  }

  lemma PageStays(s: State, a: Asid)
    requires PcOf(s, a).Evict? || PcOf(s, a).Claim? || PcOf(s, a).Map?
    ensures Stays(s, GoStep(s, a), a)
  {
    hide PteOf;
  }

  lemma OtherStays(s: State, a: Asid)
    requires PcOf(s, a) == PagerIn(None) || PcOf(s, a).TermLoop? || PcOf(s, a).ExecP?
    ensures Stays(s, GoStep(s, a), a)
  {
    hide OnlyMoved;
    var r := GoStep(s, a);
    PcsMoved(s, r, a, PcOf(r, a));
  }

  lemma PlainGo(s: State, a: Asid)
    requires Plain(PcOf(s, a))
    ensures Stays(s, GoStep(s, a), a)
  {
    hide PteOf, FlashStep, Choose, Stays, GoStep;
    var pc := PcOf(s, a);
    if pc.Flash? {
      GoCalls(s, a);
      FlashStays(s, a);
    } else if pc.PagerIn? && pc.page.Some? {
      GoCalls(s, a);
      ChooseStays(s, a, pc.page.value);
    } else if pc.Evict? || pc.Claim? || pc.Map? {
      PageStays(s, a);
    } else {
      OtherStays(s, a);
    }
  }

  lemma GoCalls(s: State, a: Asid)
    requires CanGo(PcOf(s, a))
    ensures var pc := PcOf(s, a);
            && (pc.Flash? ==> GoStep(s, a) == FlashStep(s, a, pc))
            && (pc.PagerIn? && pc.page.Some? ==> GoStep(s, a) == Choose(s, a, pc.page.value))
  {
    hide FlashStep, Choose;
  }

  lemma MovedElse(s: State, r: State, a: Asid, pc: Pc, b: Asid)
    requires OnlyMoved(s, r, a, pc) && a != b
    ensures PcOf(r, b) == PcOf(s, b)
  {
  }

  lemma GoForms(s: State, a: Asid)
    requires CanGo(PcOf(s, a))
    ensures var pc := PcOf(s, a);
            && (pc.PagerP? ==> GoStep(s, a) == Enter(s, a, PagerQ(pc.page), PagerIn(pc.page)))
            && (pc.TermP? ==> GoStep(s, a) == Enter(s, a, TermQ, TermLoop(0)))
            && (pc.Leave? ==> GoStep(s, a) == Exit(s, a, User))
            && (pc.Abort? ==> GoStep(s, a) == Exit(s, a, TermP))
            && (pc.TermV? ==> GoStep(s, a) == Exit(s, a, Signal))
            && (pc.Signal? ==> GoStep(s, a) == SignalEnd(s, a))
            && (!(pc.PagerP? || pc.TermP? || pc.Leave? || pc.Abort? || pc.TermV? || pc.Signal?) ==> Plain(pc))
  {
    hide Enter, Exit, SignalEnd, FlashStep, Choose;
  }

  lemma OwnerIs(s: State, a: Asid)
    requires Mutex(s) && Inside(PcOf(s, a))
    ensures s.owner == Some(a)
  {
  }

  lemma SignalMoves(s: State, a: Asid)
    requires PcOf(s, a) == Signal && Parents(s)
    ensures var r := SignalEnd(s, a);
            && r.owner == s.owner && r.swapPoolSem == s.swapPoolSem && r.swapQueue == s.swapQueue
            && r.swap == s.swap && r.ptes == s.ptes && r.tlb == s.tlb && r.fifoNext == s.fifoNext
            && r.choices == s.choices
    ensures forall b: Asid :: var r := SignalEnd(s, a);
                              PcOf(r, b) == if b == a then Gone
                                            else if a != SHELL && s.shellSem + 1 <= 0 && s.shellQueue != []
                                            && b == s.shellQueue[0] then User
                                            else PcOf(s, b)
    ensures s.shellQueue != [] ==> PcOf(s, s.shellQueue[0]).ExecQ?
  {
    hide Count;
    if s.shellQueue != [] {
      CountIn(s.shellQueue, s.shellQueue[0]);
    }
  }

  lemma SignalMutex(s: State, a: Asid)
    requires Mutex(s) && Parents(s) && PcOf(s, a) == Signal
    ensures Mutex(SignalEnd(s, a))
  {
    hide SignalEnd, Count, Parents, PcOf, One;
    SignalMoves(s, a);
  }

  // ---------------------------------------------------------------- flash mutexes, parents and the frame counter

  lemma SameFlash(s: State, r: State)
    requires FlashFree(s) && r.flashMutex == s.flashMutex
    requires forall d: Asid :: Holding(s, d) == Holding(r, d)
    requires forall b: Asid :: PcOf(r, b).FlashQ? ==> PcOf(s, b).FlashQ?
    ensures FlashFree(r)
  {
  }

  lemma SameFifo(s: State, r: State)
    requires Fifo(s) && r.fifoNext == s.fifoNext && r.choices == s.choices
    requires forall b: Asid :: FrameOf(PcOf(r, b)).None? || FrameOf(PcOf(r, b)) == FrameOf(PcOf(s, b))
    ensures Fifo(r)
  {
  }

  /** The P and the V of `flashOperation`: the P finds the mutex free. */
  lemma FlashStepFlash(s: State, a: Asid)
    requires Mutex(s) && FlashFree(s) && PcOf(s, a).Flash? && !PcOf(s, a).stage.Busy?
    ensures FlashFree(FlashStep(s, a, PcOf(s, a)))
    ensures PcOf(s, a).stage == Lock ==> MutexOf(s, PcOf(s, a).dev) == 1
  {
    OwnerIs(s, a);
    hide Mutex;
    var pc := PcOf(s, a);
    var r := FlashStep(s, a, pc);
    assert MutexOf(s, pc.dev) == if pc.stage == Lock then 1 else 0;
    forall b: Asid
      ensures !PcOf(r, b).FlashQ?
    {
      assert !PcOf(s, b).FlashQ?;
    }
    forall d: Asid
      ensures MutexOf(r, d) == if Holding(r, d) then 0 else 1
    {
      assert MutexOf(s, d) == if Holding(s, d) then 0 else 1;
    }
  }

  lemma ChooseFifo(s: State, a: Asid, p: Page)
    requires Mutex(s) && Fifo(s) && PcOf(s, a).PagerIn?
    ensures Fifo(Choose(s, a, p))
  {
    Alone(s, a);
    hide Mutex;
    var r := Choose(s, a, p);
    forall b: Asid | b != a
      ensures FrameOf(PcOf(r, b)).None?
    {
      FrameInside(PcOf(s, b));
    }
  }

  lemma FrameInside(pc: Pc)
    ensures FrameOf(pc).Some? ==> Inside(pc)
  {
  }

  // ---------------------------------------------------------------- the processor's steps

  /** What the steps that only move program counters have in common. */
  ghost predicate Quiet(s: State, r: State) {
    && s.swap == r.swap && s.ptes == r.ptes && s.tlb == r.tlb
    && s.fifoNext == r.fifoNext && s.choices == r.choices
    && (forall b: Asid :: Harmless(PcOf(s, b), PcOf(r, b)) && Transit(r, b, PcOf(r, b))
                       && (FrameOf(PcOf(r, b)).None? || FrameOf(PcOf(r, b)) == FrameOf(PcOf(s, b))))
  }

  lemma QuietInv(s: State, r: State)
    requires Memory(s) && Fifo(s) && Quiet(s, r)
    ensures Memory(r) && Fifo(r)
  {
    hide Memory, Fifo, Transit, FaultPage, OwnsFrom, Active, FrameOf;
    ControlMemory(s, r);
    SameFifo(s, r);
  }

  /** A waiter is admitted. */
  lemma AdmittedQuiet(pc: Pc)
    requires Queued(pc)
    ensures Harmless(pc, Admitted(pc)) && FrameOf(Admitted(pc)).None? && !Admitted(pc).Flash? && !Admitted(pc).FlashQ?
    ensures forall s: State, b: Asid :: Transit(s, b, Admitted(pc))
  {
  }

  lemma TransitSame(s: State, r: State, b: Asid, pc: Pc)
    requires s.swap == r.swap && s.ptes == r.ptes
    ensures Transit(s, b, pc) == Transit(r, b, pc)
  {
  }

  lemma PcsMoved(s: State, r: State, a: Asid, pc: Pc)
    requires r.pcs == s.pcs[a := pc]
    ensures OnlyMoved(s, r, a, pc)
  {
  }

  /** One process moves, quietly. */
  lemma MovedInv(s: State, r: State, a: Asid, pc: Pc)
    requires Memory(s) && Fifo(s) && OnlyMoved(s, r, a, pc)
    requires s.swap == r.swap && s.ptes == r.ptes && s.tlb == r.tlb && s.fifoNext == r.fifoNext
             && s.choices == r.choices
    requires Harmless(PcOf(s, a), pc) && Transit(s, a, pc) && (FrameOf(pc).None? || FrameOf(pc) == FrameOf(PcOf(s, a)))
    ensures Memory(r) && Fifo(r)
  {
    hide Transit, FaultPage, OwnsFrom, Active, FrameOf, PcOf, Fifo, Coherent, Slots, Exclusive, Faulting;
    forall b: Asid
      ensures Harmless(PcOf(s, b), PcOf(r, b)) && Transit(r, b, PcOf(r, b))
      ensures FrameOf(PcOf(r, b)).None? || FrameOf(PcOf(r, b)) == FrameOf(PcOf(s, b))
    {
      TransitSame(s, r, b, PcOf(r, b));
    }
    QuietInv(s, r);
  }

  lemma EnterInv(s: State, a: Asid, waiting: Pc, inside: Pc)
    requires Memory(s) && Fifo(s)
    requires Harmless(PcOf(s, a), waiting) && Transit(s, a, waiting) && FrameOf(waiting).None?
    requires Harmless(PcOf(s, a), inside) && Transit(s, a, inside) && FrameOf(inside).None?
    ensures Memory(Enter(s, a, waiting, inside)) && Fifo(Enter(s, a, waiting, inside))
  {
    hide Memory, Fifo, Harmless, Transit, FrameOf, OnlyMoved, PcOf;
    var r := Enter(s, a, waiting, inside);
    var pc := if s.swapPoolSem - 1 < 0 then waiting else inside;
    PcsMoved(s, r, a, pc);
    MovedInv(s, r, a, pc);
  }

  lemma ExitInv(s: State, a: Asid, next: Pc)
    requires Mutex(s) && Memory(s) && Fifo(s) && s.owner == Some(a) && !Queued(next) && !Inside(next)
    requires Harmless(PcOf(s, a), next) && Transit(s, a, next) && FrameOf(next).None?
    ensures Memory(Exit(s, a, next)) && Fifo(Exit(s, a, next))
  {
    var s1 := Goto(s, a, next).(swapPoolSem := s.swapPoolSem + 1, owner := None);
    var r := Exit(s, a, next);
    ExitMoves(s, a, next);
    hide Mutex, Memory, Fifo, Harmless, Transit, FrameOf, Exit, Queued, Inside, Admitted;
    MovedInv(s, s1, a, next);
    if s1.swapPoolSem <= 0 && s.swapQueue != [] {
      var h := s.swapQueue[0];
      AdmittedQuiet(PcOf(s1, h));
      MovedInv(s1, r, h, Admitted(PcOf(s1, h)));
    } else {
      assert r == s1;
    }
  }

  lemma ExitMoves(s: State, a: Asid, next: Pc)
    requires Mutex(s) && s.owner == Some(a) && !Queued(next)
    ensures var s1 := Goto(s, a, next).(swapPoolSem := s.swapPoolSem + 1, owner := None);
            var r := Exit(s, a, next);
            && r.swap == s.swap && r.ptes == s.ptes && r.tlb == s.tlb && r.fifoNext == s.fifoNext
            && r.choices == s.choices
            && OnlyMoved(s, s1, a, next)
            && if s1.swapPoolSem <= 0 && s.swapQueue != [] then
                 var h := s.swapQueue[0]; h != a && Queued(PcOf(s1, h)) && OnlyMoved(s1, r, h, Admitted(PcOf(s1, h)))
               else r == s1
  {
    hide Count, Queued, Inside, Admitted;
    if s.swapQueue != [] {
      CountIn(s.swapQueue, s.swapQueue[0]);
      assert Count(s.swapQueue, s.swapQueue[0]) == One(Queued(PcOf(s, s.swapQueue[0])));
      NotBoth(PcOf(s, a));
    }
  }

  lemma NotBoth(pc: Pc)
    ensures !(Inside(pc) && Queued(pc))
  {
  }

  lemma HarmlessMoves(s: State, a: Asid, pc: Pc)
    ensures pc.PagerP? ==> Harmless(pc, PagerQ(pc.page)) && Harmless(pc, PagerIn(pc.page))
    ensures pc.TermP? ==> Harmless(pc, TermQ) && Harmless(pc, TermLoop(0))
    ensures pc.Leave? ==> Harmless(pc, User)
    ensures pc.Abort? ==> Harmless(pc, TermP)
    ensures pc.TermV? ==> Harmless(pc, Signal)
    ensures pc.Signal? ==> Harmless(pc, Gone)
    ensures pc.PagerIn? ==> Harmless(pc, Abort)
    ensures pc.ExecP? ==> Harmless(pc, User) && Harmless(pc, ExecQ(pc.child))
    ensures pc.ExecQ? ==> Harmless(pc, User)
    ensures forall page :: Transit(s, a, PagerQ(page)) && Transit(s, a, PagerIn(page))
                           && FrameOf(PagerQ(page)).None? && FrameOf(PagerIn(page)).None?
    ensures forall child :: Transit(s, a, ExecQ(child)) && FrameOf(ExecQ(child)).None?
    ensures forall next :: next in {User, TermP, TermQ, TermLoop(0), Abort, Signal, Gone} ==>
                             Transit(s, a, next) && FrameOf(next).None?
  {
  }

  lemma FlashMemory(s: State, a: Asid)
    requires Memory(s) && Fifo(s) && PcOf(s, a).Flash? && !PcOf(s, a).stage.Busy?
    ensures Memory(FlashStep(s, a, PcOf(s, a))) && Fifo(FlashStep(s, a, PcOf(s, a)))
  {
    var r := FlashStep(s, a, PcOf(s, a));
    assert Transit(s, a, PcOf(s, a));
    FlashMoves(s, a);
    hide Memory, Fifo, FlashStep, OnlyMoved, Harmless, Transit, FrameOf;
    MovedInv(s, r, a, PcOf(r, a));
  }

  lemma FlashMoves(s: State, a: Asid)
    requires PcOf(s, a).Flash? && !PcOf(s, a).stage.Busy? && Transit(s, a, PcOf(s, a))
    ensures var r := FlashStep(s, a, PcOf(s, a));
            var pc := PcOf(r, a);
            && s.swap == r.swap && s.ptes == r.ptes && s.tlb == r.tlb && s.fifoNext == r.fifoNext
            && s.choices == r.choices
            && OnlyMoved(s, r, a, pc) && Harmless(PcOf(s, a), pc) && Transit(s, a, pc)
            && (FrameOf(pc).None? || FrameOf(pc) == FrameOf(PcOf(s, a)))
  {
    hide OnlyMoved, MutexOf, FlashNext, Transit;
    var pc := FlashNext(s, a, PcOf(s, a));
    PcsMoved(s, FlashStep(s, a, PcOf(s, a)), a, pc);
    FlashNextQuiet(s, a, PcOf(s, a));
  }

  lemma FlashNextQuiet(s: State, a: Asid, pc: Pc)
    requires pc.Flash? && !pc.stage.Busy? && Transit(s, a, pc)
    ensures var next := FlashNext(s, a, pc);
            Harmless(pc, next) && Transit(s, a, next) && (FrameOf(next).None? || FrameOf(next) == FrameOf(pc))
  {
    hide MutexOf;
  }

  lemma ChooseMemory(s: State, a: Asid, p: Page)
    requires Memory(s) && PcOf(s, a) == PagerIn(Some(p))
    ensures Memory(Choose(s, a, p))
  {
    var r := Choose(s, a, p);
    PcsMoved(s, r, a, PcOf(r, a));
    hide Memory;
    forall b: Asid
      ensures Harmless(PcOf(s, b), PcOf(r, b)) && Transit(r, b, PcOf(r, b))
    {
      if b != a { TransitOf(s, b); TransitSame(s, r, b, PcOf(s, b)); }
    }
    ControlMemory(s, r);
  }

  lemma TransitOf(s: State, b: Asid)
    requires Memory(s)
    ensures Transit(s, b, PcOf(s, b))
  {
  }

  lemma SignalMemory(s: State, a: Asid)
    requires Memory(s) && Fifo(s) && Parents(s) && PcOf(s, a) == Signal
    ensures Memory(SignalEnd(s, a)) && Fifo(SignalEnd(s, a))
  {
    hide SignalEnd, Memory, Fifo, Harmless, Transit, FrameOf, Parents, PcOf;
    var r := SignalEnd(s, a);
    SignalMoves(s, a);
    forall b: Asid
      ensures Harmless(PcOf(s, b), PcOf(r, b)) && Transit(r, b, PcOf(r, b))
      ensures FrameOf(PcOf(r, b)).None? || FrameOf(PcOf(r, b)) == FrameOf(PcOf(s, b))
    {
      HarmlessMoves(r, b, PcOf(s, b));
      HarmlessSame(PcOf(s, b));
      TransitOf(s, b);
      TransitSame(s, r, b, PcOf(s, b));
    }
    QuietInv(s, r);
  }

  lemma HarmlessSame(pc: Pc)
    ensures Harmless(pc, pc)
  {
  }

  /** The steps without P and V, on memory and the frame counter. */
  lemma PlainMemory(s: State, a: Asid)
    requires Mutex(s) && Memory(s) && Fifo(s) && Plain(PcOf(s, a))
    ensures Memory(GoStep(s, a)) && Fifo(GoStep(s, a))
  {
    hide Mutex, Memory, Fifo, Harmless, Transit, FrameOf, GoStep, FlashStep, Choose;
    var pc := PcOf(s, a);
    GoCalls(s, a);
    if pc.Flash? {
      FlashMemory(s, a);
    } else if pc.PagerIn? && pc.page.Some? {
      ChooseMemory(s, a, pc.page.value);
      ChooseFifo(s, a, pc.page.value);
    } else if pc.Evict? || pc.Claim? || pc.Map? || pc.TermLoop? {
      if pc.Evict? { EvictMemory(s, a, pc.p, pc.i); }
      if pc.Claim? { ClaimMemory(s, a, pc.p, pc.i); }
      if pc.Map? { MapMemory(s, a, pc.p, pc.i); }
      if pc.TermLoop? { FreeMemory(s, a, pc.j); }
      PageFifo(s, a);
    } else {
      OtherMemory(s, a);
    }
  }

  lemma PageFifo(s: State, a: Asid)
    requires Fifo(s) && (PcOf(s, a).Evict? || PcOf(s, a).Claim? || PcOf(s, a).Map? || PcOf(s, a).TermLoop?)
    ensures Fifo(GoStep(s, a))
  {
    hide Fifo, PteOf;
    SameFifo(s, GoStep(s, a));
  }

  lemma OtherMemory(s: State, a: Asid)
    requires Memory(s) && Fifo(s) && (PcOf(s, a) == PagerIn(None) || PcOf(s, a).ExecP?)
    ensures Memory(GoStep(s, a)) && Fifo(GoStep(s, a))
  {
    hide Memory, Fifo, Harmless, Transit, FrameOf, OnlyMoved;
    var r := GoStep(s, a);
    PcsMoved(s, r, a, PcOf(r, a));
    HarmlessMoves(s, a, PcOf(s, a));
    MovedInv(s, r, a, PcOf(r, a));
  }

  lemma GoMemory(s: State, a: Asid)
    requires Mutex(s) && Parents(s) && Memory(s) && Fifo(s) && CanGo(PcOf(s, a))
    ensures Memory(GoStep(s, a)) && Fifo(GoStep(s, a))
  {
    hide Mutex, Memory, Fifo, Harmless, Transit, FrameOf, Enter, Exit, SignalEnd, Parents, FlashStep, Choose,
         Inside, Queued;
    var pc := PcOf(s, a);
    HarmlessMoves(s, a, pc);
    KindsOf(pc);
    if pc.PagerP? {
      EnterInv(s, a, PagerQ(pc.page), PagerIn(pc.page));
    } else if pc.TermP? {
      EnterInv(s, a, TermQ, TermLoop(0));
    } else if pc.Leave? || pc.Abort? || pc.TermV? {
      OwnerIs(s, a);
      ExitInv(s, a, if pc.Leave? then User else if pc.Abort? then TermP else Signal);
    } else if pc.Signal? {
      SignalMemory(s, a);
    } else {
      PlainMemory(s, a);
    }
  }

  // ---------------------------------------------------------------- flash mutexes and parents, step by step

  predicate Holds(pc: Pc) {
    pc.Flash? && pc.stage != Lock
  }

  lemma MovedFlash(s: State, r: State, a: Asid, pc: Pc)
    requires FlashFree(s) && r.flashMutex == s.flashMutex && r.owner == s.owner && OnlyMoved(s, r, a, pc)
    requires !Holds(PcOf(s, a)) && !Holds(pc) && !pc.FlashQ?
    ensures FlashFree(r)
  {
    hide PcOf;
    forall d: Asid
      ensures Holding(s, d) == Holding(r, d)
    {
    }
    SameFlash(s, r);
  }

  /** The owner changes, and neither the old nor the new one is at a device. */
  lemma OwnerFlash(s: State, r: State)
    requires FlashFree(s) && r.flashMutex == s.flashMutex
    requires s.owner.Some? ==> !Holds(PcOf(s, s.owner.value))
    requires r.owner.Some? ==> !Holds(PcOf(r, r.owner.value))
    requires forall b: Asid :: PcOf(r, b).FlashQ? ==> PcOf(s, b).FlashQ?
    ensures FlashFree(r)
  {
    SameFlash(s, r);
  }

  lemma EnterFlash(s: State, a: Asid, waiting: Pc, inside: Pc)
    requires Mutex(s) && FlashFree(s) && !Holds(PcOf(s, a))
    requires !Holds(waiting) && !waiting.FlashQ? && !Holds(inside) && !inside.FlashQ?
    ensures FlashFree(Enter(s, a, waiting, inside))
  {
    EnterMoves(s, a, waiting, inside);
    hide FlashFree, Inside, Queued, Count, OnlyMoved, Enter, PcOf;
    var r := Enter(s, a, waiting, inside);
    if s.swapPoolSem - 1 < 0 {
      MovedFlash(s, r, a, waiting);
    } else {
      QOf(s, r, a);
      OwnerFlash(s, r);
    }
  }

  lemma EnterMoves(s: State, a: Asid, waiting: Pc, inside: Pc)
    ensures var r := Enter(s, a, waiting, inside);
            var pc := if s.swapPoolSem - 1 < 0 then waiting else inside;
            && OnlyMoved(s, r, a, pc) && PcOf(r, a) == pc
            && r.owner == (if s.swapPoolSem - 1 < 0 then s.owner else Some(a)) && r.flashMutex == s.flashMutex
            && r.shellQueue == s.shellQueue
  {
    hide OnlyMoved;
    var r := Enter(s, a, waiting, inside);
    PcsMoved(s, r, a, if s.swapPoolSem - 1 < 0 then waiting else inside);
  }

  lemma QOf(s: State, r: State, a: Asid)
    requires OnlyMoved(s, r, a, PcOf(r, a)) && !PcOf(r, a).FlashQ?
    ensures forall b: Asid :: PcOf(r, b).FlashQ? ==> PcOf(s, b).FlashQ?
  {
  }

  lemma ExitFlash(s: State, a: Asid, next: Pc)
    requires Mutex(s) && FlashFree(s) && s.owner == Some(a) && !Holds(PcOf(s, a))
    requires !Queued(next) && !Holds(next) && !next.FlashQ?
    ensures FlashFree(Exit(s, a, next))
  {
    hide FlashFree, Inside, Queued, Count, OnlyMoved, Mutex, Admitted;
    var r := Exit(s, a, next);
    var s1 := Goto(s, a, next).(swapPoolSem := s.swapPoolSem + 1, owner := None);
    ExitMoves(s, a, next);
    QOf(s, s1, a);
    if s1.swapPoolSem <= 0 && s.swapQueue != [] {
      AdmittedQuiet(PcOf(s1, s.swapQueue[0]));
      QOf(s1, r, s.swapQueue[0]);
    }
    OwnerFlash(s, r);
  }

  lemma SignalFlash(s: State, a: Asid)
    requires Parents(s) && FlashFree(s) && PcOf(s, a) == Signal
    ensures FlashFree(SignalEnd(s, a))
  {
    SignalMoves(s, a);
    var r := SignalEnd(s, a);
    assert r.flashMutex == s.flashMutex;
    hide SignalEnd, PcOf, Parents;
    forall d: Asid
      ensures Holding(s, d) == Holding(r, d)
    {
    }
  }

  lemma PlainFlash(s: State, a: Asid)
    requires FlashFree(s) && Plain(PcOf(s, a)) && !PcOf(s, a).Flash?
    ensures FlashFree(GoStep(s, a))
  {
    hide FlashFree, OnlyMoved, Inside, Queued;
    PlainGo(s, a);
    PlainKeeps(s, a);
    hide GoStep;
    MovedFlash(s, GoStep(s, a), a, PcOf(GoStep(s, a), a));
  }

  /** The steps below touch neither the flash mutexes nor the shell's queue. */
  ghost predicate Keeps(s: State, r: State, a: Asid) {
    && r.flashMutex == s.flashMutex && !Holds(PcOf(r, a)) && !PcOf(r, a).FlashQ?
    && (!PcOf(s, a).ExecP? ==> r.shellQueue == s.shellQueue && !PcOf(r, a).ExecQ?)
  }

  lemma PageKeeps(s: State, a: Asid)
    requires PcOf(s, a).Evict? || PcOf(s, a).Claim? || PcOf(s, a).Map?
    ensures Keeps(s, GoStep(s, a), a)
  {
    hide PteOf;
  }

  lemma ChooseKeeps(s: State, a: Asid, p: Page)
    requires PcOf(s, a).PagerIn?
    ensures Keeps(s, Choose(s, a, p), a)
  {
  }

  lemma OtherKeeps(s: State, a: Asid)
    requires PcOf(s, a) == PagerIn(None) || PcOf(s, a).TermLoop? || PcOf(s, a).ExecP?
    ensures Keeps(s, GoStep(s, a), a)
  {
  }

  lemma PlainKeeps(s: State, a: Asid)
    requires Plain(PcOf(s, a)) && !PcOf(s, a).Flash?
    ensures Keeps(s, GoStep(s, a), a)
  {
    hide Keeps, GoStep, Choose;
    var pc := PcOf(s, a);
    GoCalls(s, a);
    if pc.PagerIn? && pc.page.Some? {
      ChooseKeeps(s, a, pc.page.value);
    } else if pc.Evict? || pc.Claim? || pc.Map? {
      PageKeeps(s, a);
    } else {
      OtherKeeps(s, a);
    }
  }

  lemma GoFlash(s: State, a: Asid)
    requires Mutex(s) && Parents(s) && FlashFree(s) && CanGo(PcOf(s, a))
    ensures FlashFree(GoStep(s, a))
  {
    hide Mutex, FlashFree, Enter, Exit, SignalEnd, Parents, FlashStep, Choose, Inside, Queued;
    var pc := PcOf(s, a);
    KindsOf(pc);
    GoCalls(s, a);
    if pc.PagerP? {
      EnterFlash(s, a, PagerQ(pc.page), PagerIn(pc.page));
    } else if pc.TermP? {
      EnterFlash(s, a, TermQ, TermLoop(0));
    } else if pc.Leave? || pc.Abort? || pc.TermV? {
      OwnerIs(s, a);
      ExitFlash(s, a, if pc.Leave? then User else if pc.Abort? then TermP else Signal);
    } else if pc.Signal? {
      SignalFlash(s, a);
    } else if pc.Flash? {
      FlashStepFlash(s, a);
    } else {
      PlainFlash(s, a);
    }
  }

  lemma MovedParents(s: State, r: State, a: Asid, pc: Pc)
    requires Parents(s) && r.shellQueue == s.shellQueue && OnlyMoved(s, r, a, pc) && PcOf(s, a).ExecQ? == pc.ExecQ?
    ensures Parents(r)
  {
    hide PcOf, Count;
  }

  lemma ExecParents(s: State, a: Asid)
    requires Parents(s) && PcOf(s, a).ExecP?
    ensures Parents(GoStep(s, a))
  {
    hide Count;
    forall b: Asid
      ensures Count(s.shellQueue + [a], b) == Count(s.shellQueue, b) + One(a == b)
    {
      CountSplit(s.shellQueue, [a], b);
      CountOne(a, b);
    }
  }

  lemma SignalParents(s: State, a: Asid)
    requires Parents(s) && PcOf(s, a) == Signal
    ensures Parents(SignalEnd(s, a))
  {
    hide Count;
    SignalMoves(s, a);
    if s.shellQueue != [] {
      forall b: Asid
        ensures Count(s.shellQueue, b) == One(s.shellQueue[0] == b) + Count(s.shellQueue[1..], b)
      {
        CountHead(s.shellQueue, b);
      }
    }
  }

  lemma ExitParents(s: State, a: Asid, next: Pc)
    requires Mutex(s) && Parents(s) && s.owner == Some(a) && !Queued(next) && !next.ExecQ? && !PcOf(s, a).ExecQ?
    ensures Parents(Exit(s, a, next))
  {
    hide Inside, Queued, Count, OnlyMoved, Mutex, Admitted, Parents;
    var s1 := Goto(s, a, next).(swapPoolSem := s.swapPoolSem + 1, owner := None);
    var r := Exit(s, a, next);
    ExitMoves(s, a, next);
    MovedParents(s, s1, a, next);
    if s1.swapPoolSem <= 0 && s.swapQueue != [] {
      var h := s.swapQueue[0];
      QueuedNotParent(PcOf(s1, h));
      MovedParents(s1, r, h, Admitted(PcOf(s1, h)));
    }
  }

  lemma QueuedNotParent(pc: Pc)
    requires Queued(pc)
    ensures !pc.ExecQ? && !Admitted(pc).ExecQ?
  {
  }

  lemma GoParents(s: State, a: Asid)
    requires Mutex(s) && Parents(s) && CanGo(PcOf(s, a))
    ensures Parents(GoStep(s, a))
  {
    hide Mutex, Enter, Exit, SignalEnd, Parents, FlashStep, Choose, Inside, Queued, OnlyMoved, Keeps;
    var pc := PcOf(s, a);
    KindsOf(pc);
    GoCalls(s, a);
    if pc.PagerP? {
      EnterMoves(s, a, PagerQ(pc.page), PagerIn(pc.page));
      MovedParents(s, GoStep(s, a), a, PcOf(GoStep(s, a), a));
    } else if pc.TermP? {
      EnterMoves(s, a, TermQ, TermLoop(0));
      MovedParents(s, GoStep(s, a), a, PcOf(GoStep(s, a), a));
    } else if pc.Leave? || pc.Abort? || pc.TermV? {
      OwnerIs(s, a);
      ExitParents(s, a, if pc.Leave? then User else if pc.Abort? then TermP else Signal);
    } else if pc.Signal? {
      SignalParents(s, a);
    } else if pc.ExecP? {
      ExecParents(s, a);
    } else {
      PlainParents(s, a);
    }
  }

  lemma PlainParents(s: State, a: Asid)
    requires Parents(s) && Plain(PcOf(s, a)) && !PcOf(s, a).ExecP?
    ensures Parents(GoStep(s, a))
  {
    hide GoStep, Parents, OnlyMoved, Inside, Queued;
    var r := GoStep(s, a);
    PlainGo(s, a);
    GoCalls(s, a);
    if !PcOf(s, a).Flash? {
      PlainKeeps(s, a);
    } else {
      FlashKeeps(s, a);
    }
    MovedParents(s, r, a, PcOf(r, a));
  }

  lemma FlashKeeps(s: State, a: Asid)
    requires PcOf(s, a).Flash? && !PcOf(s, a).stage.Busy?
    ensures var r := FlashStep(s, a, PcOf(s, a)); r.shellQueue == s.shellQueue && !PcOf(r, a).ExecQ?
  {
  }

  // ---------------------------------------------------------------- every event

  lemma GoInv(s: State, a: Asid)
    requires Inv(s) && CanGo(PcOf(s, a))
    ensures Inv(GoStep(s, a))
  {
    hide Mutex, Parents, FlashFree, Memory, Fifo, GoStep;
    GoMutex(s, a);
    GoParents(s, a);
    GoFlash(s, a);
    GoMemory(s, a);
  }

  /** No program counter and no semaphore changes. */
  ghost predicate SameControl(s: State, r: State) {
    && r.pcs == s.pcs && r.owner == s.owner && r.swapPoolSem == s.swapPoolSem && r.swapQueue == s.swapQueue
    && r.shellQueue == s.shellQueue && r.flashMutex == s.flashMutex && r.fifoNext == s.fifoNext
    && r.choices == s.choices
  }

  lemma SameControlInv(s: State, r: State)
    requires Inv(s) && SameControl(s, r)
    ensures Mutex(r) && Parents(r) && FlashFree(r) && Fifo(r)
  {
    hide Inside, Queued, Count, FrameOf, Memory;
    assert forall a: Asid :: PcOf(r, a) == PcOf(s, a);
    assert forall d: Asid :: MutexOf(r, d) == MutexOf(s, d) && Holding(r, d) == Holding(s, d);
  }

  /** Accesses, and changes of memory that page tables and swap pool do not see. */
  lemma ContentInv(s: State, r: State)
    requires Inv(s) && SameControl(s, r) && r.swap == s.swap && r.ptes == s.ptes && r.tlb == s.tlb
    ensures Inv(r)
  {
    hide Mutex, Parents, FlashFree, Memory, Fifo, Harmless, Transit;
    SameControlInv(s, r);
    forall b: Asid
      ensures Harmless(PcOf(s, b), PcOf(r, b)) && Transit(r, b, PcOf(r, b))
    {
      HarmlessSame(PcOf(s, b));
      TransitOf(s, b);
      TransitSame(s, r, b, PcOf(s, b));
    }
    ControlMemory(s, r);
  }

  /** The TLB may lose entries and take the present page table entry of a page. */
  lemma TlbInv(s: State, r: State)
    requires Inv(s) && SameControl(s, r) && r.swap == s.swap && r.ptes == s.ptes
    requires forall v :: v in r.tlb ==> (v in s.tlb && r.tlb[v] == s.tlb[v]) || r.tlb[v] == PteOf(s, v)
    ensures Inv(r)
  {
    hide Mutex, Parents, FlashFree, Fifo, Transit, FaultPage, OwnsFrom, Active, Inside;
    SameControlInv(s, r);
    assert forall b: Asid :: PcOf(r, b) == PcOf(s, b);
    forall b: Asid
      ensures Transit(r, b, PcOf(r, b))
    {
      TransitOf(s, b);
      TransitSame(s, r, b, PcOf(s, b));
    }
    forall i: Frame | !Free(r.swap[i])
      ensures Owns(r, r.swap[i], i)
    {
      assert Owns(s, s.swap[i], i);
    }
    forall v: Vpage
      ensures PteOf(r, v) == PteOf(s, v)
    {
    }
  }

  /** A process outside the swap pool moves to another place outside it. */
  lemma OutsideInv(s: State, a: Asid, pc: Pc)
    requires Inv(s) && PcOf(s, a) == User && pc in {PagerP(None), TermP}
    ensures Inv(Goto(s, a, pc))
  {
    var r := Goto(s, a, pc);
    PcsMoved(s, r, a, pc);
    hide Mutex, Parents, FlashFree, Memory, Fifo, OnlyMoved, Goto;
    MoveMutex(s, r, a, pc);
    MovedParents(s, r, a, pc);
    MovedFlash(s, r, a, pc);
    MovedInv(s, r, a, pc);
  }

  /** A fault on an entry that is in the TLB and invalid: the page table entry is invalid too. */
  lemma FaultInv(s: State, a: Asid, page: Page)
    requires Inv(s) && Enabled(s, Fault(a, page))
    ensures Inv(Goto(s, a, PagerP(Some(page)))) && !PteOf(s, Vpage(a, page)).valid
  {
    var pc := PagerP(Some(page));
    var r := Goto(s, a, pc);
    FaultImpliesInvalid(s, a, page);
    PcsMoved(s, r, a, pc);
    hide Mutex, Parents, FlashFree, Fifo, Memory, OnlyMoved;
    MoveMutex(s, r, a, pc);
    MovedParents(s, r, a, pc);
    MovedFlash(s, r, a, pc);
    SameFifo(s, r);
    FaultMemory(s, a, page);
  }

  lemma FaultImpliesInvalid(s: State, a: Asid, page: Page)
    requires Inv(s) && Enabled(s, Fault(a, page))
    ensures !PteOf(s, Vpage(a, page)).valid
  {
    assert Agree(s.tlb[Vpage(a, page)], PteOf(s, Vpage(a, page)));
  }

  lemma FaultMemory(s: State, a: Asid, page: Page)
    requires Memory(s) && PcOf(s, a) == User && !PteOf(s, Vpage(a, page)).valid
    ensures Memory(Goto(s, a, PagerP(Some(page))))
  {
    var r := Goto(s, a, PagerP(Some(page)));
    forall b: Asid
      ensures Transit(r, b, PcOf(r, b))
    {
      TransitOf(s, b);
      TransitSame(s, r, b, PcOf(s, b));
    }
    forall w: Vpage
      ensures PteOf(r, w) == PteOf(s, w) && (Present(r, w) ==> Names(r.swap[PteOf(r, w).frame], w))
    {
      assert Present(s, w) ==> Names(s.swap[PteOf(s, w).frame], w);
    }
  }

  /** The device works, or reports. */
  lemma DeviceInv(s: State, r: State, a: Asid, stage: Stage)
    requires Inv(s) && PcOf(s, a).Flash? && PcOf(s, a).stage.Busy? && (stage.Busy? || stage.Unlock?)
    requires var s1 := Goto(s, a, PcOf(s, a).(stage := stage)); r == s1.(frames := r.frames, flash := r.flash)
    ensures Inv(r)
  {
    var pc := PcOf(s, a).(stage := stage);
    PcsMoved(s, r, a, pc);
    DeviceQuiet(s, a, PcOf(s, a), stage);
    DeviceFlash(s, r, a, stage);
    hide Mutex, Parents, FlashFree, Memory, Fifo, OnlyMoved, Harmless, Transit;
    TransitOf(s, a);
    MoveMutex(s, r, a, pc);
    MovedParents(s, r, a, pc);
    MovedInv(s, r, a, pc);
  }

  lemma DeviceQuiet(s: State, a: Asid, pc: Pc, stage: Stage)
    requires pc.Flash?
    ensures Harmless(pc, pc.(stage := stage)) && Transit(s, a, pc) == Transit(s, a, pc.(stage := stage))
    ensures FrameOf(pc.(stage := stage)) == FrameOf(pc)
  {
  }

  lemma DeviceFlash(s: State, r: State, a: Asid, stage: Stage)
    requires Mutex(s) && FlashFree(s) && PcOf(s, a).Flash? && PcOf(s, a).stage.Busy? && (stage.Busy? || stage.Unlock?)
    requires var s1 := Goto(s, a, PcOf(s, a).(stage := stage)); r == s1.(frames := r.frames, flash := r.flash)
    ensures FlashFree(r)
  {
    OwnerIs(s, a);
    PcsMoved(s, r, a, PcOf(s, a).(stage := stage));
    hide Mutex, PcOf;
    forall d: Asid
      ensures Holding(s, d) == Holding(r, d)
    {
    }
    SameFlash(s, r);
  }

  /** A launch, as the other processes see it: one that was gone is running. */
  lemma LaunchInv(s: State, c: Asid)
    requires Inv(s) && Launchable(s, c)
    ensures Inv(LaunchUproc(s, c))
  {
    var r := LaunchUproc(s, c);
    PcsMoved(s, r, c, User);
    assert r.owner == s.owner && r.swapPoolSem == s.swapPoolSem && r.swapQueue == s.swapQueue
    && r.shellQueue == s.shellQueue
           && r.flashMutex == s.flashMutex && r.fifoNext == s.fifoNext && r.choices == s.choices;
    hide Mutex, Parents, FlashFree, Memory, Fifo, OnlyMoved, LaunchUproc;
    MoveMutex(s, r, c, User);
    MovedParents(s, r, c, User);
    MovedFlash(s, r, c, User);
    MovedFifo(s, r, c, User);
    LaunchMemory(s, c);
  }

  lemma MovedFifo(s: State, r: State, a: Asid, pc: Pc)
    requires Fifo(s) && OnlyMoved(s, r, a, pc) && r.fifoNext == s.fifoNext && r.choices == s.choices
             && FrameOf(pc).None?
    ensures Fifo(r)
  {
    hide Fifo, PcOf, FrameOf;
    SameFifo(s, r);
  }

  /** The caller of EXECUTE goes on to its P. */
  lemma ExecuteInv(s: State, a: Asid, c: Asid)
    requires Inv(s) && PcOf(s, a) == User
    ensures Inv(Goto(s, a, ExecP(c)))
  {
    var r := Goto(s, a, ExecP(c));
    PcsMoved(s, r, a, ExecP(c));
    hide Mutex, Parents, FlashFree, Memory, Fifo, OnlyMoved, Goto;
    MoveMutex(s, r, a, ExecP(c));
    MovedParents(s, r, a, ExecP(c));
    MovedFlash(s, r, a, ExecP(c));
    MovedInv(s, r, a, ExecP(c));
  }

  /** Every step keeps the invariant, flash errors included. */
  lemma StepInv(s: State, e: Event)
    requires Inv(s) && Enabled(s, e)
    ensures Inv(Step(s, e))
  {
    hide Inv, LaunchUproc, GoStep;
    match e
    case Load(_, _, _) => {}
    case Store(_, _, _, _) => ContentInv(s, Step(s, e));
    case Refill(_, _) => TlbInv(s, Step(s, e));
    case Fault(a, page) => FaultInv(s, a, page);
    case BadFault(a) => OutsideInv(s, a, PagerP(None));
    case Trap(a) => OutsideInv(s, a, TermP);
    case Execute(a, child) =>
      LaunchInv(s, child);
      StillUser(s, a, child);
      ExecuteInv(LaunchUproc(s, child), a, child);
    case Launch(child) => LaunchInv(s, child);
    case Drop(_) => TlbInv(s, Step(s, e));
    case Go(a) => GoInv(s, a);
    case Move(a) => DeviceInv(s, Step(s, e), a, Busy(true));
    case Done(a, ready) => DeviceInv(s, Step(s, e), a, Unlock(ready));
    case Await => ContentInv(s, Step(s, e));
  }

  lemma StillUser(s: State, a: Asid, c: Asid)
    requires PcOf(s, a) == User && a != c
    ensures PcOf(LaunchUproc(s, c), a) == User
  {
  }

  lemma StartInv(frames: Frames, flash: map<Vpage, Content>)
    ensures Inv(Start(frames, flash))
  {
    var s := Start(frames, flash);
    forall a: Asid
      ensures Count(s.swapQueue, a) == 0 && Count(s.shellQueue, a) == 0
    {
      CountIn(s.swapQueue, a);
      CountIn(s.shellQueue, a);
    }
  }
}
