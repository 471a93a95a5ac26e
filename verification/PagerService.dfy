/** What a U-proc's exceptions lead to, however others interfere: a page fault is served or ends in
    a failed flash operation, an access outside the logical space and a trap end the U-proc. */
module PagerService {
  import opened Queues
  import opened Vm
  import opened VmInvariant
  import opened Paging
  import opened Residency

  // ---------------------------------------------------------------- whose step it is

  /** The process that an event moves by itself. */
  function Mover(e: Event): Option<Asid> {
    match e
    case Fault(a, _) => Some(a)
    case BadFault(a) => Some(a)
    case Trap(a) => Some(a)
    case Execute(a, _) => Some(a)
    case Go(a) => Some(a)
    case Move(a) => Some(a)
    case Done(a, _) => Some(a)
    case _ => None
  }

  predicate Launches(e: Event, b: Asid) {
    (e.Execute? || e.Launch?) && e.child == b
  }

  /** Where the P of a waiting process has returned to: the pager goes on with the page it was
      called for, termination starts its loop. */
  predicate HandedOver(pc: Pc, next: Pc) {
    || (pc.PagerQ? && next == PagerIn(pc.page))
    || (pc.TermQ? && next == TermLoop(0))
    || (pc.ExecQ? && next == User)
  }

  /** An event of another process moves `b` only where `b` waits, and then to where its P returns. */
  lemma OthersMove(s: State, e: Event, b: Asid)
    requires Inv(s) && Enabled(s, e) && Mover(e) != Some(b) && !Launches(e, b)
    ensures PcOf(Step(s, e), b) == PcOf(s, b) || (e.Go? && HandedOver(PcOf(s, b), PcOf(Step(s, e), b)))
  {
    hide Inv, GoStep, Launchable, CanGo, HandedOver, PteOf, BlockOf;
    if e.Go? { OthersGo(s, e.a, b); }
  }

  lemma OthersGo(s: State, a: Asid, b: Asid)
    requires Inv(s) && CanGo(PcOf(s, a)) && a != b
    ensures PcOf(GoStep(s, a), b) == PcOf(s, b) || HandedOver(PcOf(s, b), PcOf(GoStep(s, a), b))
  {
    hide Mutex, FlashFree, Memory, Fifo, Enter, Parents, Exit, SignalEnd, FlashStep, Choose, OnlyMoved, Inside, Queued,
         HandedOver, GoStep, CanGo;
    var pc := PcOf(s, a);
    KindsOf(pc);
    GoForms(s, a);
    if pc.PagerP? {
      EnterMoves(s, a, PagerQ(pc.page), PagerIn(pc.page));
      MovedElse(s, GoStep(s, a), a, PcOf(GoStep(s, a), a), b);
    } else if pc.TermP? {
      EnterMoves(s, a, TermQ, TermLoop(0));
      MovedElse(s, GoStep(s, a), a, PcOf(GoStep(s, a), a), b);
    } else if pc.Leave? || pc.Abort? || pc.TermV? {
      OwnerIs(s, a);
      ExitHands(s, a, if pc.Leave? then User else if pc.Abort? then TermP else Signal, b);
    } else if pc.Signal? {
      SignalHands(s, a, b);
    } else {
      PlainGo(s, a);
      MovedElse(s, GoStep(s, a), a, PcOf(GoStep(s, a), a), b);
    }
  }

  lemma ExitHands(s: State, a: Asid, next: Pc, b: Asid)
    requires Mutex(s) && s.owner == Some(a) && !Queued(next) && a != b
    ensures PcOf(Exit(s, a, next), b) == PcOf(s, b) || HandedOver(PcOf(s, b), PcOf(Exit(s, a, next), b))
  {
    hide Mutex, Inside, Exit;
    ExitMoves(s, a, next);
  }

  lemma SignalHands(s: State, a: Asid, b: Asid)
    requires Parents(s) && PcOf(s, a) == Signal && a != b
    ensures PcOf(SignalEnd(s, a), b) == PcOf(s, b) || HandedOver(PcOf(s, b), PcOf(SignalEnd(s, a), b))
  {
    hide Parents, SignalEnd;
    SignalMoves(s, a);
  }

  // ---------------------------------------------------------------- the pager keeps its page

  /** The page the pager is at work for; `Some(None)` for a fault outside the logical space. */
  function Serving(pc: Pc): Option<Option<Page>> {
    match pc
    case PagerP(page) => Some(page)
    case PagerQ(page) => Some(page)
    case PagerIn(page) => Some(page)
    case Evict(p, _) => Some(Some(p))
    case Flash(_, p, _, _, _, _) => Some(Some(p))
    case Claim(p, _) => Some(Some(p))
    case Map(p, _) => Some(Some(p))
    case _ => None
  }

  /** A flash operation of the pager has failed. */
  predicate Failed(pc: Pc) {
    pc.Flash? && pc.stage == Unlock(false)
  }

  /** How the pager stops serving a page: published, or given up. */
  predicate Served(s: State, e: Event, r: State, b: Asid, page: Option<Page>) {
    && e == Go(b)
    && if page.None? then PcOf(s, b) == PagerIn(None) && PcOf(r, b) == Abort
       else || (PcOf(s, b).Map? && PcOf(r, b) == Leave && PteOf(r, Vpage(b, page.value)) == Pte(true, PcOf(s, b).i))
            || (Failed(PcOf(s, b)) && PcOf(r, b) == Abort)
  }

  /** Through every event, its own and others', a pager serves the page it was called for until that
      page is published, or until a flash operation of its own has failed. A pager called for an
      address outside the logical space gives up. */
  lemma StepServes(s: State, e: Event, b: Asid)
    requires Inv(s) && Enabled(s, e) && Serving(PcOf(s, b)).Some?
    ensures Serving(PcOf(Step(s, e), b)) == Serving(PcOf(s, b))
            || Served(s, e, Step(s, e), b, Serving(PcOf(s, b)).value)
    ensures Failed(PcOf(Step(s, e), b)) <==> (e == Done(b, false) || (e != Go(b) && Failed(PcOf(s, b))))
    ensures Failed(PcOf(s, b)) && e == Go(b) ==> PcOf(Step(s, e), b) == Abort
  {
    if Mover(e) == Some(b) {
      if e.Go? {
        GoServes(s, b);
        GoIsStep(s, b);
      } else {
        DeviceServes(s, e, b);
      }
    } else {
      ServingLives(s, e, b);
      hide Inv, Step, Enabled, PcOf;
      OthersMove(s, e, b);
    }
  }

  lemma ServingLives(s: State, e: Event, b: Asid)
    requires Enabled(s, e) && Serving(PcOf(s, b)).Some?
    ensures !Launches(e, b)
  {
  }

  lemma DeviceServes(s: State, e: Event, b: Asid)
    requires Enabled(s, e) && Serving(PcOf(s, b)).Some? && Mover(e) == Some(b) && !e.Go?
    ensures Serving(PcOf(Step(s, e), b)) == Serving(PcOf(s, b)) && !Failed(PcOf(s, b))
    ensures Failed(PcOf(Step(s, e), b)) <==> e == Done(b, false)
  {
    hide BlockOf;
  }

  lemma GoServes(s: State, b: Asid)
    requires Inv(s) && CanGo(PcOf(s, b)) && Serving(PcOf(s, b)).Some?
    ensures var r := GoStep(s, b);
            && !Failed(PcOf(r, b)) && (Failed(PcOf(s, b)) ==> PcOf(r, b) == Abort)
            && (Serving(PcOf(r, b)) == Serving(PcOf(s, b)) || Served(s, Go(b), r, b, Serving(PcOf(s, b)).value))
  {
    hide Inv, Enter, FlashStep, Choose;
    var pc := PcOf(s, b);
    if pc.PagerP? {
      EnterMoves(s, b, PagerQ(pc.page), PagerIn(pc.page));
    } else if pc.Flash? {
      FlashMutexIs(s, b);
      FlashServes(s, b);
    } else if pc.PagerIn? && pc.page.Some? {
      ChooseServes(s, b, pc.page.value);
    } else {
      PageServes(s, b);
    }
  }

  lemma FlashServes(s: State, b: Asid)
    requires PcOf(s, b).Flash? && !PcOf(s, b).stage.Busy?
    requires MutexOf(s, PcOf(s, b).dev) == if PcOf(s, b).stage == Lock then 1 else 0
    ensures var pc := PcOf(s, b);
            var next := PcOf(FlashStep(s, b, pc), b);
            !Failed(next) && if Failed(pc) then next == Abort else Serving(next) == Serving(pc)
  {
    hide MutexOf;
  }

  lemma ChooseServes(s: State, b: Asid, p: Page)
    ensures Serving(PcOf(Choose(s, b, p), b)) == Some(Some(p)) && !Failed(PcOf(Choose(s, b, p), b))
  {
  }

  lemma PageServes(s: State, b: Asid)
    requires PcOf(s, b) == PagerIn(None) || PcOf(s, b).Evict? || PcOf(s, b).Claim? || PcOf(s, b).Map?
    ensures var r := GoStep(s, b);
            && !Failed(PcOf(r, b))
            && (Serving(PcOf(r, b)) == Serving(PcOf(s, b)) || Served(s, Go(b), r, b, Serving(PcOf(s, b)).value))
  {
  }

  // ---------------------------------------------------------------- from the fault to the last V

  /** Between a page fault and the V that ends the pager. */
  predicate InPager(pc: Pc) {
    Serving(pc).Some? || pc.Leave? || pc.Abort?
  }

  /** `b` is in the pager in every state of the run but the last. */
  ghost predicate StaysInPager(s: State, es: seq<Event>, b: Asid)
    decreases |es|
  {
    es != [] && Enabled(s, es[0]) ==> InPager(PcOf(s, b)) && StaysInPager(Step(s, es[0]), es[1..], b)
  }

  /** Where a pager called for `page` is, and what it has brought about so far: after a failed
      operation and for a page outside, on its way out; else at work, or done. */
  ghost predicate OnCourse(s: State, b: Asid, page: Option<Page>, failed: bool) {
    var pc := PcOf(s, b);
    if failed then Failed(pc) || pc == Abort || pc == TermP
    else if page.None? then Serving(pc) == Some(None) || pc == Abort || pc == TermP
    else || (Serving(pc) == Some(page) && !Failed(pc))
         || ((pc == Leave || pc == User) && PteOf(s, Vpage(b, page.value)).valid)
  }

  lemma StepOnCourse(s: State, e: Event, b: Asid, page: Option<Page>, failed: bool)
    requires Inv(s) && Enabled(s, e) && OnCourse(s, b, page, failed) && InPager(PcOf(s, b))
    ensures OnCourse(Step(s, e), b, page, failed || e == Done(b, false))
  {
    hide Inv, Step, Enabled, PcOf, PteOf;
    if Serving(PcOf(s, b)).Some? {
      StepServes(s, e, b);
      NoneNeverFlashes(PcOf(s, b), s, e, b);
    } else {
      OutOnCourse(s, e, b, page, failed);
    }
  }

  lemma OutOnCourse(s: State, e: Event, b: Asid, page: Option<Page>, failed: bool)
    requires Inv(s) && Enabled(s, e) && OnCourse(s, b, page, failed) && (PcOf(s, b).Leave? || PcOf(s, b).Abort?)
    ensures OnCourse(Step(s, e), b, page, failed) && e != Done(b, false)
  {
    hide Inv, Step, Enabled, PcOf, PteOf, GoStep, CanGo;
    if e == Go(b) {
      WayOut(s, b);
      LeavesPager(s, b);
      GoIsStep(s, b);
    } else {
      NotOwn(s, e, b);
      OthersMove(s, e, b);
      if PcOf(s, b).Leave? { PublishedStays(s, e, b, page); }
    }
  }

  lemma WayOut(s: State, b: Asid)
    requires PcOf(s, b).Leave? || PcOf(s, b).Abort?
    ensures CanGo(PcOf(s, b))
  {
  }

  lemma NoneNeverFlashes(pc: Pc, s: State, e: Event, b: Asid)
    requires PcOf(s, b) == pc && Enabled(s, e)
    ensures e == Done(b, false) ==> pc.Flash? && Serving(pc) == Some(Some(pc.p)) && !Failed(pc)
  {
  }

  lemma NotOwn(s: State, e: Event, b: Asid)
    requires Enabled(s, e) && (PcOf(s, b).Leave? || PcOf(s, b).Abort?) && e != Go(b)
    ensures Mover(e) != Some(b) && !Launches(e, b) && e != Done(b, false)
  {
  }

  lemma LeavesPager(s: State, b: Asid)
    requires Inv(s) && (PcOf(s, b).Leave? || PcOf(s, b).Abort?)
    ensures PcOf(GoStep(s, b), b) == if PcOf(s, b).Leave? then User else TermP
    ensures forall v: Vpage :: PteOf(GoStep(s, b), v) == PteOf(s, v)
  {
    hide Parents, FlashFree, Memory, Fifo, Exit, Inside;
    OwnerIsPc(s, b) by { KindsOf(PcOf(s, b)); }
    var next := if PcOf(s, b).Leave? then User else TermP;
    ExitSelf(s, b, next);
    forall v: Vpage { PteSame(s, Exit(s, b, next), v); }
  }

  lemma ExitSelf(s: State, b: Asid, next: Pc)
    requires Mutex(s) && s.owner == Some(b) && !Queued(next)
    ensures PcOf(Exit(s, b, next), b) == next && Exit(s, b, next).ptes == s.ptes
  {
    hide Mutex, Inside, Queued, Exit, Admitted;
    ExitMoves(s, b, next);
  }

  /** Until the pager's V nobody takes away the page it has published. */
  lemma PublishedStays(s: State, e: Event, b: Asid, page: Option<Page>)
    requires Inv(s) && Enabled(s, e) && PcOf(s, b) == Leave && page.Some? && PteOf(s, Vpage(b, page.value)).valid
    ensures PteOf(Step(s, e), Vpage(b, page.value)).valid
  {
    hide Parents, FlashFree, Memory, Fifo, Step, Enabled, Inside;
    LeaveAlone(s, b);
    PteKept(s, e, Vpage(b, page.value));
  }

  lemma LeaveAlone(s: State, b: Asid)
    requires Mutex(s) && PcOf(s, b) == Leave
    ensures forall a: Asid :: !PcOf(s, a).Evict?
  {
    Alone(s, b);
  }

  lemma {:induction false} RunOnCourse(s: State, es: seq<Event>, t: State, b: Asid, page: Option<Page>, failed: bool)
    requires Inv(s) && Run(s, es, t) && OnCourse(s, b, page, failed) && StaysInPager(s, es, b)
    ensures OnCourse(t, b, page, failed || Done(b, false) in es)
    decreases |es|
  {
    hide Inv, Step, Enabled, OnCourse, InPager, PcOf;
    if es != [] {
      StepOnCourse(s, es[0], b, page, failed);
      StepInv(s, es[0]);
      RunOnCourse(Step(s, es[0]), es[1..], t, b, page, failed || es[0] == Done(b, false));
      assert es == [es[0]] + es[1..];
    }
  }

  /** A page fault, over any interleaving, up to the V that ends the pager: if no flash operation of
      the pager failed the U-proc goes on and the page it faulted on is present, otherwise the
      U-proc is on its way to its end. */
  lemma FaultServed(s: State, es: seq<Event>, t: State, b: Asid, p: Page)
    requires Inv(s) && Enabled(s, Fault(b, p)) && Run(Step(s, Fault(b, p)), es, t)
    requires StaysInPager(Step(s, Fault(b, p)), es, b) && !InPager(PcOf(t, b))
    ensures if Done(b, false) in es then PcOf(t, b) == TermP
            else PcOf(t, b) == User && PteOf(t, Vpage(b, p)).valid
  {
    StepInv(s, Fault(b, p));
    assert OnCourse(Step(s, Fault(b, p)), b, Some(p), false);
    hide Inv, Run, StaysInPager, Step, Enabled, PcOf, PteOf;
    RunOnCourse(Step(s, Fault(b, p)), es, t, b, Some(p), false);
  }

  /** An access outside the logical space ends the U-proc, without any flash operation. */
  lemma BadFaultServed(s: State, es: seq<Event>, t: State, b: Asid)
    requires Inv(s) && Enabled(s, BadFault(b)) && Run(Step(s, BadFault(b)), es, t)
    requires StaysInPager(Step(s, BadFault(b)), es, b) && !InPager(PcOf(t, b))
    ensures PcOf(t, b) == TermP
  {
    StepInv(s, BadFault(b));
    assert OnCourse(Step(s, BadFault(b)), b, None, false);
    hide Inv, Run, StaysInPager, Step, Enabled, PcOf, PteOf;
    RunOnCourse(Step(s, BadFault(b)), es, t, b, None, false);
  }

  // ---------------------------------------------------------------- an access, through the TLB

  /** Only the TLB differs, and there only the entry of `v`. */
  ghost predicate OnlyEntry(s: State, r: State, v: Vpage) {
    r == s.(tlb := r.tlb) && r.tlb - {v} == s.tlb - {v}
  }

  /** An access of a running U-proc. With an entry in the TLB it reaches the frame the page table
      names, or faults, as the page is present or not. Without one the refill comes first: it
      changes that entry alone, and the access then does what the page table says. An entry that is
      replaced makes the next access a refill again. */
  lemma AccessExact(s: State, a: Asid, p: Page, off: nat)
    requires Inv(s) && PcOf(s, a) == User && off < PAGEWORDS
    ensures var v := Vpage(a, p);
            var present := PteOf(s, v).valid;
            && (v in s.tlb ==>
                  && !Enabled(s, Refill(a, p)) && (Enabled(s, Load(a, p, off)) <==> present)
                  && (Enabled(s, Fault(a, p)) <==> !present)
                  && (present ==> Loaded(s, Load(a, p, off)) == s.frames[PteOf(s, v).frame][off])
                  && OnlyEntry(s, Step(s, Drop(v)), v) && Enabled(Step(s, Drop(v)), Refill(a, p)))
            && (v !in s.tlb ==>
                  && Enabled(s, Refill(a, p)) && !Enabled(s, Load(a, p, off)) && !Enabled(s, Fault(a, p))
                  && var r := Step(s, Refill(a, p));
                     && OnlyEntry(s, r, v) && (Enabled(r, Load(a, p, off)) <==> present)
                     && (Enabled(r, Fault(a, p)) <==> !present)
                     && (present ==> Loaded(r, Load(a, p, off)) == s.frames[PteOf(s, v).frame][off]))
  {
    hide Mutex, Parents, FlashFree, Exclusive, Faulting, Transits, Fifo;
    var v := Vpage(a, p);
    if v in s.tlb {
      assert Agree(s.tlb[v], PteOf(s, v));
    }
  }

  // ---------------------------------------------------------------- from a trap to the end

  /** How far a terminating U-proc has got. */
  function Progress(pc: Pc): nat {
    match pc
    case TermP => 1
    case TermQ => 2
    case TermLoop(j) => 3 + if j < SWAP_POOL_SIZE then j else SWAP_POOL_SIZE
    case TermV => 4 + SWAP_POOL_SIZE
    case Signal => 5 + SWAP_POOL_SIZE
    case Gone => 6 + SWAP_POOL_SIZE
    case _ => 0
  }

  /** A terminating U-proc never turns back: each event leaves it where it is or takes it further,
      one frame at a time, and a step of its own that is not a P that waits takes it further. */
  lemma StepEnds(s: State, e: Event, b: Asid)
    requires Inv(s) && Enabled(s, e) && Progress(PcOf(s, b)) > 0 && !Launches(e, b)
    ensures Progress(PcOf(Step(s, e), b)) >= Progress(PcOf(s, b))
    ensures e == Go(b) ==> Progress(PcOf(Step(s, e), b)) > Progress(PcOf(s, b))
    ensures PcOf(s, b).TermLoop? && e == Go(b) ==>
              PcOf(Step(s, e), b) == if PcOf(s, b).j < SWAP_POOL_SIZE then TermLoop(PcOf(s, b).j + 1) else TermV
    ensures PcOf(s, b).TermV? && e == Go(b) ==> PcOf(Step(s, e), b) == Signal
    ensures PcOf(s, b).Signal? && e == Go(b) ==> PcOf(Step(s, e), b) == Gone
  {
    hide Inv, Step, GoStep, Enabled, PcOf, CanGo;
    if Mover(e) == Some(b) {
      EndsByGo(s, e, b);
      GoEnds(s, b);
      GoIsStep(s, b);
    } else {
      OthersMove(s, e, b);
    }
  }

  lemma EndsByGo(s: State, e: Event, b: Asid)
    requires Enabled(s, e) && Progress(PcOf(s, b)) > 0 && Mover(e) == Some(b)
    ensures e == Go(b) && CanGo(PcOf(s, b))
  {
  }

  lemma GoEnds(s: State, b: Asid)
    requires Inv(s) && CanGo(PcOf(s, b)) && Progress(PcOf(s, b)) > 0
    ensures PcOf(GoStep(s, b), b) == match PcOf(s, b)
                                     case TermP => if s.swapPoolSem - 1 < 0 then TermQ else TermLoop(0)
                                     case TermLoop(j) => if j < SWAP_POOL_SIZE then TermLoop(j + 1) else TermV
                                     case TermV => Signal
                                     case _ => Gone
  {
    hide Mutex, Parents, FlashFree, Memory, Fifo, Enter, Exit, SignalEnd, Inside;
    var pc := PcOf(s, b);
    if pc.TermP? {
      EnterMoves(s, b, TermQ, TermLoop(0));
    } else if pc.TermV? {
      KindsOf(pc);
      OwnerIs(s, b);
      ExitSelf(s, b, Signal);
    } else if pc.Signal? {
      SignalMoves(s, b);
    }
  }

  /** No launch of `b` along the run. */
  predicate NoLaunch(es: seq<Event>, b: Asid) {
    forall e :: e in es ==> !Launches(e, b)
  }

  /** A trap, or a SYS2, ends the U-proc: it never runs again before it is launched again, and when
      it is gone no swap pool entry is its own. */
  lemma {:induction false} RunEnds(s: State, es: seq<Event>, t: State, b: Asid)
    requires Inv(s) && Run(s, es, t) && NoLaunch(es, b) && Progress(PcOf(s, b)) > 0
    ensures Progress(PcOf(t, b)) >= Progress(PcOf(s, b)) && PcOf(t, b) != User
    ensures Progress(PcOf(t, b)) > 3 + SWAP_POOL_SIZE ==> forall i: Frame :: t.swap[i].asid != b
    decreases |es|
  {
    if es == [] {
      hide Mutex, Parents, FlashFree, Exclusive, Faulting, Transits, Coherent, Fifo, Step, Enabled;
      if Progress(PcOf(s, b)) > 3 + SWAP_POOL_SIZE {
        forall i: Frame { SlotOfDead(s, i, b); }
      }
    } else {
      assert es[0] in es;
      StepEnds(s, es[0], b);
      StepInv(s, es[0]);
      hide Inv, Step, Enabled, Progress, PcOf, Launches;
      RunEnds(Step(s, es[0]), es[1..], t, b);
    }
  }

  lemma TrapEnds(s: State, es: seq<Event>, t: State, b: Asid)
    requires Inv(s) && Enabled(s, Trap(b)) && Run(Step(s, Trap(b)), es, t) && NoLaunch(es, b)
    ensures PcOf(Step(s, Trap(b)), b) == TermP && Progress(PcOf(t, b)) > 0 && PcOf(t, b) != User
    ensures PcOf(t, b) == Gone ==> forall i: Frame :: t.swap[i].asid != b
  {
    StepInv(s, Trap(b));
    hide Inv, Run, NoLaunch;
    RunEnds(Step(s, Trap(b)), es, t, b);
  }
}
