/** FIFO residency: a page stays in its frame until sixteen later frame choices have passed. */
module Residency {
  import opened Queues
  import opened Vm
  import opened VmInvariant
  import opened Paging

  // ---------------------------------------------------------------- frames are chosen, then kept

  /** Without a new choice no process gets a frame. */
  ghost predicate FramesKept(s: State, r: State) {
    && s.choices <= r.choices <= s.choices + 1
    && (r.choices == s.choices ==>
          forall b: Asid :: FrameOf(PcOf(r, b)).Some? ==> FrameOf(PcOf(r, b)) == FrameOf(PcOf(s, b)))
  }

  lemma MovedFrames(s: State, r: State, a: Asid, pc: Pc)
    requires OnlyMoved(s, r, a, pc) && r.choices == s.choices
             && (FrameOf(pc).None? || FrameOf(pc) == FrameOf(PcOf(s, a)))
    ensures FramesKept(s, r)
  {
    hide PcOf, FrameOf;
  }

  lemma EnterFrames(s: State, a: Asid, waiting: Pc, inside: Pc)
    requires FrameOf(waiting).None? && FrameOf(inside).None?
    ensures FramesKept(s, Enter(s, a, waiting, inside))
  {
    hide PcOf, FrameOf, OnlyMoved, FramesKept;
    EnterMoves(s, a, waiting, inside);
    MovedFrames(s, Enter(s, a, waiting, inside), a, if s.swapPoolSem - 1 < 0 then waiting else inside);
  }

  lemma ExitFrames(s: State, a: Asid, next: Pc)
    requires Mutex(s) && s.owner == Some(a) && !Queued(next) && FrameOf(next).None?
    ensures FramesKept(s, Exit(s, a, next))
  {
    hide Inside, Queued, Mutex, Admitted, FrameOf;
    ExitMoves(s, a, next);
    var s1 := Goto(s, a, next).(swapPoolSem := s.swapPoolSem + 1, owner := None);
    if s1.swapPoolSem <= 0 && s.swapQueue != [] {
      AdmittedActive(PcOf(s1, s.swapQueue[0]));
    }
  }

  lemma SignalFrames(s: State, a: Asid)
    requires Parents(s) && PcOf(s, a) == Signal
    ensures FramesKept(s, SignalEnd(s, a))
  {
    hide SignalEnd, PcOf, Parents;
    SignalMoves(s, a);
  }

  lemma PlainFrames(s: State, a: Asid)
    requires Plain(PcOf(s, a)) && !PcOf(s, a).Flash?
    ensures FramesKept(s, GoStep(s, a))
  {
    hide FramesKept, OnlyMoved, Inside, Queued;
    PlainGo(s, a);
    PlainChoice(s, a);
    hide GoStep;
    if PcOf(s, a).PagerIn? && PcOf(s, a).page.Some? {
      Chosen(s, GoStep(s, a));
    } else {
      MovedFrames(s, GoStep(s, a), a, PcOf(GoStep(s, a), a));
    }
  }

  lemma Chosen(s: State, r: State)
    requires r.choices == s.choices + 1
    ensures FramesKept(s, r)
  {
  }

  lemma PlainChoice(s: State, a: Asid)
    requires Plain(PcOf(s, a)) && !PcOf(s, a).Flash?
    ensures var r := GoStep(s, a);
            if PcOf(s, a).PagerIn? && PcOf(s, a).page.Some? then r.choices == s.choices + 1
            else r.choices == s.choices && (FrameOf(PcOf(r, a)).None? || FrameOf(PcOf(r, a)) == FrameOf(PcOf(s, a)))
  {
    hide PteOf;
  }

  lemma FlashFrames(s: State, a: Asid)
    requires PcOf(s, a).Flash? && !PcOf(s, a).stage.Busy?
    ensures FramesKept(s, FlashStep(s, a, PcOf(s, a)))
  {
    hide MutexOf, OnlyMoved, FramesKept;
    var r := FlashStep(s, a, PcOf(s, a));
    PcsMoved(s, r, a, FlashNext(s, a, PcOf(s, a)));
    MovedFrames(s, r, a, FlashNext(s, a, PcOf(s, a)));
  }

  lemma GoFrames(s: State, a: Asid)
    requires Inv(s) && CanGo(PcOf(s, a))
    ensures FramesKept(s, GoStep(s, a))
  {
    hide Mutex, FlashFree, Memory, Fifo, Enter, Exit, SignalEnd, Parents, FlashStep, Choose, Inside, Queued,
         FramesKept, FrameOf;
    var pc := PcOf(s, a);
    KindsOf(pc);
    GoCalls(s, a);
    NoFrames(pc);
    if pc.PagerP? {
      EnterFrames(s, a, PagerQ(pc.page), PagerIn(pc.page));
    } else if pc.TermP? {
      EnterFrames(s, a, TermQ, TermLoop(0));
    } else if pc.Leave? || pc.Abort? || pc.TermV? {
      OwnerIs(s, a);
      ExitFrames(s, a, if pc.Leave? then User else if pc.Abort? then TermP else Signal);
    } else if pc.Signal? {
      SignalFrames(s, a);
    } else if pc.Flash? {
      FlashFrames(s, a);
    } else {
      PlainFrames(s, a);
    }
  }

  lemma NoFrames(pc: Pc)
    ensures FrameOf(User).None? && FrameOf(TermP).None? && FrameOf(Signal).None?
    ensures FrameOf(TermQ).None? && FrameOf(TermLoop(0)).None?
    ensures pc.PagerP? ==> FrameOf(PagerQ(pc.page)).None? && FrameOf(PagerIn(pc.page)).None?
  {
  }

  lemma StepFrames(s: State, e: Event)
    requires Inv(s) && Enabled(s, e)
    ensures FramesKept(s, Step(s, e))
  {
    hide Mutex, FlashFree, Memory, Fifo, Parents, GoStep, Launchable;
    if e.Go? { GoFrames(s, e.a); }
  }

  // ---------------------------------------------------------------- who invalidates a page

  lemma GoPtes(s: State, a: Asid)
    requires CanGo(PcOf(s, a)) && !PcOf(s, a).Evict? && !PcOf(s, a).Map?
    ensures GoStep(s, a).ptes == s.ptes
  {
    hide Enter, Exit, SignalEnd, FlashStep, Choose;
    var pc := PcOf(s, a);
    if pc.PagerP? { EnterPtes(s, a, PagerQ(pc.page), PagerIn(pc.page)); }
    EnterPtes(s, a, TermQ, TermLoop(0));
    ExitPtes(s, a, User);
    ExitPtes(s, a, TermP);
    ExitPtes(s, a, Signal);
    SignalPtes(s, a);
    if pc.Flash? { FlashPtes(s, a, pc); }
    if pc.PagerIn? && pc.page.Some? { ChoosePtes(s, a, pc.page.value); }
  }

  lemma EnterPtes(s: State, a: Asid, pc: Pc, next: Pc)
    ensures Enter(s, a, pc, next).ptes == s.ptes
  {
    hide Goto;
    GotoPtes(s.(swapPoolSem := s.swapPoolSem - 1), a, pc);
    GotoPtes(s.(swapPoolSem := s.swapPoolSem - 1), a, next);
  }

  lemma GotoPtes(s: State, a: Asid, pc: Pc)
    ensures Goto(s, a, pc).ptes == s.ptes
  {
  }

  lemma ExitPtes(s: State, a: Asid, next: Pc)
    ensures Exit(s, a, next).ptes == s.ptes
  {
    hide PcOf, Admitted;
  }

  lemma SignalPtes(s: State, a: Asid)
    ensures SignalEnd(s, a).ptes == s.ptes
  {
  }

  lemma FlashPtes(s: State, a: Asid, pc: Pc)
    requires pc.Flash? && !pc.stage.Busy?
    ensures FlashStep(s, a, pc).ptes == s.ptes
  {
    hide MutexOf, FlashNext;
  }

  lemma ChoosePtes(s: State, a: Asid, p: Page)
    ensures Choose(s, a, p).ptes == s.ptes
  {
  }

  /** An eviction of the page: a pager chose a frame whose swap pool entry names it. */
  predicate Evicts(s: State, e: Event, v: Vpage) {
    e.Go? && PcOf(s, e.a).Evict? && s.swap[PcOf(s, e.a).i].pte == v
  }

  /** A page of a U-proc goes out of its frame by an eviction that names it, and by nothing else:
      in every run, flash errors included. */
  lemma PteKept(s: State, e: Event, v: Vpage)
    requires Inv(s) && Enabled(s, e) && !Dead(PcOf(s, v.asid)) && PteOf(s, v).valid
    ensures PteOf(Step(s, e), v) == PteOf(s, v) <==> !Evicts(s, e, v)
    ensures Evicts(s, e, v) ==> !PteOf(Step(s, e), v).valid
  {
    if e.Go? {
      GoKeeps(s, e.a, v);
    } else if e.Execute? {
      LaunchKeeps(s, e.child, v);
    } else if e.Launch? {
      LaunchKeeps(s, e.child, v);
    } else {
      assert Step(s, e).ptes == s.ptes;
      PteSame(s, Step(s, e), v);
    }
  }

  lemma GoKeeps(s: State, a: Asid, v: Vpage)
    requires Inv(s) && CanGo(PcOf(s, a)) && PteOf(s, v).valid
    ensures PteOf(GoStep(s, a), v) == PteOf(s, v) <==> !Evicts(s, Go(a), v)
    ensures Evicts(s, Go(a), v) ==> !PteOf(GoStep(s, a), v).valid
  {
    if PcOf(s, a).Evict? {
    } else if PcOf(s, a).Map? {
      MapKeeps(s, a, v);
    } else {
      GoPtes(s, a);
      PteSame(s, GoStep(s, a), v);
    }
  }

  lemma LaunchKeeps(s: State, c: Asid, v: Vpage)
    requires Launchable(s, c) && !Dead(PcOf(s, v.asid))
    ensures PteOf(LaunchUproc(s, c), v) == PteOf(s, v)
  {
  }

  lemma MapKeeps(s: State, a: Asid, v: Vpage)
    requires Inv(s) && PcOf(s, a).Map? && PteOf(s, v).valid
    ensures PteOf(GoStep(s, a), v) == PteOf(s, v)
  {
    assert !PteOf(s, Vpage(a, PcOf(s, a).p)).valid;
  }

  // ---------------------------------------------------------------- residency

  /** Page `v`, loaded by frame choice number `k` (counted from 0), is in its frame; at most
      sixteen choices were made since, and the chooser of `k` itself has left. */
  ghost predicate Resident(s: State, v: Vpage, k: nat) {
    && Active(PcOf(s, v.asid)) && PteOf(s, v) == Pte(true, k % SWAP_POOL_SIZE)
    && k + 1 <= s.choices <= k + SWAP_POOL_SIZE
    && (s.choices == k + 1 ==> forall b: Asid :: FrameOf(PcOf(s, b)).None?)
  }

  /** Publication makes a page resident. */
  lemma LoadedResident(s: State, a: Asid)
    requires Inv(s) && PcOf(s, a).Map?
    ensures s.choices >= 1 && Resident(GoStep(s, a), Vpage(a, PcOf(s, a).p), s.choices - 1)
  {
    Alone(s, a);
    hide Mutex, Parents, FlashFree, Memory;
    var r := GoStep(s, a);
    assert FrameOf(PcOf(s, a)).Some?;
    forall b: Asid
      ensures FrameOf(PcOf(r, b)).None?
    {
      FrameInside(PcOf(s, b));
    }
  }

  /** No swap pool entry names the page but that of its frame. */
  ghost predicate Sole(s: State, v: Vpage) {
    forall i: Frame :: !Free(s.swap[i]) && s.swap[i].pte == v ==> PteOf(s, v).frame == i
  }

  /** Which is to say that no flash error has left an entry behind that names it. */
  lemma SoleUntainted(s: State, v: Vpage)
    requires Inv(s) && PteOf(s, v).valid
    ensures Sole(s, v) <==> !Tainted(s, v)
  {
    hide Mutex, Parents, FlashFree, Fifo;
    forall i: Frame | !Free(s.swap[i]) && s.swap[i].pte == v
      ensures Stale(s, i) <==> PteOf(s, v).frame != i
    {
      if s.owner.Some? { TransitOf(s, s.owner.value); }
    }
  }

  /** Before choice `k + 16` is made, the chooser of the page's frame cannot be about to evict. */
  lemma NotYet(s: State, v: Vpage, k: nat, a: Asid)
    requires Fifo(s) && Resident(s, v, k) && PcOf(s, a).Evict?
    ensures PcOf(s, a).i != PteOf(s, v).frame
  {
    assert FrameOf(PcOf(s, a)) == Some(PcOf(s, a).i);
  }

  lemma SoleNotEvicted(s: State, e: Event, v: Vpage, k: nat)
    requires Inv(s) && Enabled(s, e) && Resident(s, v, k) && Sole(s, v)
    ensures !Evicts(s, e, v)
  {
    if e.Go? && PcOf(s, e.a).Evict? {
      NotYet(s, v, k, e.a);
      TransitOf(s, e.a);
    }
  }

  /** The swap pool gains no entry that names a page of a U-proc but by the claim of its frame. */
  lemma SwapKept(s: State, e: Event, i: Frame)
    requires Inv(s) && Enabled(s, e) && Step(s, e).swap[i] != s.swap[i]
    ensures e.Go?
    ensures if PcOf(s, e.a).Claim? then
              && i == PcOf(s, e.a).i && Step(s, e).swap[i].pte == Vpage(e.a, PcOf(s, e.a).p)
              && !PteOf(s, Vpage(e.a, PcOf(s, e.a).p)).valid
            else PcOf(s, e.a).TermLoop? && s.swap[i].asid == e.a && Free(Step(s, e).swap[i])
  {
    hide Mutex, Parents, FlashFree, Slots, Exclusive, Transits, Coherent, Fifo, GoStep, LaunchUproc;
    if e.Go? {
      GoSwap(s, e.a);
    } else if e.Execute? {
      LaunchSwap(s, e.child);
    } else if e.Launch? {
      LaunchSwap(s, e.child);
    }
  }

  lemma LaunchSwap(s: State, c: Asid)
    ensures LaunchUproc(s, c).swap == s.swap
  {
  }

  lemma GoSwap(s: State, a: Asid)
    requires CanGo(PcOf(s, a))
    ensures var r := GoStep(s, a);
            var pc := PcOf(s, a);
            forall i: Frame :: r.swap[i] == if pc.Claim? && i == pc.i then Slot(a, pc.p, Vpage(a, pc.p))
                                            else if pc.TermLoop? && i == pc.j && s.swap[i].asid == a
                                            then s.swap[i].(asid := SWAP_FRAME_FREE) else s.swap[i]
  {
    hide Enter, Exit, SignalEnd, FlashStep, Choose, PteOf;
    var pc := PcOf(s, a);
    if pc.PagerP? { EnterKeeps(s, a, PagerQ(pc.page), PagerIn(pc.page)); }
    EnterKeeps(s, a, TermQ, TermLoop(0));
    ExitSwap(s, a, User);
    ExitSwap(s, a, TermP);
    ExitSwap(s, a, Signal);
    SignalSwap(s, a);
    if pc.Flash? { FlashSwap(s, a, pc); }
    if pc.PagerIn? && pc.page.Some? { ChooseSwap(s, a, pc.page.value); }
  }

  lemma ExitSwap(s: State, a: Asid, next: Pc)
    ensures Exit(s, a, next).swap == s.swap
  {
    hide PcOf, Admitted;
  }

  lemma SignalSwap(s: State, a: Asid)
    ensures SignalEnd(s, a).swap == s.swap
  {
  }

  lemma FlashSwap(s: State, a: Asid, pc: Pc)
    requires pc.Flash? && !pc.stage.Busy?
    ensures FlashStep(s, a, pc).swap == s.swap
  {
    hide MutexOf, FlashNext;
  }

  lemma ChooseSwap(s: State, a: Asid, p: Page)
    ensures Choose(s, a, p).swap == s.swap
  {
  }

  lemma SoleKept(s: State, e: Event, v: Vpage)
    requires Inv(s) && Enabled(s, e) && Sole(s, v) && PteOf(s, v).valid && PteOf(Step(s, e), v) == PteOf(s, v)
    ensures Sole(Step(s, e), v)
  {
    hide Inv, Step, Enabled, PcOf, PteOf;
    forall i: Frame | !Free(Step(s, e).swap[i]) && Step(s, e).swap[i].pte == v
      ensures PteOf(s, v).frame == i
    {
      if Step(s, e).swap[i] != s.swap[i] { SwapKept(s, e, i); }
    }
  }

  lemma StepResident(s: State, e: Event, v: Vpage, k: nat)
    requires Inv(s) && Enabled(s, e) && Resident(s, v, k) && Sole(s, v)
    requires Active(PcOf(Step(s, e), v.asid)) && Step(s, e).choices <= k + SWAP_POOL_SIZE
    ensures Resident(Step(s, e), v, k) && Sole(Step(s, e), v)
  {
    hide Inv, Sole, Step, Enabled, FrameOf, Dead, Evicts;
    NotDead(PcOf(s, v.asid));
    SoleNotEvicted(s, e, v, k);
    PteKept(s, e, v);
    SoleKept(s, e, v);
    StepFrames(s, e);
  }

  lemma NotDead(pc: Pc)
    requires Active(pc)
    ensures !Dead(pc)
  {
  }

  /** U-proc `a` stays active along the run. */
  ghost predicate StaysActive(s: State, es: seq<Event>, a: Asid)
    decreases |es|
  {
    Active(PcOf(s, a)) && (es != [] && Enabled(s, es[0]) ==> StaysActive(Step(s, es[0]), es[1..], a))
  }

  lemma {:induction false} RunChoices(s: State, es: seq<Event>, t: State)
    requires Inv(s) && Run(s, es, t)
    ensures s.choices <= t.choices
    decreases |es|
  {
    if es != [] {
      StepInv(s, es[0]);
      StepFrames(s, es[0]);
      hide Inv, Step, Enabled;
      RunChoices(Step(s, es[0]), es[1..], t);
    }
  }

  /** Over every run, flash errors included, a page loaded by choice `k` stays in its frame until
      choice `k + 16`, whatever other U-procs start, fault or terminate, if at first no other swap
      pool entry names it. */
  lemma {:induction false} RunResident(s: State, es: seq<Event>, t: State, v: Vpage, k: nat)
    requires Inv(s) && Run(s, es, t) && Resident(s, v, k) && Sole(s, v)
    requires StaysActive(s, es, v.asid) && t.choices <= k + SWAP_POOL_SIZE
    ensures Resident(t, v, k) && Sole(t, v)
    decreases |es|
  {
    if es != [] {
      var r := Step(s, es[0]);
      StepInv(s, es[0]);
      RunChoices(r, es[1..], t);
      assert Active(PcOf(r, v.asid));
      hide Inv, Sole, Step, Enabled, Resident;
      StepResident(s, es[0], v, k);
      RunResident(r, es[1..], t, v, k);
    }
  }

  // ---------------------------------------------------------------- the page that another entry names

  /** Who makes a frame choice. */
  predicate Chooses(s: State, e: Event) {
    e.Go? && PcOf(s, e.a).PagerIn? && PcOf(s, e.a).page.Some?
  }

  lemma GoChoices(s: State, a: Asid)
    requires CanGo(PcOf(s, a))
    ensures GoStep(s, a).choices == s.choices + if Chooses(s, Go(a)) then 1 else 0
  {
    hide Enter, Exit, SignalEnd, FlashStep, Choose, PteOf;
    var pc := PcOf(s, a);
    if pc.PagerP? { EnterChoices(s, a, PagerQ(pc.page), PagerIn(pc.page)); }
    EnterChoices(s, a, TermQ, TermLoop(0));
    ExitChoices(s, a, User);
    ExitChoices(s, a, TermP);
    ExitChoices(s, a, Signal);
    SignalChoices(s, a);
    if pc.Flash? { FlashChoices(s, a, pc); }
    if pc.PagerIn? && pc.page.Some? { ChooseChoices(s, a, pc.page.value); }
  }

  lemma EnterChoices(s: State, a: Asid, waiting: Pc, inside: Pc)
    ensures Enter(s, a, waiting, inside).choices == s.choices
  {
    hide Goto;
    GotoChoices(s.(swapPoolSem := s.swapPoolSem - 1), a, waiting);
    GotoChoices(s.(swapPoolSem := s.swapPoolSem - 1), a, inside);
  }

  lemma GotoChoices(s: State, a: Asid, pc: Pc)
    ensures Goto(s, a, pc).choices == s.choices
  {
  }

  lemma ExitChoices(s: State, a: Asid, next: Pc)
    ensures Exit(s, a, next).choices == s.choices
  {
    hide PcOf, Admitted;
  }

  lemma SignalChoices(s: State, a: Asid)
    ensures SignalEnd(s, a).choices == s.choices
  {
  }

  lemma FlashChoices(s: State, a: Asid, pc: Pc)
    requires pc.Flash? && !pc.stage.Busy?
    ensures FlashStep(s, a, pc).choices == s.choices
  {
    hide MutexOf, FlashNext;
  }

  lemma ChooseChoices(s: State, a: Asid, p: Page)
    ensures Choose(s, a, p).choices == s.choices + 1
  {
  }

  lemma StepChoices(s: State, e: Event)
    requires Enabled(s, e)
    ensures Step(s, e).choices == s.choices + if Chooses(s, e) then 1 else 0
  {
    hide GoStep, Launchable, PteOf, PcOf;
    if e.Go? { GoChoices(s, e.a); }
  }

  /** Only the processes inside the swap pool choose, claim and give back frames, and only its own
      step moves one that is about to evict. */
  lemma EvictWaits(s: State, e: Event, a: Asid)
    requires Inv(s) && Enabled(s, e) && PcOf(s, a).Evict? && e != Go(a)
    ensures PcOf(Step(s, e), a) == PcOf(s, a)
    ensures e.Go? ==> !Inside(PcOf(s, e.a))
  {
    if e.Go? {
      EvictWaitsGo(s, a, e.a);
    } else {
      hide Mutex, FlashFree, Memory, Fifo, Parents, GoStep, PteOf, BlockOf, Inside;
    }
  }

  lemma EvictWaitsGo(s: State, a: Asid, b: Asid)
    requires Inv(s) && PcOf(s, a).Evict? && CanGo(PcOf(s, b)) && b != a
    ensures PcOf(GoStep(s, b), a) == PcOf(s, a) && !Inside(PcOf(s, b))
  {
    hide Mutex, FlashFree, Memory, Fifo, Enter, Parents, SignalEnd;
    EvictOthers(s, a, b);
    var pc := PcOf(s, b);
    if pc.PagerP? {
      EnterMoves(s, b, PagerQ(pc.page), PagerIn(pc.page));
    } else if pc.TermP? {
      EnterMoves(s, b, TermQ, TermLoop(0));
    } else if pc.Signal? {
      SignalMoves(s, b);
    }
  }

  lemma EvictOthers(s: State, a: Asid, b: Asid)
    requires Mutex(s) && PcOf(s, a).Evict? && CanGo(PcOf(s, b)) && b != a
    ensures var pc := PcOf(s, b); !Inside(pc) && (pc.PagerP? || pc.TermP? || pc.Signal? || pc.ExecP?)
  {
    Alone(s, a);
  }

  /** A second entry, in the frame of choice `c`, names the resident page; choice `c` has not been
      made, or its maker has still to evict. */
  ghost predicate Doomed(s: State, v: Vpage, k: nat, c: nat) {
    && k < c < k + SWAP_POOL_SIZE && Resident(s, v, k)
    && !Free(s.swap[c % SWAP_POOL_SIZE]) && s.swap[c % SWAP_POOL_SIZE].pte == v
    && (s.choices <= c || (s.choices == c + 1 && exists a: Asid :: PcOf(s, a).Evict?))
  }

  /** The page is not in the frame of choice `k`, which is not chosen again before `k + 16`. */
  ghost predicate Displaced(s: State, v: Vpage, k: nat) {
    k + 1 < s.choices <= k + SWAP_POOL_SIZE && PteOf(s, v) != Pte(true, k % SWAP_POOL_SIZE)
  }

  /** The second entry stays until its frame is chosen. */
  lemma SecondStays(s: State, e: Event, v: Vpage, k: nat, c: nat)
    requires Inv(s) && Enabled(s, e) && Doomed(s, v, k, c) && (s.choices <= c || !e.Go? || !Inside(PcOf(s, e.a)))
    ensures Step(s, e).swap[c % SWAP_POOL_SIZE] == s.swap[c % SWAP_POOL_SIZE]
  {
    hide Mutex, Parents, FlashFree, Exclusive, Faulting, Transits, Coherent, Step, PteOf;
    var i: Frame := c % SWAP_POOL_SIZE;
    if Step(s, e).swap[i] != s.swap[i] {
      SwapKept(s, e, i);
      if PcOf(s, e.a).Claim? {
        assert FrameOf(PcOf(s, e.a)) == Some(i);
        NotYetChosen(s.choices - 1, c);
      }
    }
  }

  lemma NotYetChosen(n: nat, c: nat)
    requires n < c < n + SWAP_POOL_SIZE
    ensures n % SWAP_POOL_SIZE != c % SWAP_POOL_SIZE
  {
  }

  lemma ChooserInside(s: State, e: Event)
    requires Chooses(s, e)
    ensures Inside(PcOf(s, e.a))
  {
  }

  lemma LastChosen(s: State, a: Asid, c: nat)
    requires Fifo(s) && PcOf(s, a).Evict? && s.choices == c + 1
    ensures PcOf(s, a).i == c % SWAP_POOL_SIZE
  {
    assert FrameOf(PcOf(s, a)).Some?;
  }

  lemma EvictLate(s: State, v: Vpage, k: nat, a: Asid)
    requires Resident(s, v, k) && PcOf(s, a).Evict?
    ensures s.choices > k + 1
  {
    assert FrameOf(PcOf(s, a)).Some?;
  }

  lemma ChosenInUse(s: State, a: Asid, c: nat)
    requires Fifo(s) && Chooses(s, Go(a)) && s.choices == c && !Free(s.swap[c % SWAP_POOL_SIZE])
    ensures PcOf(GoStep(s, a), a).Evict?
  {
  }

  /** Each step leaves the second entry waiting for its choice, or has taken the page away. */
  lemma StepDoomed(s: State, e: Event, v: Vpage, k: nat, c: nat)
    requires Inv(s) && Enabled(s, e) && Doomed(s, v, k, c)
    requires Active(PcOf(Step(s, e), v.asid)) && Step(s, e).choices <= k + SWAP_POOL_SIZE
    ensures Doomed(Step(s, e), v, k, c) || Displaced(Step(s, e), v, k)
  {
    hide Mutex, Parents, FlashFree, Memory, Fifo, Step, GoStep, Enabled, FrameOf, Dead, Active, Inside, PcOf, PteOf;
    NotDead(PcOf(s, v.asid));
    PteKept(s, e, v);
    StepFrames(s, e);
    StepChoices(s, e);
    if Evicts(s, e, v) {
      EvictLate(s, v, k, e.a);
    } else if s.choices == c + 1 {
      var a: Asid :| PcOf(s, a).Evict?;
      LastChosen(s, a, c);
      EvictWaits(s, e, a);
      if Chooses(s, e) { ChooserInside(s, e); }
      SecondStays(s, e, v, k, c);
    } else {
      SecondStays(s, e, v, k, c);
      if Chooses(s, e) && s.choices == c {
        ChosenInUse(s, e.a, c);
        GoIsStep(s, e.a);
      }
    }
  }

  lemma GoIsStep(s: State, a: Asid)
    requires CanGo(PcOf(s, a))
    ensures Step(s, Go(a)) == GoStep(s, a)
  {
    hide GoStep;
  }

  /** Only a publication puts a page into a frame, and the frame is the last one chosen. */
  lemma PteGained(s: State, e: Event, v: Vpage, i: Frame)
    requires Inv(s) && Enabled(s, e) && PteOf(Step(s, e), v) == Pte(true, i) != PteOf(s, v)
    ensures s.choices >= 1 && i == (s.choices - 1) % SWAP_POOL_SIZE
  {
    hide Mutex, Parents, FlashFree, Memory, GoStep, Launchable, CanGo;
    if e.Go? { GoGains(s, e.a, v, i); }
  }

  lemma GoGains(s: State, a: Asid, v: Vpage, i: Frame)
    requires Fifo(s) && CanGo(PcOf(s, a)) && PteOf(GoStep(s, a), v) == Pte(true, i) != PteOf(s, v)
    ensures s.choices >= 1 && i == (s.choices - 1) % SWAP_POOL_SIZE
  {
    if PcOf(s, a).Map? {
      assert FrameOf(PcOf(s, a)) == Some(PcOf(s, a).i);
    } else if !PcOf(s, a).Evict? {
      GoPtes(s, a);
      PteSame(s, GoStep(s, a), v);
    }
  }

  lemma StepDisplaced(s: State, e: Event, v: Vpage, k: nat)
    requires Inv(s) && Enabled(s, e) && Displaced(s, v, k) && Step(s, e).choices <= k + SWAP_POOL_SIZE
    ensures Displaced(Step(s, e), v, k)
  {
    hide Inv, Step, Enabled, PteOf;
    StepFrames(s, e);
    if PteOf(Step(s, e), v) == Pte(true, k % SWAP_POOL_SIZE) {
      PteGained(s, e, v, k % SWAP_POOL_SIZE);
      NotYetChosen(k, s.choices - 1);
    }
  }

  lemma {:induction false} RunDoomed(s: State, es: seq<Event>, t: State, v: Vpage, k: nat, c: nat)
    requires Inv(s) && Run(s, es, t) && (Doomed(s, v, k, c) || Displaced(s, v, k))
    requires StaysActive(s, es, v.asid) && t.choices <= k + SWAP_POOL_SIZE
    ensures Doomed(t, v, k, c) || Displaced(t, v, k)
    decreases |es|
  {
    if es != [] {
      var r := Step(s, es[0]);
      StepInv(s, es[0]);
      RunChoices(r, es[1..], t);
      assert Active(PcOf(r, v.asid));
      hide Inv, Step, Enabled, Doomed, Displaced;
      if Displaced(s, v, k) { StepDisplaced(s, es[0], v, k); } else { StepDoomed(s, es[0], v, k, c); }
      RunDoomed(r, es[1..], t, v, k, c);
    }
  }

  /** The number of the next choice of a frame other than that of choice `k`. */
  function ChoiceOf(k: nat, i: Frame): (c: nat)
    requires i != k % SWAP_POOL_SIZE
    ensures k < c < k + SWAP_POOL_SIZE && c % SWAP_POOL_SIZE == i
  {
    k + (i + SWAP_POOL_SIZE - k % SWAP_POOL_SIZE) % SWAP_POOL_SIZE
  }

  /** Exactly when a page stays: of a page just loaded by choice `k`, whose U-proc stays active
      until fifteen more choices have been made and no eviction is due, it is in its frame still iff
      no other swap pool entry named it when it was loaded. */
  lemma ResidentExact(s: State, es: seq<Event>, t: State, v: Vpage, k: nat)
    requires Inv(s) && Run(s, es, t) && Resident(s, v, k) && s.choices == k + 1 && StaysActive(s, es, v.asid)
    requires t.choices == k + SWAP_POOL_SIZE && forall a: Asid :: !PcOf(t, a).Evict?
    ensures Resident(t, v, k) <==> Sole(s, v)
  {
    hide Inv, Run, StaysActive, PteOf;
    if Sole(s, v) {
      RunResident(s, es, t, v, k);
    } else {
      var i: Frame :| !Free(s.swap[i]) && s.swap[i].pte == v && PteOf(s, v).frame != i;
      RunDoomed(s, es, t, v, k, ChoiceOf(k, i));
    }
  }
}
