/** What each page holds, and which actions change it. Paging is invisible while every flash
    operation ends READY: what U-procs load and store is what they would load and store in memories
    of their own. An error endangers the page whose eviction it cuts short, and no other. */
module Paging {
  import opened Queues
  import opened Vm
  import opened VmInvariant

  // ---------------------------------------------------------------- the abstract content

  /** The pager inside the swap pool, if that is what the owner is. */
  function Owner(s: State): Pc {
    if s.owner.Some? then PcOf(s, s.owner.value) else Idle
  }

  /** The page has left its page table and has not reached its flash block. */
  predicate WritingBack(pc: Pc, v: Vpage) {
    pc.Flash? && pc.op == Write && v == Vpage(pc.dev, pc.block) && pc.stage in {Lock, Issue, Busy(false)}
  }

  /** What the page holds: its frame if it is present or being written back, else its block. */
  function Abs(s: State, v: Vpage): Content {
    if PteOf(s, v).valid then s.frames[PteOf(s, v).frame]
    else if WritingBack(Owner(s), v) then s.frames[FrameOf(Owner(s)).value]
    else BlockOf(s, v)
  }

  /** A frame between its eviction and its publication. */
  predicate InTransit(pc: Pc, i: Frame) {
    FrameOf(pc) == Some(i) && !pc.Evict?
  }

  /** A frame in transit whose flash operations have not failed. */
  predicate Carrying(pc: Pc, i: Frame) {
    InTransit(pc, i) && !(pc.Flash? && pc.stage == Unlock(false))
  }

  /** A swap pool entry in use that names a page which is not in the frame, nor on its way out of
      it: what a pager leaves behind when it gives up after an eviction. */
  predicate Stale(s: State, i: Frame) {
    !Free(s.swap[i]) && !Carrying(Owner(s), i) && PteOf(s, s.swap[i].pte) != Pte(true, i)
  }

  /** A stale entry names the page. */
  ghost predicate Tainted(s: State, v: Vpage) {
    exists i: Frame :: Stale(s, i) && s.swap[i].pte == v
  }

  /** The block has been read. */
  predicate HasRead(pc: Pc) {
    (pc.Flash? && pc.op == Read && (pc.stage == Busy(true) || pc.stage == Unlock(true))) || pc.Claim? || pc.Map?
  }

  /** The frame holds the block that was read. */
  ghost predicate ReadIn(s: State) {
    HasRead(Owner(s)) ==>
      && FaultPage(Owner(s)).Some? && s.owner.Some?
      && s.frames[FrameOf(Owner(s)).value] == BlockOf(s, Vpage(s.owner.value, FaultPage(Owner(s)).value))
  }

  /** What every run keeps, flash errors included. */
  ghost predicate Consistent(s: State) {
    Inv(s) && ReadIn(s)
  }

  /** What holds besides as long as no flash error has left a stale entry. */
  ghost predicate Sound(s: State) {
    Consistent(s) && forall i: Frame :: !Stale(s, i)
  }

  ghost predicate SameContent(s: State, r: State) {
    forall v: Vpage :: Active(PcOf(r, v.asid)) ==> Active(PcOf(s, v.asid)) && Abs(r, v) == Abs(s, v)
  }

  ghost predicate NoNewTaint(s: State, r: State) {
    forall v :: Tainted(r, v) ==> Tainted(s, v)
  }

  /** A step that changes no page of any active U-proc. */
  ghost predicate Kept(s: State, r: State) {
    ReadIn(r) && SameContent(s, r) && NoNewTaint(s, r)
  }

  // ---------------------------------------------------------------- flat memory

  type Flat = map<Vpage, Content>

  function FlatOf(flat: Flat, v: Vpage): Content {
    if v in flat then flat[v] else Blank()
  }

  /** Memory in which every page is always there: a store changes it, a launch loads the image
      of the program from its flash device, nothing else has an effect. */
  function FlatStep(s: State, flat: Flat, e: Event): Flat
    requires Enabled(s, e)
  {
    match e
    case Store(a, page, off, w) => flat[Vpage(a, page) := FlatOf(flat, Vpage(a, page))[off := w]]
    case Execute(_, child) => Image(s, flat, child)
    case Launch(child) => Image(s, flat, child)
    case _ => flat
  }

  function Image(s: State, flat: Flat, child: Asid): Flat {
    (map v | v in flat && v.asid != child :: flat[v]) + (map v | v in s.flash && v.asid == child :: s.flash[v])
  }

  /** The page holds what flat memory holds. */
  predicate Agrees(s: State, flat: Flat, v: Vpage) {
    Active(PcOf(s, v.asid)) ==> Abs(s, v) == FlatOf(flat, v)
  }

  ghost predicate Refines(s: State, flat: Flat) {
    forall v: Vpage :: Agrees(s, flat, v)
  }

  predicate Ready(e: Event) {
    e.Done? ==> e.ready
  }

  // ---------------------------------------------------------------- accesses

  /** A valid TLB entry of a running U-proc leads to the content of its page. */
  lemma AccessIsAbs(s: State, a: Asid, page: Page)
    requires Inv(s) && PcOf(s, a) == User && Vpage(a, page) in s.tlb && s.tlb[Vpage(a, page)].valid
    ensures var v := Vpage(a, page);
            && s.tlb[v] == PteOf(s, v) && Present(s, v) && Abs(s, v) == s.frames[s.tlb[v].frame]
            && Names(s.swap[s.tlb[v].frame], v)
  {
    assert Active(PcOf(s, a)) && Agree(s.tlb[Vpage(a, page)], PteOf(s, Vpage(a, page)));
  }

  /** The frame of a present page is not in transit. */
  lemma NotInTransit(s: State, v: Vpage)
    requires Inv(s) && Present(s, v)
    ensures !InTransit(Owner(s), PteOf(s, v).frame)
    ensures FrameOf(Owner(s)) == Some(PteOf(s, v).frame) ==> Owner(s).Evict?
  {
    if s.owner.Some? {
      var a := s.owner.value;
      TransitOf(s, a);
      assert Names(s.swap[PteOf(s, v).frame], v);
      assert FaultPage(PcOf(s, a)).Some? ==> !PteOf(s, Vpage(a, FaultPage(PcOf(s, a)).value)).valid;
    }
  }

  lemma StoreFacts(s: State, e: Event)
    requires Inv(s) && Enabled(s, e) && e.Store?
    ensures var v := Vpage(e.a, e.page);
            var i := PteOf(s, v).frame;
            var r := Step(s, e);
            && PteOf(s, v).valid && e.off < PAGEWORDS
            && r == s.(frames := s.frames[i := s.frames[i][e.off := e.w]]) && Owner(r) == Owner(s)
            && (FrameOf(Owner(s)) == Some(i) ==> Owner(s).Evict?)
            && (forall b: Asid :: PcOf(r, b) == PcOf(s, b))
            && (forall w: Vpage :: PteOf(r, w) == PteOf(s, w) && BlockOf(r, w) == BlockOf(s, w))
            && (forall w: Vpage :: Active(PcOf(s, w.asid)) && PteOf(s, w).valid && w != v ==> PteOf(s, w).frame != i)
  {
    var v := Vpage(e.a, e.page);
    AccessIsAbs(s, e.a, e.page);
    NotInTransit(s, v);
    forall w: Vpage | Active(PcOf(s, w.asid)) && PteOf(s, w).valid && w != v
      ensures PteOf(s, w).frame != PteOf(s, v).frame
    {
      assert Present(s, w);
    }
  }

  /** A store changes its own page and no other. */
  lemma StoreContent(s: State, e: Event)
    requires Consistent(s) && Enabled(s, e) && e.Store?
    ensures var v := Vpage(e.a, e.page);
            var r := Step(s, e);
            && ReadIn(r) && NoNewTaint(s, r)
            && (forall w: Vpage :: Active(PcOf(s, w.asid)) && w != v ==> Abs(r, w) == Abs(s, w))
            && Abs(r, v) == Abs(s, v)[e.off := e.w] && (forall b: Asid :: PcOf(r, b) == PcOf(s, b))
  {
    hide Inv, PcOf, PteOf, BlockOf, Owner, Active, Step, Enabled, Carrying;
    StoreFacts(s, e);
    var r := Step(s, e);
    assert forall i: Frame :: Stale(r, i) == Stale(s, i);
  }

  // ---------------------------------------------------------------- steps that move no page

  /** The pager inside moves without moving a page. */
  ghost predicate SameCopy(pc: Pc, next: Pc) {
    && (forall v :: WritingBack(next, v) == WritingBack(pc, v))
    && ((next.Flash? && next.op == Write) || HasRead(next) ==> FrameOf(next) == FrameOf(pc))
    && (forall i :: Carrying(pc, i) ==> Carrying(next, i))
    && (HasRead(next) ==> HasRead(pc) && FaultPage(next) == FaultPage(pc))
  }

  lemma CopyContent(s: State, r: State)
    requires Consistent(s)
    requires r.swap == s.swap && r.ptes == s.ptes && r.frames == s.frames && r.flash == s.flash
    requires forall b: Asid :: Active(PcOf(r, b)) ==> Active(PcOf(s, b))
    requires SameCopy(Owner(s), Owner(r)) && (HasRead(Owner(r)) ==> r.owner == s.owner)
    ensures Kept(s, r)
  {
    hide Inv, Active, Owner, WritingBack, Carrying, HasRead, FaultPage, FrameOf;
    forall v: Vpage
      ensures PteOf(r, v) == PteOf(s, v) && BlockOf(r, v) == BlockOf(s, v)
    {
    }
    WritingFlash(Owner(r));
    assert forall i: Frame :: Stale(r, i) ==> Stale(s, i);
  }

  lemma WritingFlash(pc: Pc)
    ensures forall v :: WritingBack(pc, v) ==> pc.Flash? && pc.op == Write && FrameOf(pc).Some?
    ensures HasRead(pc) ==> FrameOf(pc).Some?
  {
  }

  // ---------------------------------------------------------------- steps that move a page

  lemma OwnerIsPc(s: State, a: Asid)
    requires Inv(s) && Inside(PcOf(s, a))
    ensures s.owner == Some(a) && Owner(s) == PcOf(s, a)
  {
  }

  /** Eviction: from now on what the page holds is what its frame holds, and a frame that was not
      stale held it. */
  lemma EvictContent(s: State, a: Asid)
    requires Consistent(s) && PcOf(s, a).Evict?
    ensures var r := GoStep(s, a);
            var i := PcOf(s, a).i;
            var u := s.swap[i].pte;
            && ReadIn(r) && NoNewTaint(s, r) && Active(PcOf(s, u.asid))
            && (forall b: Asid :: Active(PcOf(r, b)) == Active(PcOf(s, b)))
            && (forall w: Vpage :: Abs(r, w) == if w == u then s.frames[i] else Abs(s, w))
            && (!Stale(s, i) ==> Abs(s, u) == s.frames[i])
  {
    hide Inv, Active, GoStep, PteOf, BlockOf, PcOf, Owner;
    EvictFacts(s, a);
    var r := GoStep(s, a);
    EvictTaint(s, r, PcOf(s, a).i);
  }

  lemma EvictFacts(s: State, a: Asid)
    requires Inv(s) && PcOf(s, a).Evict?
    ensures var r := GoStep(s, a);
            var pc := PcOf(s, a);
            var u := s.swap[pc.i].pte;
            && Owner(s) == pc && Owner(r) == Flash(Write, pc.p, pc.i, u.asid, u.page, Lock)
            && !Free(s.swap[pc.i]) && r.swap == s.swap && r.frames == s.frames && Active(PcOf(s, u.asid))
            && (forall b: Asid :: Active(PcOf(r, b)) == Active(PcOf(s, b)))
            && (forall w: Vpage :: PteOf(r, w) == (if w == u then PteOf(s, u).(valid := false) else PteOf(s, w))
                                && BlockOf(r, w) == BlockOf(s, w))
  {
    OwnerIsPc(s, a);
    TransitOf(s, a);
    Evicted(s, a, PcOf(s, a).p, PcOf(s, a).i);
    hide Inv, Names;
  }

  lemma EvictTaint(s: State, r: State, i: Frame)
    requires Owner(s).Evict? && Owner(s).i == i && !Free(s.swap[i]) && r.swap == s.swap
    requires Owner(r).Flash? && Owner(r).i == i && Owner(r).stage == Lock
    requires forall w: Vpage :: PteOf(r, w) == if w == s.swap[i].pte then PteOf(s, w).(valid := false) else PteOf(s, w)
    ensures NoNewTaint(s, r)
  {
    forall v | Tainted(r, v)
      ensures Tainted(s, v)
    {
      var k: Frame :| Stale(r, k) && r.swap[k].pte == v;
      assert k != i;
      if v == s.swap[i].pte && PteOf(s, v) == Pte(true, k) { assert Stale(s, i); } else { assert Stale(s, k); }
    }
  }

  /** The pager enters its page in the swap pool: the frame is in transit. */
  lemma ClaimContent(s: State, a: Asid)
    requires Consistent(s) && PcOf(s, a).Claim?
    ensures Kept(s, GoStep(s, a))
  {
    OwnerIsPc(s, a);
    var r := GoStep(s, a);
    var pc := PcOf(s, a);
    assert Owner(r) == Map(pc.p, pc.i) && r.owner == s.owner;
    assert forall b: Asid :: Active(PcOf(r, b)) == Active(PcOf(s, b));
    hide Inv, Active, GoStep;
    forall w: Vpage
      ensures PteOf(r, w) == PteOf(s, w) && BlockOf(r, w) == BlockOf(s, w)
    {
    }
    assert forall i: Frame :: Stale(r, i) ==> i != pc.i && Stale(s, i);
  }

  lemma MapFacts(s: State, a: Asid)
    requires Consistent(s) && PcOf(s, a).Map?
    ensures var pc := PcOf(s, a);
            var u := Vpage(a, pc.p);
            var r := GoStep(s, a);
            && Owner(s) == pc && s.owner == Some(a) && Owner(r) == Leave && r.owner == s.owner && Names(s.swap[pc.i], u)
            && !PteOf(s, u).valid && r.swap == s.swap && r.frames == s.frames
            && (forall b: Asid :: Active(PcOf(r, b)) == Active(PcOf(s, b)))
            && (forall w: Vpage :: PteOf(r, w) == (if w == u then Pte(true, pc.i) else PteOf(s, w))
                                && BlockOf(r, w) == BlockOf(s, w))
  {
    hide ReadIn;
    OwnerIsPc(s, a);
    TransitOf(s, a);
  }

  /** Publication: the page moves from its block to its frame. */
  lemma MapContent(s: State, a: Asid)
    requires Consistent(s) && PcOf(s, a).Map?
    ensures Kept(s, GoStep(s, a))
  {
    hide Inv, Active, GoStep, PcOf, PteOf, BlockOf, Owner;
    MapFacts(s, a);
    var r := GoStep(s, a);
    assert forall i: Frame :: Stale(r, i) ==> i != PcOf(s, a).i && Stale(s, i);
  }

  /** A terminating process gives frames back: nobody else's page is there. */
  lemma FreeContent(s: State, a: Asid)
    requires Consistent(s) && PcOf(s, a).TermLoop?
    ensures Kept(s, GoStep(s, a))
  {
    hide Inv, Active, GoStep, PteOf, PcOf;
    TermInside(s, a);
    OwnerIsPc(s, a);
    FreeMoves(s, a);
    var r := GoStep(s, a);
    forall w: Vpage
      ensures PteOf(r, w) == PteOf(s, w) && BlockOf(r, w) == BlockOf(s, w)
    {
      PteSame(s, r, w);
    }
    assert forall i: Frame :: Stale(r, i) ==> Stale(s, i) && r.swap[i] == s.swap[i];
  }

  lemma TermInside(s: State, a: Asid)
    requires PcOf(s, a).TermLoop?
    ensures Inside(PcOf(s, a))
  {
  }

  lemma FreeMoves(s: State, a: Asid)
    requires PcOf(s, a).TermLoop? && s.owner == Some(a)
    ensures var r := GoStep(s, a);
            && (Owner(r) == TermV || Owner(r).TermLoop?) && r.owner == s.owner
            && r.ptes == s.ptes && r.frames == s.frames && r.flash == s.flash
            && (forall b: Asid :: Active(PcOf(r, b)) == Active(PcOf(s, b)))
            && (forall i: Frame :: r.swap[i] == s.swap[i] || Free(r.swap[i]))
  {
  }

  lemma MoveFacts(s: State, a: Asid)
    requires Consistent(s) && Enabled(s, Move(a))
    ensures var r := Step(s, Move(a));
            var pc := PcOf(s, a);
            && pc.Flash? && pc.stage == Busy(false)
            && s.owner == r.owner == Some(a) && Owner(s) == pc && Owner(r) == pc.(stage := Busy(true))
            && r.swap == s.swap && r.ptes == s.ptes
            && (forall b: Asid :: Active(PcOf(r, b)) == Active(PcOf(s, b)))
            && Unmapped(s, pc.i) && Exclusive(s)
            && (pc.op == Write ==> r.frames == s.frames && r.flash == s.flash[Vpage(pc.dev, pc.block) := s.frames[pc.i]]
                                   && !PteOf(s, Vpage(pc.dev, pc.block)).valid)
            && (pc.op == Read ==> r.flash == s.flash && pc.dev == a && pc.block == pc.p
                                  && r.frames == s.frames[pc.i := BlockOf(s, Vpage(a, pc.p))])
  {
    hide ReadIn, Mutex, Parents, FlashFree, Fifo, PteOf, BlockOf;
    OwnerIsPc(s, a);
    TransitOf(s, a);
  }

  /** The device writes the frame to its block: from now on the block holds the page. */
  lemma WriteContent(s: State, a: Asid)
    requires Consistent(s) && Enabled(s, Move(a)) && PcOf(s, a).op == Write
    ensures Kept(s, Step(s, Move(a)))
  {
    hide Inv, Active, PcOf, Owner, Step, Enabled, PteOf, Exclusive, Unmapped;
    MoveFacts(s, a);
    var pc := PcOf(s, a);
    var r := Step(s, Move(a));
    forall w: Vpage
      ensures PteOf(r, w) == PteOf(s, w)
      ensures BlockOf(r, w) == if w == Vpage(pc.dev, pc.block) then s.frames[pc.i] else BlockOf(s, w)
    {
      PteSame(s, r, w);
    }
    assert forall i: Frame :: Stale(r, i) ==> Stale(s, i);
  }

  /** Nobody maps a frame in transit. */
  lemma UnmappedFrame(s: State, i: Frame, v: Vpage)
    requires Exclusive(s) && Unmapped(s, i) && Present(s, v)
    ensures PteOf(s, v).frame != i
  {
  }

  /** The device reads the block into the frame, which nobody maps. */
  lemma ReadContent(s: State, a: Asid)
    requires Consistent(s) && Enabled(s, Move(a)) && PcOf(s, a).op == Read
    ensures Kept(s, Step(s, Move(a)))
  {
    hide Inv, Active, PcOf, Owner, Step, Enabled, PteOf, Exclusive, Unmapped;
    MoveFacts(s, a);
    var pc := PcOf(s, a);
    var r := Step(s, Move(a));
    forall w: Vpage
      ensures PteOf(r, w) == PteOf(s, w) && BlockOf(r, w) == BlockOf(s, w)
    {
      PteSame(s, r, w);
    }
    assert forall i: Frame :: Stale(r, i) ==> Stale(s, i);
    forall w: Vpage | Active(PcOf(r, w.asid))
      ensures Abs(r, w) == Abs(s, w)
    {
      if PteOf(s, w).valid { UnmappedFrame(s, pc.i, w); }
    }
  }

  /** No page of a process that is gone is being written back. */
  lemma NotWrittenBack(s: State, c: Asid, v: Vpage)
    requires Inv(s) && Launchable(s, c) && v.asid == c
    ensures !WritingBack(Owner(s), v)
    ensures forall i: Frame :: !Free(s.swap[i]) ==> s.swap[i].pte.asid != c
  {
    forall i: Frame
      ensures s.swap[i].asid != c && (!Free(s.swap[i]) ==> s.swap[i].pte.asid == s.swap[i].asid)
    {
      SlotOfDead(s, i, c);
      assert !Free(s.swap[i]) ==> Owns(s, s.swap[i], i);
    }
    if s.owner.Some? { TransitOf(s, s.owner.value); }
  }

  /** A launch: the program's image, in its own flash blocks. */
  lemma LaunchContent(s: State, c: Asid)
    requires Consistent(s) && Launchable(s, c)
    ensures var r := LaunchUproc(s, c);
            && ReadIn(r) && NoNewTaint(s, r)
            && (forall b: Asid :: b != c ==> PcOf(r, b) == PcOf(s, b))
            && (forall w: Vpage :: Abs(r, w) == if w.asid == c then BlockOf(s, w) else Abs(s, w))
  {
    hide Inv, Active, Owner, LaunchUproc, Launchable, PcOf;
    var r := LaunchUproc(s, c);
    forall v: Vpage | v.asid == c { NotWrittenBack(s, c, v); }
    NotWrittenBack(s, c, Vpage(c, 0));
    LaunchFacts(s, c);
    assert forall i: Frame :: Stale(r, i) ==> Stale(s, i);
  }

  lemma LaunchFacts(s: State, c: Asid)
    requires Inv(s) && Launchable(s, c)
    ensures var r := LaunchUproc(s, c);
            && r.swap == s.swap && r.frames == s.frames && r.flash == s.flash
            && Owner(r) == Owner(s) && r.owner == s.owner
            && (forall b: Asid :: b != c ==> PcOf(r, b) == PcOf(s, b))
            && (forall w: Vpage :: PteOf(r, w) == if w.asid == c then NOT_PRESENT else PteOf(s, w))
  {
    hide Parents, FlashFree, Fifo, Memory;
    LaunchOwner(s, c);
  }

  lemma LaunchOwner(s: State, c: Asid)
    requires Inv(s) && Launchable(s, c)
    ensures Owner(LaunchUproc(s, c)) == Owner(s) && LaunchUproc(s, c).owner == s.owner
  {
    assert s.owner != Some(c);
  }

  // ---------------------------------------------------------------- the other steps

  /** The pager inside is not the one that moved. */
  lemma SameOwnerCopy(s: State, r: State)
    requires Consistent(s)
    requires r.swap == s.swap && r.ptes == s.ptes && r.frames == s.frames && r.flash == s.flash
    requires forall b: Asid :: Active(PcOf(r, b)) ==> Active(PcOf(s, b))
    requires Owner(r) == Owner(s) && r.owner == s.owner
    ensures Kept(s, r)
  {
    hide Inv, Active, PcOf, Owner, WritingBack, Carrying, HasRead, FaultPage, FrameOf;
    CopyContent(s, r);
  }

  /** No frame is in transit, before or after. */
  lemma NoFrameCopy(s: State, r: State)
    requires Consistent(s)
    requires r.swap == s.swap && r.ptes == s.ptes && r.frames == s.frames && r.flash == s.flash
    requires forall b: Asid :: Active(PcOf(r, b)) ==> Active(PcOf(s, b))
    requires FrameOf(Owner(s)).None? && FrameOf(Owner(r)).None?
    ensures Kept(s, r)
  {
    hide Inv, Active, PcOf, Owner, Kept, ReadIn;
    NoFrame(Owner(s));
    NoFrame(Owner(r));
    hide WritingBack, Carrying, HasRead, FrameOf;
    CopyContent(s, r);
  }

  lemma NoFrame(pc: Pc)
    requires FrameOf(pc).None?
    ensures !HasRead(pc) && !pc.Flash? && forall v :: !WritingBack(pc, v)
    ensures forall i :: !Carrying(pc, i)
  {
  }

  lemma OutsideOwner(s: State, r: State, a: Asid, pc: Pc)
    requires Inv(s) && !Inside(PcOf(s, a)) && OnlyMoved(s, r, a, pc) && r.owner == s.owner
    ensures Owner(r) == Owner(s)
  {
    hide Inside, Parents, FlashFree, Memory, Fifo;
  }

  /** A process outside the swap pool moves, and stays outside. */
  lemma OutsideContent(s: State, r: State, a: Asid, pc: Pc)
    requires Consistent(s) && !Inside(PcOf(s, a)) && OnlyMoved(s, r, a, pc) && r.owner == s.owner
    requires r.swap == s.swap && r.ptes == s.ptes && r.frames == s.frames && r.flash == s.flash
    requires Active(pc) ==> Active(PcOf(s, a))
    ensures Kept(s, r)
  {
    hide Inv, Inside, Active, Owner, Kept, ReadIn, PcOf;
    OutsideOwner(s, r, a, pc);
    SameOwnerCopy(s, r);
  }

  lemma EnterContent(s: State, a: Asid, waiting: Pc, inside: Pc)
    requires Consistent(s) && !Inside(PcOf(s, a)) && Active(PcOf(s, a)) && FrameOf(inside).None?
    ensures Kept(s, Enter(s, a, waiting, inside))
  {
    var r := Enter(s, a, waiting, inside);
    var pc := if s.swapPoolSem - 1 < 0 then waiting else inside;
    EnterMoves(s, a, waiting, inside);
    EnterData(s, a, waiting, inside);
    hide Inv, Inside, Active, Owner, Kept, ReadIn, PcOf, Enter;
    if s.swapPoolSem - 1 < 0 {
      OutsideContent(s, r, a, pc);
    } else {
      NoFrameCopy(s, r);
    }
  }

  lemma EnterData(s: State, a: Asid, waiting: Pc, inside: Pc)
    requires Mutex(s) && FrameOf(inside).None?
    ensures var r := Enter(s, a, waiting, inside);
            && r.swap == s.swap && r.ptes == s.ptes && r.frames == s.frames && r.flash == s.flash
            && (s.swapPoolSem - 1 >= 0 ==> FrameOf(Owner(s)).None? && FrameOf(Owner(r)).None?)
  {
    hide Inside, Queued, Enter, PcOf, FrameOf;
    EnterMoves(s, a, waiting, inside);
    EnterKeeps(s, a, waiting, inside);
    IdleNoFrame();
  }

  lemma EnterKeeps(s: State, a: Asid, waiting: Pc, inside: Pc)
    ensures var r := Enter(s, a, waiting, inside);
            r.swap == s.swap && r.ptes == s.ptes && r.frames == s.frames && r.flash == s.flash
  {
    hide Goto;
    GotoKeeps(s.(swapPoolSem := s.swapPoolSem - 1), a, waiting);
    GotoKeeps(s.(swapPoolSem := s.swapPoolSem - 1), a, inside);
  }

  lemma GotoKeeps(s: State, a: Asid, pc: Pc)
    ensures var r := Goto(s, a, pc);
            r.swap == s.swap && r.ptes == s.ptes && r.frames == s.frames && r.flash == s.flash
  {
  }

  lemma ExitContent(s: State, a: Asid, next: Pc)
    requires Consistent(s) && s.owner == Some(a) && FrameOf(PcOf(s, a)).None?
    requires !Queued(next) && (Active(next) ==> Active(PcOf(s, a)))
    ensures Kept(s, Exit(s, a, next))
  {
    hide Mutex, Parents, FlashFree, Memory, Fifo, Inside, Active, Owner, Kept, ReadIn, PcOf, Exit, FrameOf;
    ExitFacts(s, a, next);
    NoFrameCopy(s, Exit(s, a, next));
  }

  lemma ExitFacts(s: State, a: Asid, next: Pc)
    requires Mutex(s) && s.owner == Some(a) && FrameOf(PcOf(s, a)).None?
    requires !Queued(next) && (Active(next) ==> Active(PcOf(s, a)))
    ensures var r := Exit(s, a, next);
            && r.swap == s.swap && r.ptes == s.ptes && r.frames == s.frames && r.flash == s.flash
            && FrameOf(Owner(s)).None? && FrameOf(Owner(r)).None?
            && forall b: Asid :: Active(PcOf(r, b)) ==> Active(PcOf(s, b))
  {
    hide Inside, Queued, Count, Active, Mutex, Admitted, FrameOf;
    ExitMoves(s, a, next);
    var s1 := Goto(s, a, next).(swapPoolSem := s.swapPoolSem + 1, owner := None);
    if s1.swapPoolSem <= 0 && s.swapQueue != [] {
      AdmittedActive(PcOf(s1, s.swapQueue[0]));
    }
    IdleNoFrame();
  }

  lemma IdleNoFrame()
    ensures FrameOf(Idle).None?
  {
  }

  lemma AdmittedActive(pc: Pc)
    requires Queued(pc)
    ensures (Active(Admitted(pc)) ==> Active(pc)) && FrameOf(Admitted(pc)).None?
  {
  }

  lemma SignalContent(s: State, a: Asid)
    requires Consistent(s) && PcOf(s, a) == Signal
    ensures Kept(s, SignalEnd(s, a))
  {
    hide Inv, Inside, Active, Owner, Kept, ReadIn, PcOf, SignalEnd;
    SignalFacts(s, a);
    SameOwnerCopy(s, SignalEnd(s, a));
  }

  lemma SignalFacts(s: State, a: Asid)
    requires Inv(s) && PcOf(s, a) == Signal
    ensures var r := SignalEnd(s, a);
            && r.swap == s.swap && r.ptes == s.ptes && r.frames == s.frames && r.flash == s.flash
            && r.owner == s.owner && Owner(r) == Owner(s)
            && forall b: Asid :: Active(PcOf(r, b)) ==> Active(PcOf(s, b))
  {
    hide Memory, FlashFree, Fifo, Count;
    SignalMoves(s, a);
    assert s.owner.Some? ==> Inside(PcOf(s, s.owner.value));
  }

  /** The pager inside goes on, on the same copy. */
  lemma InsideContent(s: State, r: State, a: Asid, pc: Pc)
    requires Consistent(s) && Inside(PcOf(s, a)) && OnlyMoved(s, r, a, pc) && r.owner == s.owner
    requires r.swap == s.swap && r.ptes == s.ptes && r.frames == s.frames && r.flash == s.flash
    requires (Active(pc) ==> Active(PcOf(s, a))) && SameCopy(PcOf(s, a), pc)
    ensures Kept(s, r)
  {
    OwnerIsPc(s, a);
    hide Inv, Inside, Active, SameCopy, Kept, ReadIn, PcOf;
    assert Owner(r) == pc;
    CopyContent(s, r);
  }

  lemma FlashCopy(s: State, a: Asid, pc: Pc)
    requires pc.Flash? && !pc.stage.Busy? && MutexOf(s, pc.dev) == (if pc.stage == Lock then 1 else 0)
    ensures SameCopy(pc, FlashNext(s, a, pc)) && (Active(FlashNext(s, a, pc)) ==> Active(pc))
  {
    hide MutexOf;
  }

  lemma FlashMutexIs(s: State, a: Asid)
    requires Inv(s) && PcOf(s, a).Flash? && !PcOf(s, a).stage.Busy?
    ensures MutexOf(s, PcOf(s, a).dev) == if PcOf(s, a).stage == Lock then 1 else 0
  {
    OwnerIsPc(s, a);
  }

  /** `flashOperation`, where it is the processor's turn. */
  lemma FlashContent(s: State, a: Asid)
    requires Consistent(s) && PcOf(s, a).Flash? && !PcOf(s, a).stage.Busy?
    ensures Kept(s, FlashStep(s, a, PcOf(s, a)))
  {
    var pc := PcOf(s, a);
    var r := FlashStep(s, a, pc);
    FlashMutexIs(s, a);
    OwnerIsPc(s, a);
    FlashCopy(s, a, pc);
    PcsMoved(s, r, a, FlashNext(s, a, pc));
    hide Inv, Active, SameCopy, Kept, PcOf, FlashNext, MutexOf, OnlyMoved, Owner;
    InsideContent(s, r, a, FlashNext(s, a, pc));
  }

  lemma ChooseCopy(s: State, a: Asid, p: Page)
    requires Consistent(s) && PcOf(s, a) == PagerIn(Some(p))
    ensures Kept(s, Choose(s, a, p))
  {
    var r := Choose(s, a, p);
    PcsMoved(s, r, a, PcOf(r, a));
    hide Inv, Kept, ReadIn, OnlyMoved, Owner;
    InsideContent(s, r, a, PcOf(r, a));
  }

  /** The processor's other steps keep every page of every active U-proc. */
  lemma GoContent(s: State, a: Asid)
    requires Consistent(s) && CanGo(PcOf(s, a)) && !PcOf(s, a).Evict?
    ensures Kept(s, GoStep(s, a))
  {
    hide Inv, Kept, ReadIn, Enter, Exit, SignalEnd, FlashStep, Choose, Inside, Queued, Active, FrameOf;
    var pc := PcOf(s, a);
    KindsOf(pc);
    GoKinds(pc);
    GoCalls(s, a);
    if pc.PagerP? {
      EnterContent(s, a, PagerQ(pc.page), PagerIn(pc.page));
    } else if pc.TermP? {
      EnterContent(s, a, TermQ, TermLoop(0));
    } else if pc.Leave? || pc.Abort? || pc.TermV? {
      OwnerIsPc(s, a);
      ExitContent(s, a, if pc.Leave? then User else if pc.Abort? then TermP else Signal);
    } else if pc.Signal? {
      SignalContent(s, a);
    } else if pc.Flash? {
      FlashContent(s, a);
    } else if pc.Claim? {
      ClaimContent(s, a);
    } else if pc.Map? {
      MapContent(s, a);
    } else if pc.TermLoop? {
      FreeContent(s, a);
    } else if pc.PagerIn? && pc.page.Some? {
      ChooseCopy(s, a, pc.page.value);
    } else {
      RestContent(s, a);
    }
  }

  lemma GoKinds(pc: Pc)
    ensures pc.PagerP? || pc.TermP? ==> Active(pc) && !Inside(pc)
    ensures pc.PagerP? ==> FrameOf(PagerIn(pc.page)).None?
    ensures FrameOf(TermLoop(0)).None?
    ensures pc.Leave? || pc.Abort? ==> Active(pc)
    ensures pc.Leave? || pc.Abort? || pc.TermV? ==> FrameOf(pc).None?
    ensures !Active(Signal)
  {
  }

  lemma RestFacts(s: State, a: Asid)
    requires PcOf(s, a) == PagerIn(None) || PcOf(s, a).ExecP?
    ensures var r := GoStep(s, a);
            && r.swap == s.swap && r.ptes == s.ptes && r.frames == s.frames && r.flash == s.flash
            && r.owner == s.owner && OnlyMoved(s, r, a, PcOf(r, a))
            && (PcOf(s, a).ExecP? ==> !Inside(PcOf(s, a)) && (Active(PcOf(r, a)) ==> Active(PcOf(s, a))))
            && (PcOf(s, a).PagerIn? ==> PcOf(r, a) == Abort)
  {
    hide OnlyMoved;
    PcsMoved(s, GoStep(s, a), a, PcOf(GoStep(s, a), a));
  }

  lemma RestContent(s: State, a: Asid)
    requires Consistent(s) && (PcOf(s, a) == PagerIn(None) || PcOf(s, a).ExecP?)
    ensures Kept(s, GoStep(s, a))
  {
    hide Inv, Kept, ReadIn, OnlyMoved, Owner, GoStep, SameCopy, PcOf, Inside, Active;
    RestFacts(s, a);
    if PcOf(s, a).ExecP? {
      OutsideContent(s, GoStep(s, a), a, PcOf(GoStep(s, a), a));
    } else {
      AbortCopy(s, a);
      InsideContent(s, GoStep(s, a), a, Abort);
    }
  }

  lemma AbortCopy(s: State, a: Asid)
    requires PcOf(s, a).PagerIn?
    ensures SameCopy(PcOf(s, a), Abort) && Inside(PcOf(s, a)) && Active(PcOf(s, a))
  {
  }

  // ---------------------------------------------------------------- every event, every run

  lemma DoneFacts(s: State, a: Asid, ready: bool)
    requires Enabled(s, Done(a, ready))
    ensures var pc := PcOf(s, a);
            var next := pc.(stage := Unlock(ready));
            var r := Step(s, Done(a, ready));
            && OnlyMoved(s, r, a, next) && r.owner == s.owner && Inside(pc) && Active(pc) && Active(next)
            && r.swap == s.swap && r.ptes == s.ptes && r.frames == s.frames && r.flash == s.flash
            && (ready ==> SameCopy(pc, next))
  {
    hide OnlyMoved;
    PcsMoved(s, Step(s, Done(a, ready)), a, PcOf(s, a).(stage := Unlock(ready)));
  }

  lemma DoneContent(s: State, a: Asid)
    requires Consistent(s) && Enabled(s, Done(a, true))
    ensures Kept(s, Step(s, Done(a, true)))
  {
    hide Inv, Kept, ReadIn, OnlyMoved, Owner, SameCopy, Inside, Active, Step;
    DoneFacts(s, a, true);
    InsideContent(s, Step(s, Done(a, true)), a, PcOf(s, a).(stage := Unlock(true)));
  }

  /** A flash error leaves behind what the frame's swap pool entry names, and every other page as
      it was. That page falls back to its block if the error came before a write had moved it. */
  lemma ErrorContent(s: State, a: Asid)
    requires Consistent(s) && Enabled(s, Done(a, false))
    ensures var r := Step(s, Done(a, false));
            var pc := PcOf(s, a);
            var u := s.swap[pc.i].pte;
            && ReadIn(r) && (forall b: Asid :: Active(PcOf(r, b)) == Active(PcOf(s, b)))
            && (forall w: Vpage :: Abs(r, w) == if WritingBack(pc, w) then BlockOf(s, w) else Abs(s, w))
            && (forall w: Vpage :: WritingBack(pc, w) ==>
                  Abs(s, w) == s.frames[pc.i] && w == u && !Free(s.swap[pc.i]) && Active(PcOf(s, w.asid)))
            && (forall v :: Tainted(r, v) <==> Tainted(s, v) || (!Free(s.swap[pc.i]) && v == u))
  {
    hide Inv, Inside, PcOf, PteOf, BlockOf, Step, Enabled, Active;
    var pc := PcOf(s, a);
    var r := Step(s, Done(a, false));
    ErrorFacts(s, a);
    DoneFacts(s, a, false);
    forall w: Vpage
      ensures PteOf(r, w) == PteOf(s, w) && BlockOf(r, w) == BlockOf(s, w)
    {
      PteSame(s, r, w);
      BlockSame(s, r, w);
    }
    assert forall i: Frame :: Stale(r, i) <==> Stale(s, i) || (i == pc.i && !Free(s.swap[i]));
    forall v
      ensures Tainted(r, v) <==> Tainted(s, v) || (!Free(s.swap[pc.i]) && v == s.swap[pc.i].pte)
    {
      if Tainted(r, v) {
        var i: Frame :| Stale(r, i) && r.swap[i].pte == v;
      }
      if Tainted(s, v) {
        var i: Frame :| Stale(s, i) && s.swap[i].pte == v;
        assert Stale(r, i);
      }
      assert !Free(s.swap[pc.i]) ==> Stale(r, pc.i);
    }
  }

  lemma BlockSame(s: State, r: State, v: Vpage)
    requires s.flash == r.flash
    ensures BlockOf(r, v) == BlockOf(s, v)
  {
  }

  lemma ErrorFacts(s: State, a: Asid)
    requires Inv(s) && Enabled(s, Done(a, false))
    ensures var pc := PcOf(s, a);
            && pc.Flash? && pc.stage.Busy? && s.owner == Some(a) && Owner(s) == pc
            && Owner(Step(s, Done(a, false))) == pc.(stage := Unlock(false)) && Unmapped(s, pc.i)
            && (pc.op == Write ==> s.swap[pc.i].pte == Vpage(pc.dev, pc.block) && !Free(s.swap[pc.i])
                                   && Active(PcOf(s, pc.dev)))
  {
    OwnerIsPc(s, a);
    TransitOf(s, a);
    var pc := PcOf(s, a);
    if pc.op == Write {
      assert Owns(s, s.swap[pc.i], pc.i);
      Alone(s, a);
    }
  }

  lemma FaultContent(s: State, a: Asid, pc: Pc)
    requires Consistent(s) && PcOf(s, a) == User
    ensures Kept(s, Goto(s, a, pc))
  {
    var r := Goto(s, a, pc);
    PcsMoved(s, r, a, pc);
    hide Inv, Kept, ReadIn, OnlyMoved, Owner;
    OutsideContent(s, r, a, pc);
  }

  lemma TlbContent(s: State, r: State)
    requires Consistent(s) && r == s.(tlb := r.tlb, masterSem := r.masterSem, inst := r.inst)
    ensures Kept(s, r)
  {
    hide Inv, Kept, ReadIn;
    assert forall b: Asid :: PcOf(r, b) == PcOf(s, b);
    SameOwnerCopy(s, r);
  }

  /** What the page is to hold after a step: only a store to it and a launch of its U-proc have an
      effect on it. */
  function Meant(s: State, e: Event, v: Vpage): Content
    requires Enabled(s, e)
  {
    match e
    case Store(a, page, off, w) => if v == Vpage(a, page) then Abs(s, v)[off := w] else Abs(s, v)
    case Execute(_, child) => if v.asid == child then BlockOf(s, v) else Abs(s, v)
    case Launch(child) => if v.asid == child then BlockOf(s, v) else Abs(s, v)
    case _ => Abs(s, v)
  }

  /** A pager is about to write to the page's block from a frame that a stale entry took for the
      page's, and that holds something else. */
  predicate Overwritten(s: State, e: Event, v: Vpage) {
    && e.Go? && PcOf(s, e.a).Evict?
    && var i := PcOf(s, e.a).i;
       Stale(s, i) && s.swap[i].pte == v && s.frames[i] != Abs(s, v)
  }

  /** The write of the page fails before the block has moved, and the block holds something else. */
  predicate Unwritten(s: State, e: Event, v: Vpage) {
    && e.Done? && !e.ready && WritingBack(PcOf(s, e.a), v)
    && s.frames[PcOf(s, e.a).i] != BlockOf(s, v)
  }

  predicate Loses(s: State, e: Event, v: Vpage) {
    Overwritten(s, e, v) || Unwritten(s, e, v)
  }

  /** The flash error that leaves a swap pool entry behind, naming the page. */
  predicate Taints(s: State, e: Event, v: Vpage) {
    e.Done? && !e.ready && PcOf(s, e.a).Flash? && !Free(s.swap[PcOf(s, e.a).i]) && s.swap[PcOf(s, e.a).i].pte == v
  }

  /** The events that change what a page holds, by design or by loss. */
  predicate Special(s: State, e: Event) {
    e.Store? || e.Execute? || e.Launch? || (e.Go? && PcOf(s, e.a).Evict?) || (e.Done? && !e.ready)
  }

  lemma OtherContent(s: State, e: Event)
    requires Consistent(s) && Enabled(s, e) && !Special(s, e)
    ensures Kept(s, Step(s, e))
  {
    hide Inv, Kept, ReadIn, GoStep, LaunchUproc, Launchable, Transfer, PcOf;
    match e
    case Load(_, _, _) => TlbContent(s, s);
    case Refill(_, _) => TlbContent(s, Step(s, e));
    case Fault(a, page) => FaultContent(s, a, PagerP(Some(page)));
    case BadFault(a) => FaultContent(s, a, PagerP(None));
    case Trap(a) => FaultContent(s, a, TermP);
    case Drop(_) => TlbContent(s, Step(s, e));
    case Go(a) => GoContent(s, a);
    case Move(a) => if PcOf(s, a).op == Write { WriteContent(s, a); } else { ReadContent(s, a); }
    case Done(a, _) => DoneContent(s, a);
    case Await => TlbContent(s, Step(s, e));
    case _ => {}
  }

  lemma ExecuteContent(s: State, a: Asid, c: Asid)
    requires Consistent(s) && Enabled(s, Execute(a, c))
    ensures var r := Step(s, Execute(a, c));
            && ReadIn(r) && NoNewTaint(s, r)
            && (forall v: Vpage :: v.asid != c && Active(PcOf(r, v.asid)) ==> Active(PcOf(s, v.asid)))
            && (forall v: Vpage :: Active(PcOf(r, v.asid)) ==> Abs(r, v) == Meant(s, Execute(a, c), v))
  {
    hide Inv, ReadIn, LaunchUproc, Launchable, PcOf, Abs, BlockOf, Active, Stale;
    LaunchContent(s, c);
    LaunchInv(s, c);
    StillUser(s, a, c);
    FaultContent(LaunchUproc(s, c), a, ExecP(c));
  }

  /** Each step, flash errors included, keeps every page of every active U-proc, and makes it what
      a store or launch makes it, unless it is one that loses the page. */
  lemma StepExact(s: State, e: Event, v: Vpage)
    requires Consistent(s) && Enabled(s, e) && Active(PcOf(Step(s, e), v.asid))
    ensures Abs(Step(s, e), v) == Meant(s, e, v) <==> !Loses(s, e, v)
  {
    hide Inv, ReadIn, GoStep, LaunchUproc, Launchable, Transfer, PcOf, Active, Abs, BlockOf, Stale, WritingBack;
    if !Special(s, e) {
      OtherContent(s, e);
      QuietLoses(s, e, v);
    } else if e.Store? {
      StoreContent(s, e);
    } else if e.Execute? {
      ExecuteContent(s, e.a, e.child);
    } else if e.Launch? {
      LaunchContent(s, e.child);
    } else if e.Go? {
      EvictContent(s, e.a);
    } else {
      ErrorContent(s, e.a);
    }
  }

  lemma QuietLoses(s: State, e: Event, v: Vpage)
    requires Enabled(s, e) && !Special(s, e)
    ensures !Loses(s, e, v) && Meant(s, e, v) == Abs(s, v)
  {
  }

  /** A page becomes one that a stale entry names by a flash error, and by nothing else. */
  lemma TaintExact(s: State, e: Event, v: Vpage)
    requires Consistent(s) && Enabled(s, e)
    ensures Consistent(Step(s, e))
    ensures Taints(s, e, v) ==> Tainted(Step(s, e), v)
    ensures Tainted(Step(s, e), v) ==> Tainted(s, v) || Taints(s, e, v)
  {
    StepInv(s, e);
    hide Inv, ReadIn, GoStep, LaunchUproc, Launchable, Transfer, PcOf, Active, Abs, BlockOf, Stale, WritingBack;
    if !Special(s, e) {
      OtherContent(s, e);
    } else if e.Store? {
      StoreContent(s, e);
    } else if e.Execute? {
      ExecuteContent(s, e.a, e.child);
    } else if e.Launch? {
      LaunchContent(s, e.child);
    } else if e.Go? {
      EvictContent(s, e.a);
    } else {
      ErrorContent(s, e.a);
    }
  }

  /** A page that is lost is one that a stale entry names, before the step or after it. */
  lemma LostTainted(s: State, e: Event, v: Vpage)
    requires Consistent(s) && Enabled(s, e) && Loses(s, e, v)
    ensures Tainted(s, v) || Tainted(Step(s, e), v)
    ensures Active(PcOf(s, v.asid)) && Active(PcOf(Step(s, e), v.asid))
  {
    hide Inv, ReadIn, GoStep, Active, Abs, BlockOf, Stale, PcOf, WritingBack;
    if e.Go? {
      EvictContent(s, e.a);
    } else {
      ErrorContent(s, e.a);
    }
  }

  // ---------------------------------------------------------------- flat memory, step by step

  lemma LoadRefines(s: State, flat: Flat, e: Event)
    requires Inv(s) && Enabled(s, e) && e.Load? && Agrees(s, flat, Vpage(e.a, e.page))
    ensures Loaded(s, e) == FlatOf(flat, Vpage(e.a, e.page))[e.off]
  {
    AccessIsAbs(s, e.a, e.page);
  }

  /** Flat memory changes as pages are meant to. */
  lemma FlatMeant(s: State, flat: Flat, e: Event, v: Vpage)
    requires Consistent(s) && Enabled(s, e) && Agrees(s, flat, v) && Active(PcOf(Step(s, e), v.asid))
    ensures FlatOf(FlatStep(s, flat, e), v) == Meant(s, e, v)
  {
    hide Inv, ReadIn, GoStep, LaunchUproc, Launchable, Transfer, PcOf, Active, Abs, Stale, WritingBack;
    ActiveBefore(s, e, v);
  }

  lemma ActiveBefore(s: State, e: Event, v: Vpage)
    requires Consistent(s) && Enabled(s, e) && Active(PcOf(Step(s, e), v.asid))
    ensures Active(PcOf(s, v.asid)) || ((e.Execute? || e.Launch?) && v.asid == e.child)
  {
    hide Inv, ReadIn, GoStep, LaunchUproc, Launchable, Transfer, PcOf, Active, Abs, BlockOf, Stale, WritingBack;
    if !Special(s, e) {
      OtherContent(s, e);
    } else if e.Store? {
      StoreContent(s, e);
    } else if e.Execute? {
      ExecuteContent(s, e.a, e.child);
    } else if e.Launch? {
      LaunchContent(s, e.child);
    } else if e.Go? {
      EvictContent(s, e.a);
    } else {
      ErrorContent(s, e.a);
    }
  }

  /** A page equal to flat memory stays so, through every step but those that lose it. */
  lemma StepAgrees(s: State, flat: Flat, e: Event, v: Vpage)
    requires Consistent(s) && Enabled(s, e) && Agrees(s, flat, v)
    ensures Agrees(Step(s, e), FlatStep(s, flat, e), v) <==> !Loses(s, e, v)
  {
    hide Inv, ReadIn, Step, Enabled, PcOf, Active, Abs, Stale, WritingBack, FlatStep, Meant, Loses, FlatOf;
    if Active(PcOf(Step(s, e), v.asid)) {
      StepExact(s, e, v);
      FlatMeant(s, flat, e, v);
    } else if Loses(s, e, v) {
      LostTainted(s, e, v);
    }
  }

  /** Each step, taken READY, keeps virtual memory equal to flat memory; and a load returns what
      flat memory holds. */
  lemma StepRefines(s: State, flat: Flat, e: Event)
    requires Sound(s) && Refines(s, flat) && Enabled(s, e) && Ready(e)
    ensures Sound(Step(s, e)) && Refines(Step(s, e), FlatStep(s, flat, e))
    ensures e.Load? ==> Loaded(s, e) == FlatOf(flat, Vpage(e.a, e.page))[e.off]
  {
    hide Inv, ReadIn, Step, Enabled, PcOf, Active, Abs, Stale, WritingBack, FlatStep, FlatOf;
    forall v: Vpage
      ensures Agrees(Step(s, e), FlatStep(s, flat, e), v) && !Tainted(Step(s, e), v)
    {
      assert Agrees(s, flat, v);
      TaintExact(s, e, v);
      StepAgrees(s, flat, e, v);
    }
    forall i: Frame
      ensures !Stale(Step(s, e), i)
    {
      assert !Tainted(Step(s, e), Step(s, e).swap[i].pte);
    }
    TaintExact(s, e, Vpage(1, 0));
    if e.Load? { LoadRefines(s, flat, e); }
  }

  /** The machine goes from `s` to `t` by the events `es`. */
  ghost predicate Run(s: State, es: seq<Event>, t: State)
    decreases |es|
  {
    if es == [] then s == t else Enabled(s, es[0]) && Run(Step(s, es[0]), es[1..], t)
  }

  /** Along the run every load returns what flat memory holds at that moment. */
  ghost predicate LooksFlat(s: State, flat: Flat, es: seq<Event>)
    decreases |es|
  {
    es != [] && Enabled(s, es[0]) ==>
      && (es[0].Load? ==> Loaded(s, es[0]) == FlatOf(flat, Vpage(es[0].a, es[0].page))[es[0].off])
      && LooksFlat(Step(s, es[0]), FlatStep(s, flat, es[0]), es[1..])
  }

  /** Flat memory after the run. */
  ghost function FlatAfter(s: State, flat: Flat, es: seq<Event>): Flat
    decreases |es|
  {
    if es == [] || !Enabled(s, es[0]) then flat else FlatAfter(Step(s, es[0]), FlatStep(s, flat, es[0]), es[1..])
  }

  /** Paging is invisible over every READY run, whatever U-procs, pagers and terminations are
      interleaved. */
  lemma {:induction false} RunRefines(s: State, flat: Flat, es: seq<Event>, t: State)
    requires Sound(s) && Refines(s, flat) && Run(s, es, t) && forall e :: e in es ==> Ready(e)
    ensures LooksFlat(s, flat, es) && Sound(t) && Refines(t, FlatAfter(s, flat, es))
    decreases |es|
  {
    if es != [] {
      assert es[0] in es;
      StepRefines(s, flat, es[0]);
      hide Sound, Refines, Step, Enabled, FlatStep;
      RunRefines(Step(s, es[0]), FlatStep(s, flat, es[0]), es[1..], t);
    }
  }

  lemma StartRefines(frames: Frames, flash: map<Vpage, Content>)
    ensures Sound(Start(frames, flash)) && Refines(Start(frames, flash), flash)
  {
    StartInv(frames, flash);
    hide Inv;
  }

  /** Neither stores nor launches. */
  predicate Silent(e: Event) {
    !e.Store? && !e.Execute? && !e.Launch?
  }

  lemma {:induction false} SilentRun(s: State, flat: Flat, es: seq<Event>)
    requires forall e :: e in es ==> Silent(e)
    ensures FlatAfter(s, flat, es) == flat
    decreases |es|
  {
    if es != [] && Enabled(s, es[0]) {
      assert es[0] in es;
      assert FlatStep(s, flat, es[0]) == flat;
      hide Step, Enabled, FlatStep;
      SilentRun(Step(s, es[0]), flat, es[1..]);
    }
  }
}
