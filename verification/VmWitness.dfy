/** Runs from `test` in which what fails does fail: a page evicted early and a store lost after a
    flash error, and a U-proc launched over the TLB entries of the one before it. */
module VmWitness {
  import opened Queues
  import opened Vm
  import opened VmInvariant
  import opened Paging
  import opened PagingHistory
  import opened Residency
  import opened SupportCode
  import opened SoloRuns

  // ---------------------------------------------------------------- reaching a state

  /** No launch of the shell among the events. */
  predicate ShellStays(es: seq<Event>) {
    forall e :: e in es ==> !((e.Execute? || e.Launch?) && e.child == SHELL)
  }

  /** Some run leads from `s` to `t` and takes flat memory from `f` to `g`; if `clean`, one without
      flash errors. */
  ghost predicate Reaches(clean: bool, s: State, f: Flat, t: State, g: Flat) {
    exists es :: Run(s, es, t) && FlatAfter(s, f, es) == g && ShellStays(es) && (clean ==> Flawless(es))
  }

  lemma {:induction false} FlatAppend(s: State, f: Flat, es: seq<Event>, t: State, fs: seq<Event>)
    requires Run(s, es, t)
    ensures FlatAfter(s, f, es + fs) == FlatAfter(t, FlatAfter(s, f, es), fs)
    decreases |es|
  {
    hide Step, Enabled, FlatStep;
    if es == [] {
      assert es + fs == fs;
    } else {
      assert (es + fs)[1..] == es[1..] + fs;
      FlatAppend(Step(s, es[0]), FlatStep(s, f, es[0]), es[1..], t, fs);
    }
  }

  lemma ReachesOn(clean: bool, s: State, f: Flat, t: State, g: Flat, u: State, h: Flat)
    requires Reaches(clean, s, f, t, g) && Reaches(clean, t, g, u, h)
    ensures Reaches(clean, s, f, u, h)
  {
    hide Run, FlatAfter;
    var es :| Run(s, es, t) && FlatAfter(s, f, es) == g && ShellStays(es) && (clean ==> Flawless(es));
    var fs :| Run(t, fs, u) && FlatAfter(t, g, fs) == h && ShellStays(fs) && (clean ==> Flawless(fs));
    RunAppend(s, es, t, fs, u);
    FlatAppend(s, f, es, t, fs);
    assert ShellStays(es + fs);
  }

  lemma ReachesAnyhow(s: State, f: Flat, t: State, g: Flat)
    requires Reaches(true, s, f, t, g)
    ensures Reaches(false, s, f, t, g)
  {
    hide Run, FlatAfter, ShellStays;
  }

  lemma ReachesStep(s: State, f: Flat, e: Event)
    requires Enabled(s, e) && ShellStays([e]) && Ready(e)
    ensures Reaches(true, s, f, Step(s, e), FlatStep(s, f, e))
  {
    hide Step, Enabled, FlatStep;
    RunOne(s, e);
    assert FlatAfter(s, f, [e]) == FlatAfter(Step(s, e), FlatStep(s, f, e), [e][1..]);
  }

  lemma ReachesBy(clean: bool, s: State, f: Flat, es: seq<Event>, t: State)
    requires Run(s, es, t) && Discreet(es) && (clean ==> Flawless(es))
    ensures Reaches(clean, s, f, t, f)
  {
    hide Run;
    SilentRun(s, f, es);
    assert ShellStays(es);
  }

  lemma ReachesConsistent(clean: bool, s: State, f: Flat, t: State, g: Flat)
    requires Consistent(s) && Reaches(clean, s, f, t, g)
    ensures Consistent(t)
  {
    hide Run, Consistent;
    var es :| Run(s, es, t) && FlatAfter(s, f, es) == g && ShellStays(es);
    RunKeeps(s, es, t);
  }

  /** The shell, active at the end and never launched again, was active all along. */
  lemma {:induction false} ActiveAlong(s: State, es: seq<Event>, t: State)
    requires Consistent(s) && Run(s, es, t) && ShellStays(es) && Active(PcOf(t, SHELL))
    ensures StaysActive(s, es, SHELL)
    decreases |es|
  {
    if es != [] {
      assert es[0] in es;
      TaintExact(s, es[0], Vpage(SHELL, 0));
      hide Consistent, Step, Enabled, Active, PcOf, Tainted, Taints;
      ActiveAlong(Step(s, es[0]), es[1..], t);
      assert Active(PcOf(Step(s, es[0]), SHELL));
      ActiveBefore(s, es[0], Vpage(SHELL, 0));
    }
  }

  lemma ReachedActive(s: State, f: Flat, t: State, g: Flat)
    requires Consistent(s) && Reaches(true, s, f, t, g) && Active(PcOf(t, SHELL))
    ensures exists es :: Run(s, es, t) && Flawless(es) && StaysActive(s, es, SHELL)
  {
    hide Run, Consistent, Active, StaysActive, Flawless;
    var es :| Run(s, es, t) && FlatAfter(s, f, es) == g && ShellStays(es) && Flawless(es);
    ActiveAlong(s, es, t);
  }

  // ---------------------------------------------------------------- a page is loaded

  /** What a page fault of `a` on page `p` leads to, READY, with nobody else in the swap pool. */
  ghost predicate PagedIn(s: State, r: State, a: Asid, p: Page) {
    var i: Frame := s.fifoNext % SWAP_POOL_SIZE;
    var v := Vpage(a, p);
    var u := s.swap[i].pte;
    var used := !Free(s.swap[i]);
    && r.swap == s.swap[i := Slot(a, p, v)]
    && (forall w: Vpage :: PteOf(r, w) == if w == v then Pte(true, i)
                                          else if used && w == u then PteOf(s, w).(valid := false) else PteOf(s, w))
    && (forall w: Vpage :: BlockOf(r, w) == if used && w == u then s.frames[i] else BlockOf(s, w))
    && r.frames == s.frames[i := BlockOf(r, v)]
    && r.tlb == map[v := Pte(true, i)]
    && (forall b: Asid :: PcOf(r, b) == PcOf(s, b))
    && SameSems(s, r) && r.choices == s.choices + 1 && r.fifoNext == (s.fifoNext + 1) % SWAP_POOL_SIZE
  }

  predicate SameSems(s: State, r: State) {
    r.swapPoolSem == s.swapPoolSem && r.shellSem == s.shellSem && r.shellQueue == s.shellQueue
  }

  /** The faulting U-proc at the pager. */
  function Faulted(s: State, a: Asid, p: Page): State {
    Goto(s.(tlb := s.tlb[Vpage(a, p) := PteOf(s, Vpage(a, p))]), a, PagerP(Some(p)))
  }

  lemma FaultReaches(s: State, f: Flat, a: Asid, p: Page)
    requires PcOf(s, a) == User && Vpage(a, p) !in s.tlb && !PteOf(s, Vpage(a, p)).valid
    ensures Reaches(true, s, f, Faulted(s, a, p), f)
  {
    hide Reaches, PteOf, PcOf;
    var s1 := Step(s, Refill(a, p));
    ReachesStep(s, f, Refill(a, p));
    SamePc(s, s1, a);
    ReachesStep(s1, f, Fault(a, p));
    ReachesOn(true, s, f, s1, f, Step(s1, Fault(a, p)), f);
  }

  lemma SamePc(s: State, r: State, a: Asid)
    requires r.pcs == s.pcs
    ensures PcOf(r, a) == PcOf(s, a)
  {
  }

  /** A pager with the swap pool to itself reaches what its code computes. */
  lemma PagerReaches(s: State, f: Flat, a: Asid, p: Page, wrote: bool, read: bool)
    requires Consistent(s) && s.swapPoolSem == 1 && PcOf(s, a) == PagerP(Some(p))
    ensures Reaches(wrote && read, s, f, PagerEffect(s, a, Some(p), wrote, read), f)
  {
    hide Run, PagerEffect, PcOf, ReadIn, Discreet, Flawless, Inv;
    PagerRuns(s, a, Some(p), wrote, read);
    var es :| Run(s, es, PagerEffect(s, a, Some(p), wrote, read)) && Discreet(es) && (wrote && read ==> Flawless(es));
    ReachesBy(wrote && read, s, f, es, PagerEffect(s, a, Some(p), wrote, read));
  }

  lemma VictimIs(s: State, i: Frame, a: Asid)
    requires Inv(s) && !Free(s.swap[i])
    ensures Victim(s.swap[i], a) == s.swap[i].pte
  {
    hide Mutex, Parents, FlashFree, Fifo, Exclusive, Faulting, Transits, Coherent, OwnsFrom;
    assert Owns(s, s.swap[i], i);
  }

  /** The pager's effect, with the tables of the state before the fault. */
  lemma EffectPagesIn(s: State, a: Asid, p: Page)
    requires PcOf(s, a) == User
    requires var i: Frame := s.fifoNext % SWAP_POOL_SIZE; Free(s.swap[i]) || Victim(s.swap[i], a) == s.swap[i].pte
    ensures PagedIn(s, PagerEffect(Faulted(s, a, p), a, Some(p), true, true), a, p)
  {
    hide EvictEffect, LoadEffect, PcOf, PteOf, BlockOf, Faulted, PagerEffect, Victim, SameSems;
    var i: Frame := s.fifoNext % SWAP_POOL_SIZE;
    var s1 := EvictEffect(Faulted(s, a, p), a, true);
    EvictTables(s, a, p);
    LoadTables(s1, a, p, i);
    EffectIs(s, a, p);
    SameSemsTwice(s, s1, LoadEffect(s1, a, p, i, true));
  }

  lemma SameSemsTwice(s: State, r: State, t: State)
    requires SameSems(s, r) && SameSems(r, t)
    ensures SameSems(s, t)
  {
  }

  lemma EffectIs(s: State, a: Asid, p: Page)
    ensures PagerEffect(Faulted(s, a, p), a, Some(p), true, true)
         == LoadEffect(EvictEffect(Faulted(s, a, p), a, true), a, p, s.fifoNext % SWAP_POOL_SIZE, true)
  {
    hide EvictEffect, LoadEffect, PteOf;
  }

  lemma EvictTables(s: State, a: Asid, p: Page)
    requires PcOf(s, a) == User
    requires var i: Frame := s.fifoNext % SWAP_POOL_SIZE; Free(s.swap[i]) || Victim(s.swap[i], a) == s.swap[i].pte
    ensures var i: Frame := s.fifoNext % SWAP_POOL_SIZE;
            var u := s.swap[i].pte;
            var used := !Free(s.swap[i]);
            var r := EvictEffect(Faulted(s, a, p), a, true);
            && r.swap == s.swap && r.frames == s.frames && SameSems(s, r)
            && r.choices == s.choices + 1 && r.fifoNext == (s.fifoNext + 1) % SWAP_POOL_SIZE
            && (forall w: Vpage :: PteOf(r, w) == if used && w == u then PteOf(s, w).(valid := false) else PteOf(s, w))
            && (forall w: Vpage :: BlockOf(r, w) == if used && w == u then s.frames[i] else BlockOf(s, w))
            && (forall b: Asid :: PcOf(r, b) == if b == a then PagerP(Some(p)) else PcOf(s, b))
  {
    hide Victim, MutexOf;
  }

  lemma LoadTables(s: State, a: Asid, p: Page, i: Frame)
    ensures var v := Vpage(a, p);
            var r := LoadEffect(s, a, p, i, true);
            && r.swap == s.swap[i := Slot(a, p, v)] && r.frames == s.frames[i := BlockOf(s, v)] && SameSems(s, r)
            && r.tlb == map[v := Pte(true, i)] && r.choices == s.choices && r.fifoNext == s.fifoNext
            && (forall w: Vpage :: PteOf(r, w) == (if w == v then Pte(true, i) else PteOf(s, w))
                                && BlockOf(r, w) == BlockOf(s, w))
            && (forall b: Asid :: PcOf(r, b) == if b == a then User else PcOf(s, b))
  {
    hide MutexOf;
  }

  /** A running U-proc touches a page that is not present. */
  lemma PagesIn(s: State, f: Flat, a: Asid, p: Page) returns (r: State)
    requires Consistent(s) && PcOf(s, a) == User && s.swapPoolSem == 1
    requires Vpage(a, p) !in s.tlb && !PteOf(s, Vpage(a, p)).valid
    ensures Consistent(r) && Reaches(true, s, f, r, f) && PagedIn(s, r, a, p)
  {
    hide Reaches, PcOf, PteOf, PagedIn, Consistent, Inv, Free, Victim;
    var i: Frame := s.fifoNext % SWAP_POOL_SIZE;
    var s1 := Faulted(s, a, p);
    ConsistentInv(s);
    FaultReaches(s, f, a, p);
    ReachesConsistent(true, s, f, s1, f);
    AtPager(s, a, p);
    PagerReaches(s1, f, a, p, true, true);
    r := PagerEffect(s1, a, Some(p), true, true);
    ReachesOn(true, s, f, s1, f, r, f);
    ReachesConsistent(true, s, f, r, f);
    if !Free(s.swap[i]) { VictimIs(s, i, a); }
    EffectPagesIn(s, a, p);
  }

  lemma ConsistentInv(s: State)
    requires Consistent(s)
    ensures Inv(s)
  {
  }

  lemma AtPager(s: State, a: Asid, p: Page)
    ensures PcOf(Faulted(s, a, p), a) == PagerP(Some(p)) && Faulted(s, a, p).swapPoolSem == s.swapPoolSem
  {
  }

  // ---------------------------------------------------------------- an eviction fails

  /** What a page fault of `a` leads to whose chosen frame is in use and whose write-back fails. */
  ghost predicate FailedOut(s: State, r: State, a: Asid) {
    var u := s.swap[s.fifoNext % SWAP_POOL_SIZE].pte;
    && r.swap == s.swap && r.frames == s.frames && r.tlb == map[]
    && (forall w: Vpage :: PteOf(r, w) == if w == u then PteOf(s, w).(valid := false) else PteOf(s, w))
    && (forall w: Vpage :: BlockOf(r, w) == BlockOf(s, w))
    && (forall b: Asid :: PcOf(r, b) == if b == a then TermP else PcOf(s, b))
    && SameSems(s, r) && r.choices == s.choices + 1 && r.fifoNext == (s.fifoNext + 1) % SWAP_POOL_SIZE
  }

  lemma EffectFails(s: State, a: Asid, p: Page)
    requires !Free(s.swap[s.fifoNext % SWAP_POOL_SIZE])
    ensures FailedOut(s, PagerEffect(Faulted(s, a, p), a, Some(p), false, false), a)
  {
    hide EvictEffect, PteOf, BlockOf, Faulted, PcOf;
    EvictUnwritten(s, a, p);
    EffectAborts(s, a, p);
  }

  lemma EffectAborts(s: State, a: Asid, p: Page)
    requires !Free(s.swap[s.fifoNext % SWAP_POOL_SIZE])
    ensures var s1 := EvictEffect(Faulted(s, a, p), a, false);
            var r := PagerEffect(Faulted(s, a, p), a, Some(p), false, false);
            && r == Goto(s1, a, TermP)
            && (forall b: Asid :: PcOf(r, b) == if b == a then TermP else PcOf(s1, b))
            && (forall w: Vpage :: PteOf(r, w) == PteOf(s1, w) && BlockOf(r, w) == BlockOf(s1, w))
  {
    hide EvictEffect, LoadEffect, MutexOf;
  }

  lemma EvictUnwritten(s: State, a: Asid, p: Page)
    requires !Free(s.swap[s.fifoNext % SWAP_POOL_SIZE])
    ensures var r := EvictEffect(Faulted(s, a, p), a, false);
            var u := s.swap[s.fifoNext % SWAP_POOL_SIZE].pte;
            && r.swap == s.swap && r.frames == s.frames && r.tlb == map[] && SameSems(s, r)
            && r.choices == s.choices + 1 && r.fifoNext == (s.fifoNext + 1) % SWAP_POOL_SIZE
            && (forall w: Vpage :: PteOf(r, w) == if w == u then PteOf(s, w).(valid := false) else PteOf(s, w))
            && (forall w: Vpage :: BlockOf(r, w) == BlockOf(s, w))
            && (forall b: Asid :: b != a ==> PcOf(r, b) == PcOf(s, b))
  {
    hide Victim, MutexOf;
  }

  lemma EvictionFails(s: State, f: Flat, a: Asid, p: Page) returns (r: State)
    requires Consistent(s) && PcOf(s, a) == User && s.swapPoolSem == 1
    requires Vpage(a, p) !in s.tlb && !PteOf(s, Vpage(a, p)).valid && !Free(s.swap[s.fifoNext % SWAP_POOL_SIZE])
    ensures Consistent(r) && Reaches(false, s, f, r, f) && FailedOut(s, r, a)
  {
    hide Reaches, PcOf, PteOf, FailedOut, Consistent, Inv, Free;
    var s1 := Faulted(s, a, p);
    FaultReaches(s, f, a, p);
    ReachesConsistent(true, s, f, s1, f);
    AtPager(s, a, p);
    PagerReaches(s1, f, a, p, false, false);
    r := PagerEffect(s1, a, Some(p), false, false);
    ReachesAnyhow(s, f, s1, f);
    ReachesOn(false, s, f, s1, f, r, f);
    ReachesConsistent(false, s, f, r, f);
    EffectFails(s, a, p);
  }

  // ---------------------------------------------------------------- a child, from launch to end

  /** A child has ended: its frames are free, its page table and the TLB are as they were, and
      `shellSemaphore` has been raised. */
  ghost predicate Ended(s: State, r: State, a: Asid) {
    && (forall i: Frame :: r.swap[i] == if s.swap[i].asid == a then s.swap[i].(asid := SWAP_FRAME_FREE) else s.swap[i])
    && r.ptes == s.ptes && r.flash == s.flash && r.frames == s.frames && r.tlb == s.tlb
    && (forall b: Asid :: PcOf(r, b) == if b == a then Gone else PcOf(s, b))
    && r.swapPoolSem == s.swapPoolSem && r.shellSem == s.shellSem + 1 && r.shellQueue == s.shellQueue
    && r.choices == s.choices && r.fifoNext == s.fifoNext
  }

  lemma GoReaches(s: State, f: Flat, a: Asid)
    requires CanGo(PcOf(s, a))
    ensures Reaches(true, s, f, GoStep(s, a), f)
  {
    hide Reaches, CanGo, GoStep;
    ReachesStep(s, f, Go(a));
  }

  lemma EndEnters(s: State, a: Asid)
    requires PcOf(s, a) == TermP && s.swapPoolSem == 1
    ensures GoStep(s, a) == Held(s, a, TermLoop(0)) && PcOf(Held(s, a, TermLoop(0)), a) == TermLoop(0)
  {
  }

  lemma FreedNone(t: Pool, a: Asid)
    ensures FreedUpTo(t, a, 0) == t
  {
  }

  /** The V on the swap pool and the V for the shell. */
  function Leaves(s: State, a: Asid): State {
    Goto(s, a, Gone).(swapPoolSem := s.swapPoolSem + 1, owner := None, shellSem := s.shellSem + 1)
  }

  lemma EndLeaves(s: State, f: Flat, a: Asid)
    requires PcOf(s, a) == TermV && s.swapPoolSem == 0 && s.swapQueue == [] && a != SHELL && s.shellSem == 0
             && s.shellQueue == []
    ensures Reaches(true, s, f, Leaves(s, a), f)
  {
    hide Reaches;
    var s1 := Goto(s, a, Signal).(swapPoolSem := s.swapPoolSem + 1, owner := None);
    GoReaches(s, f, a);
    assert GoStep(s, a) == s1 && PcOf(s1, a) == Signal;
    GoReaches(s1, f, a);
    assert s1.pcs[a := Gone] == s.pcs[a := Gone];
    assert GoStep(s1, a) == Leaves(s, a);
    ReachesOn(true, s, f, s1, f, Leaves(s, a), f);
  }

  lemma EndTables(s: State, a: Asid)
    ensures var s2 := Goto(Held(s, a, TermLoop(0)).(swap := FreedUpTo(s.swap, a, SWAP_POOL_SIZE)), a, TermV);
            && PcOf(s2, a) == TermV && s2.swapPoolSem == 0 && s2.swapQueue == s.swapQueue && s2.shellSem == s.shellSem
            && s2.shellQueue == s.shellQueue
            && (s.swapPoolSem == 1 ==> Ended(s, Leaves(s2, a), a))
  {
  }

  /** `supTerminate` of a child, with nobody else in the swap pool and before the shell waits. */
  lemma Ends(s: State, f: Flat, a: Asid) returns (r: State)
    requires Consistent(s) && PcOf(s, a) == TermP && s.swapPoolSem == 1 && a != SHELL && s.shellSem == 0
             && s.shellQueue == []
    ensures Consistent(r) && Reaches(true, s, f, r, f) && Ended(s, r, a)
  {
    hide Reaches, Consistent, Inv, Ended, Run, Discreet, Flawless, ReadIn, FreedUpTo, Exit, SignalEnd, Enter, GoStep,
         PcOf, Held, Goto;
    ConsistentInv(s);
    Undisturbed(s);
    var s1 := Held(s, a, TermLoop(0));
    EndEnters(s, a);
    GoReaches(s, f, a);
    FreedNone(s.swap, a);
    HeldSwap(s, a);
    FreeingRuns(s1, s.swap, a, 0);
    var s2 := Goto(s1.(swap := FreedUpTo(s.swap, a, SWAP_POOL_SIZE)), a, TermV);
    var es :| Run(s1, es, s2) && Discreet(es) && Flawless(es);
    ReachesBy(true, s1, f, es, s2);
    ReachesOn(true, s, f, s1, f, s2, f);
    EndTables(s, a);
    EndLeaves(s2, f, a);
    r := Leaves(s2, a);
    ReachesOn(true, s, f, s2, f, r, f);
    ReachesConsistent(true, s, f, r, f);
  }

  lemma HeldSwap(s: State, a: Asid)
    ensures Held(s, a, TermLoop(0)).swap == s.swap
  {
  }

  /** The shell executes a child. */
  lemma Executes(s: State, f: Flat, c: Asid) returns (r: State, g: Flat)
    requires Consistent(s) && PcOf(s, SHELL) == User && c != SHELL && Launchable(s, c)
    ensures Consistent(r) && Reaches(true, s, f, r, g)
    ensures r.swap == s.swap && r.frames == s.frames && r.flash == s.flash && r.tlb == s.tlb && SameSems(s, r)
            && r.choices == s.choices && r.fifoNext == s.fifoNext
    ensures forall w: Vpage :: PteOf(r, w) == if w.asid == c then NOT_PRESENT else PteOf(s, w)
    ensures forall b: Asid :: PcOf(r, b) == if b == SHELL then ExecP(c) else if b == c then User else PcOf(s, b)
    ensures forall w: Vpage :: w.asid == SHELL ==> FlatOf(g, w) == FlatOf(f, w)
  {
    hide Consistent, Reaches, Launchable;
    r := Step(s, Execute(SHELL, c));
    g := FlatStep(s, f, Execute(SHELL, c));
    ReachesStep(s, f, Execute(SHELL, c));
    ReachesConsistent(true, s, f, r, g);
  }

  /** The child has ended: the P of EXECUTE passes. */
  lemma Passes(s: State, f: Flat) returns (r: State)
    requires Consistent(s) && PcOf(s, SHELL).ExecP? && s.shellSem == 1
    ensures Consistent(r) && Reaches(true, s, f, r, f)
    ensures r.swap == s.swap && r.frames == s.frames && r.flash == s.flash && r.tlb == s.tlb && r.ptes == s.ptes
            && r.choices == s.choices && r.fifoNext == s.fifoNext
            && r.swapPoolSem == s.swapPoolSem && r.shellSem == 0 && r.shellQueue == s.shellQueue
    ensures forall b: Asid :: PcOf(r, b) == if b == SHELL then User else PcOf(s, b)
  {
    hide Consistent, Reaches;
    r := GoStep(s, SHELL);
    GoReaches(s, f, SHELL);
    ReachesConsistent(true, s, f, r, f);
  }

  /** A running U-proc stores `w` at the start of a page that is in the TLB. */
  lemma Stores(s: State, f: Flat, a: Asid, p: Page, w: int) returns (r: State, g: Flat)
    requires Consistent(s) && PcOf(s, a) == User && Vpage(a, p) in s.tlb && s.tlb[Vpage(a, p)].valid
    ensures Consistent(r) && Reaches(true, s, f, r, g)
    ensures var i := s.tlb[Vpage(a, p)].frame; r == s.(frames := s.frames[i := s.frames[i][0 := w]])
    ensures FlatOf(g, Vpage(a, p))[0] == w
  {
    hide Consistent, Reaches;
    var e := Store(a, p, 0, w);
    r := Step(s, e);
    g := FlatStep(s, f, e);
    ReachesStep(s, f, e);
    ReachesConsistent(true, s, f, r, g);
  }

  /** A running U-proc gives up. */
  lemma Traps(s: State, f: Flat, a: Asid) returns (r: State)
    requires Consistent(s) && PcOf(s, a) == User
    ensures Consistent(r) && Reaches(true, s, f, r, f) && r == Goto(s, a, TermP)
  {
    hide Consistent, Reaches;
    r := Step(s, Trap(a));
    ReachesStep(s, f, Trap(a));
    ReachesConsistent(true, s, f, r, f);
  }

  // ---------------------------------------------------------------- a launch over old TLB entries

  const CHILD: Asid := 2

  lemma Starts(frames: Frames, flash: map<Vpage, Content>)
    ensures var s := Start(frames, flash);
            && Consistent(s) && PcOf(s, SHELL) == User && (forall b: Asid :: b != SHELL ==> PcOf(s, b) == Idle)
            && s.tlb == map[] && s.swapPoolSem == 1 && s.shellSem == 0 && s.shellQueue == []
            && s.choices == 0 && s.fifoNext == 0 && (forall i: Frame :: Free(s.swap[i]))
            && (forall v: Vpage :: !PteOf(s, v).valid)
  {
    StartConsistent(frames, flash);
  }

  /** The child ends, and the shell goes on. */
  lemma EndsAndPasses(s: State, f: Flat) returns (r: State)
    requires Consistent(s) && PcOf(s, CHILD) == TermP && PcOf(s, SHELL).ExecP? && s.swapPoolSem == 1
    requires s.shellSem == 0 && s.shellQueue == []
    ensures Consistent(r) && Reaches(true, s, f, r, f)
    ensures forall i: Frame :: r.swap[i] == if s.swap[i].asid == CHILD then s.swap[i].(asid := SWAP_FRAME_FREE)
                                            else s.swap[i]
    ensures r.ptes == s.ptes && r.flash == s.flash && r.frames == s.frames && r.tlb == s.tlb
    ensures forall b: Asid :: PcOf(r, b) == if b == CHILD then Gone else if b == SHELL then User else PcOf(s, b)
    ensures SameSems(s, r) && r.choices == s.choices && r.fifoNext == s.fifoNext
  {
    hide Consistent, Reaches, PcOf;
    var s1 := Ends(s, f, CHILD);
    r := Passes(s1, f);
    ReachesOn(true, s, f, s1, f, r, f);
  }

  /** The child gives up. */
  lemma GivesUp(s: State, f: Flat) returns (r: State)
    requires Consistent(s) && PcOf(s, CHILD) == User && PcOf(s, SHELL).ExecP? && s.swapPoolSem == 1
    requires s.shellSem == 0 && s.shellQueue == []
    ensures Consistent(r) && Reaches(true, s, f, r, f)
    ensures r.frames == s.frames && r.flash == s.flash && r.tlb == s.tlb && PcOf(r, CHILD) == Gone
  {
    hide Consistent, Reaches;
    var s1 := Traps(s, f, CHILD);
    r := EndsAndPasses(s1, f);
    ReachesOn(true, s, f, s1, f, r, f);
  }

  /** A run without errors after which the TLB holds a valid entry of an ASID no U-proc has: the
      next U-proc launched with it would read what the last one wrote, not its own image. */
  lemma StaleRelaunch(frames: Frames, flash: map<Vpage, Content>, w: int) returns (t: State, g: Flat)
    requires BlockOf(Start(frames, flash), Vpage(CHILD, 0))[0] != w
    ensures Consistent(t) && Reaches(true, Start(frames, flash), flash, t, g)
    ensures Dead(PcOf(t, CHILD)) && !CleanTlb(t, CHILD) && !Inv(LaunchUproc(t, CHILD))
    ensures var r := LaunchUproc(t, CHILD);
            && Enabled(r, Load(CHILD, 0, 0))
            && Loaded(r, Load(CHILD, 0, 0)) == w != FlatOf(Image(t, g, CHILD), Vpage(CHILD, 0))[0]
  {
    hide Consistent, Reaches, Start, Inv, LaunchUproc;
    var s := Start(frames, flash);
    var v := Vpage(CHILD, 0);
    Starts(frames, flash);
    var s1, f1 := Executes(s, flash, CHILD);
    var s2 := PagesIn(s1, f1, CHILD, 0);
    var s3;
    s3, g := Stores(s2, f1, CHILD, 0, w);
    t := GivesUp(s3, g);
    ReachesOn(true, s, flash, s1, f1, s2, f1);
    ReachesOn(true, s, flash, s2, f1, s3, g);
    ReachesOn(true, s, flash, s3, g, t, g);
    assert BlockOf(t, v) == BlockOf(s, v);
    assert t.tlb == map[v := Pte(true, 0)] && t.frames[0][0] == w;
    Relaunched(t, g, w);
    ConsistentInv(t);
    LaunchExact(t, CHILD);
  }

  lemma Relaunched(t: State, g: Flat, w: int)
    requires var v := Vpage(CHILD, 0); t.tlb == map[v := Pte(true, 0)] && t.frames[0][0] == w != BlockOf(t, v)[0]
    ensures !CleanTlb(t, CHILD)
    ensures var r := LaunchUproc(t, CHILD);
            && Enabled(r, Load(CHILD, 0, 0))
            && Loaded(r, Load(CHILD, 0, 0)) == w != FlatOf(Image(t, g, CHILD), Vpage(CHILD, 0))[0]
  {
    assert Vpage(CHILD, 0) in t.tlb;
  }

  // ---------------------------------------------------------------- a failed write-back

  const LOST := Vpage(SHELL, 0)

  /** The shell runs, nobody else does, after `k` frame choices. */
  ghost predicate ShellOnly(s: State, k: nat) {
    && Consistent(s) && PcOf(s, SHELL) == User && (forall b: Asid :: b != SHELL ==> Dead(PcOf(s, b)))
    && s.swapPoolSem == 1 && s.shellSem == 0 && s.shellQueue == [] && s.choices == k && s.fifoNext == k % SWAP_POOL_SIZE
  }

  /** The shell's pages from `p` on have never been touched. */
  ghost predicate Untouched(s: State, p: nat) {
    && (forall q: Page :: q >= p ==> !PteOf(s, Vpage(SHELL, q)).valid)
    && (forall v: Vpage :: v in s.tlb ==> v.asid == SHELL && v.page < p)
  }

  /** The first `k` pages are in the first `k` frames. */
  ghost predicate Filled(s: State, k: nat, x: Content) {
    && ShellOnly(s, k) && Untouched(s, k) && BlockOf(s, LOST) == x && (k > 0 ==> s.frames[0] == x)
    && (forall i: Frame :: i < k ==> s.swap[i] == Slot(SHELL, i, Vpage(SHELL, i)))
    && (forall i: Frame :: i >= k ==> Free(s.swap[i]))
  }

  lemma FillsOne(s: State, f: Flat, k: Frame, x: Content) returns (r: State)
    requires Filled(s, k, x)
    ensures Filled(r, k + 1, x) && Reaches(true, s, f, r, f)
  {
    hide Consistent, Reaches, PcOf, PteOf, BlockOf, Dead;
    r := PagesIn(s, f, SHELL, k);
  }

  lemma {:induction false} Fills(s: State, f: Flat, k: nat, x: Content) returns (r: State)
    requires k <= SWAP_POOL_SIZE && Filled(s, k, x)
    ensures Filled(r, SWAP_POOL_SIZE, x) && Reaches(true, s, f, r, f)
    decreases SWAP_POOL_SIZE - k
  {
    hide Filled, Reaches;
    if k == SWAP_POOL_SIZE {
      r := s;
      ReachesBy(true, s, f, [], s);
    } else {
      var s1 := FillsOne(s, f, k, x);
      r := Fills(s1, f, k + 1, x);
      ReachesOn(true, s, f, s1, f, r, f);
    }
  }

  /** Page 0 has been evicted from frame 0, whose entry still names it. */
  ghost predicate Torn(s: State, x: Content) {
    && ShellOnly(s, 17) && Untouched(s, 16) && BlockOf(s, LOST) == x && s.frames[0] == x && s.tlb == map[]
    && (forall i: Frame :: s.swap[i] == Slot(SHELL, i, Vpage(SHELL, i))) && !PteOf(s, LOST).valid
  }

  /** A child faults; the write-back of page 0 fails and the child ends. */
  lemma Tears(s: State, f: Flat, x: Content) returns (r: State, g: Flat)
    requires Filled(s, SWAP_POOL_SIZE, x)
    ensures Torn(r, x) && Reaches(false, s, f, r, g) && FlatOf(g, LOST) == FlatOf(f, LOST)
  {
    hide Consistent, Reaches, PcOf, PteOf, BlockOf;
    assert CleanTlb(s, CHILD);
    var s1;
    s1, g := Executes(s, f, CHILD);
    BlockSame(s, s1, LOST);
    var s2 := EvictionFails(s1, g, CHILD, 0);
    r := EndsAndPasses(s2, g);
    ReachesAnyhow(s, f, s1, g);
    ReachesOn(false, s, f, s1, g, s2, g);
    ReachesAnyhow(s2, g, r, g);
    ReachesOn(false, s, f, s2, g, r, g);
    forall v: Vpage
      ensures PteOf(r, v) == PteOf(s2, v) && BlockOf(r, v) == BlockOf(s2, v)
    {
      PteSame(s2, r, v);
      BlockSame(s2, r, v);
    }
  }

  /** Page 0 has been loaded again, by choice 18 into frame 2; choice `k` comes next. */
  ghost predicate Again(s: State, k: nat, x: Content) {
    && ShellOnly(s, k) && k >= 19 && Untouched(s, k - 2) && BlockOf(s, LOST) == x && s.frames[0] == x
    && s.swap[0] == Slot(SHELL, 0, LOST) && PteOf(s, LOST) == Pte(true, 2)
    && (forall i: Frame :: i != 0 && i != 2 ==> !Free(s.swap[i]) && s.swap[i].pte != LOST)
  }

  lemma Reloads(s: State, f: Flat, x: Content) returns (r: State)
    requires Torn(s, x)
    ensures Again(r, 19, x) && Reaches(true, s, f, r, f) && LOST in r.tlb && r.tlb[LOST] == Pte(true, 2)
  {
    hide Consistent, Reaches, PcOf, PteOf, BlockOf, Dead;
    var s1 := PagesIn(s, f, SHELL, 16);
    r := PagesIn(s1, f, SHELL, 0);
    ReachesOn(true, s, f, s1, f, r, f);
  }

  lemma AgainOne(s: State, f: Flat, k: nat, x: Content) returns (r: State)
    requires Again(s, k, x) && k < 32
    ensures Again(r, k + 1, x) && Reaches(true, s, f, r, f)
  {
    hide Consistent, Reaches, PcOf, PteOf, BlockOf, Dead;
    r := PagesIn(s, f, SHELL, k - 2);
  }

  lemma {:induction false} GoesOn(s: State, f: Flat, k: nat, x: Content) returns (r: State)
    requires Again(s, k, x) && k <= 32
    ensures Again(r, 32, x) && Reaches(true, s, f, r, f)
    decreases 32 - k
  {
    hide Again, Reaches;
    if k == 32 {
      r := s;
      ReachesBy(true, s, f, [], s);
    } else {
      var s1 := AgainOne(s, f, k, x);
      r := GoesOn(s1, f, k + 1, x);
      ReachesOn(true, s, f, s1, f, r, f);
    }
  }

  /** Choice 32 takes frame 0, and with it page 0 out of frame 2. */
  lemma TakenAway(s: State, f: Flat, x: Content) returns (r: State)
    requires Again(s, 32, x)
    ensures ShellOnly(r, 33) && Reaches(true, s, f, r, f) && LOST !in r.tlb && !PteOf(r, LOST).valid
            && BlockOf(r, LOST) == x && r.swap[1].pte != LOST
  {
    hide Consistent, Reaches, PcOf, PteOf, BlockOf, Dead;
    r := PagesIn(s, f, SHELL, 30);
  }

  /** Choice 33 loads page 0 once more, and finds in it what it held before the store. */
  lemma ReadsOld(s: State, f: Flat, x: Content) returns (r: State)
    requires ShellOnly(s, 33) && LOST !in s.tlb && !PteOf(s, LOST).valid && BlockOf(s, LOST) == x
    requires s.swap[1].pte != LOST
    ensures Consistent(r) && Reaches(true, s, f, r, f)
    ensures Enabled(r, Load(SHELL, 0, 0)) && Loaded(r, Load(SHELL, 0, 0)) == x[0]
  {
    hide Consistent, Reaches, PteOf, BlockOf, Dead;
    r := PagesIn(s, f, SHELL, 0);
  }

  /** Choice 0 loads the shell's page 0, choice 16 evicts it and fails to write it back, choice 18
      loads it again and `w` is stored to it: then, without any further error, choice 32 takes it
      away, before choice 34, and choice 33 loads it with what it held before the store. */
  lemma StoreLost(frames: Frames, flash: map<Vpage, Content>, w: int)
    returns (s: State, f: Flat, r: State, t: State)
    requires BlockOf(Start(frames, flash), LOST)[0] != w
    ensures Reaches(false, Start(frames, flash), flash, s, f)
    ensures Consistent(s) && Resident(s, LOST, 18) && s.choices == 19 && !Sole(s, LOST) && FlatOf(f, LOST)[0] == w
    ensures Reaches(true, s, f, r, f) && r.choices == 33 && !Resident(r, LOST, 18)
    ensures exists es :: Run(s, es, r) && Flawless(es) && StaysActive(s, es, SHELL)
    ensures Reaches(true, r, f, t, f) && Enabled(t, Load(SHELL, 0, 0))
            && Loaded(t, Load(SHELL, 0, 0)) != w == FlatOf(f, LOST)[0]
  {
    hide Consistent, Reaches, Start, Filled, Torn, Again, ShellOnly, Run, StaysActive, Flawless, Active;
    var s0 := Start(frames, flash);
    var x := BlockOf(s0, LOST);
    StartsFilled(frames, flash);
    var s1 := Fills(s0, flash, 0, x);
    var s2, f2 := Tears(s1, flash, x);
    var s3 := Reloads(s2, f2, x);
    var g;
    s, g := StoresAgain(s3, f2, x, w);
    f := g;
    ReachesAnyhow(s0, flash, s1, flash);
    ReachesOn(false, s0, flash, s1, flash, s2, f2);
    ReachesOn(true, s2, f2, s3, f2, s, f);
    ReachesAnyhow(s2, f2, s, f);
    ReachesOn(false, s0, flash, s2, f2, s, f);
    var s4 := GoesOn(s, f, 19, x);
    r := TakenAway(s4, f, x);
    ReachesOn(true, s, f, s4, f, r, f);
    t := ReadsOld(r, f, x);
    AgainResident(s, x);
    TakenAwayFacts(r);
    ReachedActive(s, f, r, f);
  }

  lemma StartsFilled(frames: Frames, flash: map<Vpage, Content>)
    ensures Filled(Start(frames, flash), 0, BlockOf(Start(frames, flash), LOST))
  {
    Starts(frames, flash);
    hide Consistent, Start;
  }

  lemma StoresAgain(s: State, f: Flat, x: Content, w: int) returns (r: State, g: Flat)
    requires Again(s, 19, x) && LOST in s.tlb && s.tlb[LOST] == Pte(true, 2)
    ensures Again(r, 19, x) && Reaches(true, s, f, r, g) && FlatOf(g, LOST)[0] == w
  {
    hide Consistent, Reaches;
    r, g := Stores(s, f, SHELL, 0, w);
    assert forall b: Asid :: PcOf(r, b) == PcOf(s, b);
    assert forall v: Vpage :: PteOf(r, v) == PteOf(s, v);
  }

  lemma AgainResident(s: State, x: Content)
    requires Again(s, 19, x)
    ensures Consistent(s) && Resident(s, LOST, 18) && s.choices == 19 && !Sole(s, LOST)
  {
    hide Consistent;
    assert !Free(s.swap[0]) && s.swap[0].pte == LOST;
  }

  lemma TakenAwayFacts(r: State)
    requires ShellOnly(r, 33) && !PteOf(r, LOST).valid
    ensures r.choices == 33 && Active(PcOf(r, SHELL)) && !Resident(r, LOST, 18)
  {
    hide Consistent;
  }
}
