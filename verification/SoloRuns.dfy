/** A whole pager, and a whole termination, as runs of the step machine: what the code does with
    the swap pool to itself is one of the interleavings the theorems speak about. */
module SoloRuns {
  import opened Queues
  import opened Vm
  import opened VmInvariant
  import opened Paging
  import opened SupportCode

  lemma {:induction false} RunAppend(s: State, es: seq<Event>, t: State, fs: seq<Event>, u: State)
    requires Run(s, es, t) && Run(t, fs, u)
    ensures Run(s, es + fs, u)
    decreases |es|
  {
    hide Run, Step, Enabled;
    if es == [] {
      RunNone(s, t);
      assert es + fs == fs;
    } else {
      RunCons(s, es, t);
      RunAppend(Step(s, es[0]), es[1..], t, fs, u);
      assert (es + fs)[1..] == es[1..] + fs;
      RunCons(s, es + fs, u);
    }
  }

  lemma RunNone(s: State, t: State)
    ensures Run(s, [], t) <==> s == t
  {
  }

  lemma RunCons(s: State, es: seq<Event>, t: State)
    requires es != []
    ensures Run(s, es, t) <==> Enabled(s, es[0]) && Run(Step(s, es[0]), es[1..], t)
  {
    hide Step, Enabled;
  }

  lemma RunOne(s: State, e: Event)
    requires Enabled(s, e)
    ensures Run(s, [e], Step(s, e))
  {
    hide Step, Enabled;
    assert Run(Step(s, e), [e][1..], Step(s, e));
  }

  // ---------------------------------------------------------------- flash operations

  function FlashEvents(a: Asid, ready: bool): seq<Event> {
    [Go(a), Go(a)] + (if ready then [Move(a)] else []) + [Done(a, ready), Go(a)]
  }

  function AfterFlash(a: Asid, pc: Pc, ready: bool): Pc
    requires pc.Flash?
  {
    if !ready then Abort else if pc.op == Write then Flash(Read, pc.p, pc.i, a, pc.p, Lock) else Claim(pc.p, pc.i)
  }

  /** The mutex is taken and the command issued. */
  lemma FlashBegins(s: State, a: Asid, pc: Pc)
    requires PcOf(s, a) == pc && pc.Flash? && pc.stage == Lock && MutexOf(s, pc.dev) == 1
    ensures var r := Goto(s, a, pc.(stage := Busy(false))).(flashMutex := s.flashMutex[pc.dev := 0]);
            Run(s, [Go(a), Go(a)], r)
  {
    var s1 := Step(s, Go(a));
    RunOne(s, Go(a));
    assert PcOf(s1, a) == pc.(stage := Issue) && s1.flashMutex == s.flashMutex[pc.dev := 0];
    RunOne(s1, Go(a));
    var s2 := Step(s1, Go(a));
    assert s2.pcs == s.pcs[a := pc.(stage := Busy(false))];
    assert s2.flashMutex == s.flashMutex[pc.dev := 0];
    RunAppend(s, [Go(a)], s1, [Go(a)], s2);
  }

  /** The device reports and the mutex is given back. */
  lemma FlashEnds(s: State, a: Asid, pc: Pc, ready: bool)
    requires PcOf(s, a) == pc && pc.Flash? && pc.stage.Busy? && (ready ==> pc.stage.moved)
    ensures var r := Goto(s, a, AfterFlash(a, pc, ready))
                     .(flashMutex := s.flashMutex[pc.dev := MutexOf(s, pc.dev) + 1]);
            Run(s, [Done(a, ready), Go(a)], r)
  {
    var s1 := Step(s, Done(a, ready));
    RunOne(s, Done(a, ready));
    assert PcOf(s1, a) == pc.(stage := Unlock(ready));
    RunOne(s1, Go(a));
    var s2 := Step(s1, Go(a));
    assert s2.pcs == s.pcs[a := AfterFlash(a, pc, ready)];
    RunAppend(s, [Done(a, ready)], s1, [Go(a)], s2);
  }

  lemma FlashFails(s: State, a: Asid, pc: Pc)
    requires PcOf(s, a) == pc && pc.Flash? && pc.stage == Lock && MutexOf(s, pc.dev) == 1
    ensures Run(s, FlashEvents(a, false),
                Goto(FlashEffect(s, pc.op, Vpage(pc.dev, pc.block), pc.i, false), a, AfterFlash(a, pc, false)))
  {
    hide Run;
    var r := Goto(FlashEffect(s, pc.op, Vpage(pc.dev, pc.block), pc.i, false), a, AfterFlash(a, pc, false));
    var s1 := Goto(s, a, pc.(stage := Busy(false))).(flashMutex := s.flashMutex[pc.dev := 0]);
    FlashBegins(s, a, pc);
    FlashEnds(s1, a, pc.(stage := Busy(false)), false);
    assert s1.pcs[a := Abort] == s.pcs[a := Abort];
    assert s1.flashMutex[pc.dev := 1] == s.flashMutex[pc.dev := 1];
    RunAppend(s, [Go(a), Go(a)], s1, [Done(a, false), Go(a)], r);
    assert [Go(a), Go(a)] + [Done(a, false), Go(a)] == FlashEvents(a, false);
  }

  /** The middle of a successful operation: the block moves. */
  lemma FlashTransfers(s: State, a: Asid, pc: Pc)
    requires PcOf(s, a) == pc && pc.Flash? && pc.stage == Busy(false)
    ensures var v := Vpage(pc.dev, pc.block);
            var r := Goto(if pc.op == Write then s.(flash := s.flash[v := s.frames[pc.i]])
                          else s.(frames := s.frames[pc.i := BlockOf(s, v)]), a, pc.(stage := Busy(true)));
            Run(s, [Move(a)], r)
  {
    hide Run;
    RunOne(s, Move(a));
  }

  /** After the move: the mutex is still held and the device has not reported yet. */
  ghost function Transferred(s: State, a: Asid, pc: Pc): State
    requires pc.Flash? && pc.stage == Lock
  {
    var v := Vpage(pc.dev, pc.block);
    var r := if pc.op == Write then s.(flash := s.flash[v := s.frames[pc.i]])
             else s.(frames := s.frames[pc.i := BlockOf(s, v)]);
    Goto(r, a, pc.(stage := Busy(true))).(flashMutex := s.flashMutex[pc.dev := 0])
  }

  lemma FlashMoves(s: State, a: Asid, pc: Pc)
    requires PcOf(s, a) == pc && pc.Flash? && pc.stage == Lock && MutexOf(s, pc.dev) == 1
    ensures Run(s, [Go(a), Go(a)] + [Move(a)], Transferred(s, a, pc))
  {
    hide Run;
    var s1 := Goto(s, a, pc.(stage := Busy(false))).(flashMutex := s.flashMutex[pc.dev := 0]);
    FlashBegins(s, a, pc);
    FlashTransfers(s1, a, pc.(stage := Busy(false)));
    assert s1.pcs[a := pc.(stage := Busy(true))] == s.pcs[a := pc.(stage := Busy(true))];
    RunAppend(s, [Go(a), Go(a)], s1, [Move(a)], Transferred(s, a, pc));
  }

  lemma TransferredEnds(s: State, a: Asid, pc: Pc)
    requires pc.Flash? && pc.stage == Lock && MutexOf(s, pc.dev) == 1
    ensures var s2 := Transferred(s, a, pc);
            && PcOf(s2, a) == pc.(stage := Busy(true)) && MutexOf(s2, pc.dev) == 0
            && Goto(s2, a, AfterFlash(a, pc, true)).(flashMutex := s2.flashMutex[pc.dev := 1])
            == Goto(FlashEffect(s, pc.op, Vpage(pc.dev, pc.block), pc.i, true), a, AfterFlash(a, pc, true))
  {
    hide AfterFlash;
    var s2 := Transferred(s, a, pc);
    assert s2.pcs[a := AfterFlash(a, pc, true)] == s.pcs[a := AfterFlash(a, pc, true)];
    assert s2.flashMutex[pc.dev := 1] == s.flashMutex[pc.dev := 1];
  }

  lemma FlashSucceeds(s: State, a: Asid, pc: Pc)
    requires PcOf(s, a) == pc && pc.Flash? && pc.stage == Lock && MutexOf(s, pc.dev) == 1
    ensures Run(s, FlashEvents(a, true),
                Goto(FlashEffect(s, pc.op, Vpage(pc.dev, pc.block), pc.i, true), a, AfterFlash(a, pc, true)))
  {
    hide Run, FlashEffect, Transferred, PcOf, MutexOf, Goto;
    var r := Goto(FlashEffect(s, pc.op, Vpage(pc.dev, pc.block), pc.i, true), a, AfterFlash(a, pc, true));
    FlashMoves(s, a, pc);
    TransferredEnds(s, a, pc);
    FlashEnds(Transferred(s, a, pc), a, pc.(stage := Busy(true)), true);
    RunAppend(s, [Go(a), Go(a)] + [Move(a)], Transferred(s, a, pc), [Done(a, true), Go(a)], r);
    assert [Go(a), Go(a)] + [Move(a)] + [Done(a, true), Go(a)] == FlashEvents(a, true);
  }

  /** `flashOperation` from end to end. */
  lemma FlashRuns(s: State, a: Asid, pc: Pc, ready: bool)
    requires PcOf(s, a) == pc && pc.Flash? && pc.stage == Lock && MutexOf(s, pc.dev) == 1
    ensures Run(s, FlashEvents(a, ready),
                Goto(FlashEffect(s, pc.op, Vpage(pc.dev, pc.block), pc.i, ready), a, AfterFlash(a, pc, ready)))
  {
    hide Run, FlashEffect, AfterFlash, FlashEvents, PcOf;
    if ready { FlashSucceeds(s, a, pc); } else { FlashFails(s, a, pc); }
  }

  // ---------------------------------------------------------------- the pager

  /** The events of a solo pager from its P to its V. */
  function PagerEvents(s: State, a: Asid, page: Option<Page>, wrote: bool, read: bool): seq<Event> {
    if page.None? then [Go(a), Go(a), Go(a)] else
      var used := s.swap[s.fifoNext % SWAP_POOL_SIZE].asid != SWAP_FRAME_FREE;
      [Go(a), Go(a)]
      + (if used then [Go(a)] + FlashEvents(a, wrote) else [])
      + (if used && !wrote then [Go(a)] else FlashEvents(a, read) + (if read then [Go(a), Go(a), Go(a)] else [Go(a)]))
  }

  /** What the swap pool looks like to a process that is alone at it. */
  ghost predicate Inside1(s: State, a: Asid) {
    s.swapPoolSem == 0 && s.swapQueue == [] && s.owner == Some(a)
  }

  /** After the last flash operation: claim, publish, leave. */
  lemma LoadRuns(s: State, a: Asid, p: Page, i: Frame, read: bool)
    requires Inside1(s, a) && PcOf(s, a) == Flash(Read, p, i, a, p, Lock) && MutexOf(s, a) == 1
    ensures Run(s, FlashEvents(a, read) + (if read then [Go(a), Go(a), Go(a)] else [Go(a)]),
                LoadEffect(s, a, p, i, read).(swapPoolSem := 1, owner := None))
  {
    hide Run, FlashEvents;
    var pc := Flash(Read, p, i, a, p, Lock);
    var s1 := Goto(FlashEffect(s, Read, Vpage(a, p), i, read), a, AfterFlash(a, pc, read));
    var r := LoadEffect(s, a, p, i, read).(swapPoolSem := 1, owner := None);
    FlashRuns(s, a, pc, read);
    if read {
      PublishRuns(s1, a, p, i);
      assert s1.pcs[a := User] == s.pcs[a := User];
      RunAppend(s, FlashEvents(a, read), s1, [Go(a), Go(a), Go(a)], r);
    } else {
      AbortRuns(s1, a);
      assert s1.pcs[a := TermP] == s.pcs[a := TermP];
      RunAppend(s, FlashEvents(a, read), s1, [Go(a)], r);
    }
  }

  lemma AbortRuns(s: State, a: Asid)
    requires Inside1(s, a) && PcOf(s, a) == Abort
    ensures Run(s, [Go(a)], Goto(s, a, TermP).(swapPoolSem := 1, owner := None))
  {
    hide Run;
    RunOne(s, Go(a));
  }

  lemma PublishRuns(s: State, a: Asid, p: Page, i: Frame)
    requires Inside1(s, a) && PcOf(s, a) == Claim(p, i)
    ensures var v := Vpage(a, p);
            Run(s, [Go(a), Go(a), Go(a)],
                Goto(MarkPresent(s.(swap := s.swap[i := Slot(a, p, v)]), v, i), a, User)
                .(swapPoolSem := 1, owner := None))
  {
    hide Run;
    var v := Vpage(a, p);
    var s1 := Goto(s.(swap := s.swap[i := Slot(a, p, v)]), a, Map(p, i));
    RunOne(s, Go(a));
    assert Step(s, Go(a)) == s1;
    var s2 := Goto(MarkPresent(s1, v, i), a, Leave);
    assert PcOf(s1, a) == Map(p, i);
    RunOne(s1, Go(a));
    assert Step(s1, Go(a)) == s2;
    assert PcOf(s2, a) == Leave;
    var s3 := Goto(s2, a, User).(swapPoolSem := 1, owner := None);
    RunOne(s2, Go(a));
    assert Step(s2, Go(a)) == s3;
    assert s3.pcs == s.pcs[a := User];
    RunAppend(s, [Go(a)], s1, [Go(a)], s2);
    RunAppend(s, [Go(a)] + [Go(a)], s2, [Go(a)], s3);
    assert [Go(a)] + [Go(a)] + [Go(a)] == [Go(a), Go(a), Go(a)];
  }

  /** P and frame choice. */
  lemma ChooseRuns(s: State, a: Asid, p: Page)
    requires s.swapPoolSem == 1 && s.swapQueue == [] && PcOf(s, a) == PagerP(Some(p))
    ensures var i: Frame := s.fifoNext % SWAP_POOL_SIZE;
            var pc := if s.swap[i].asid != SWAP_FRAME_FREE then Evict(p, i) else Flash(Read, p, i, a, p, Lock);
            Run(s, [Go(a), Go(a)],
                Goto(s, a, pc).(fifoNext := (s.fifoNext + 1) % SWAP_POOL_SIZE, choices := s.choices + 1,
                                swapPoolSem := 0, owner := Some(a)))
  {
    hide Run;
    var i: Frame := s.fifoNext % SWAP_POOL_SIZE;
    var pc := if s.swap[i].asid != SWAP_FRAME_FREE then Evict(p, i) else Flash(Read, p, i, a, p, Lock);
    var s1 := Goto(s, a, PagerIn(Some(p))).(swapPoolSem := 0, owner := Some(a));
    RunOne(s, Go(a));
    assert Step(s, Go(a)) == s1;
    assert PcOf(s1, a) == PagerIn(Some(p));
    RunOne(s1, Go(a));
    assert s1.pcs[a := pc] == s.pcs[a := pc];
    RunAppend(s, [Go(a)], s1, [Go(a)], Step(s1, Go(a)));
    assert [Go(a)] + [Go(a)] == [Go(a), Go(a)];
  }

  /** Eviction up to the outcome of the write. */
  lemma EvictRuns(s: State, a: Asid, p: Page, i: Frame, wrote: bool)
    requires PcOf(s, a) == Evict(p, i) && MutexOf(s, Victim(s.swap[i], a).asid) == 1
    ensures var r := FlashEffect(MarkNotValid(s, s.swap[i].pte), Write, Victim(s.swap[i], a), i, wrote);
            Run(s, [Go(a)] + FlashEvents(a, wrote), Goto(r, a, if wrote then Flash(Read, p, i, a, p, Lock) else Abort))
  {
    hide Run, FlashEvents, FlashEffect, MarkNotValid, Victim, Goto, Step, Enabled, MutexOf, PcOf;
    var v := Victim(s.swap[i], a);
    var pc := Flash(Write, p, i, v.asid, v.page, Lock);
    var s1 := Goto(MarkNotValid(s, s.swap[i].pte), a, pc);
    var next := if wrote then Flash(Read, p, i, a, p, Lock) else Abort;
    EvictStep(s, a, p, i);
    RunOne(s, Go(a));
    FlashRuns(s1, a, pc, wrote);
    EffectMoved(MarkNotValid(s, s.swap[i].pte), a, pc, next, v, i, wrote);
    RunAppend(s, [Go(a)], s1, FlashEvents(a, wrote),
              Goto(FlashEffect(MarkNotValid(s, s.swap[i].pte), Write, v, i, wrote), a, next));
  }

  lemma EvictStep(s: State, a: Asid, p: Page, i: Frame)
    requires PcOf(s, a) == Evict(p, i)
    ensures var v := Victim(s.swap[i], a);
            var pc := Flash(Write, p, i, v.asid, v.page, Lock);
            var s1 := Goto(MarkNotValid(s, s.swap[i].pte), a, pc);
            && Enabled(s, Go(a)) && Step(s, Go(a)) == s1 && PcOf(s1, a) == pc
            && MutexOf(s1, v.asid) == MutexOf(s, v.asid)
  {
    hide MarkNotValid;
    SameMutex(s, MarkNotValid(s, s.swap[i].pte)) by { MarkMutex(s, s.swap[i].pte); }
  }

  lemma MarkMutex(s: State, v: Vpage)
    ensures MarkNotValid(s, v).flashMutex == s.flashMutex
  {
  }

  /** Where the process was before does not matter. */
  lemma EffectMoved(s: State, a: Asid, pc: Pc, next: Pc, v: Vpage, i: Frame, ready: bool)
    ensures Goto(FlashEffect(Goto(s, a, pc), Write, v, i, ready), a, next)
         == Goto(FlashEffect(s, Write, v, i, ready), a, next)
  {
    assert s.pcs[a := pc][a := next] == s.pcs[a := next];
  }

  lemma OutsideRuns(s: State, a: Asid)
    requires s.swapPoolSem == 1 && s.swapQueue == [] && s.owner == None && PcOf(s, a) == PagerP(None)
    ensures Run(s, [Go(a), Go(a), Go(a)], Goto(s, a, TermP))
  {
    hide Run;
    var s1 := Goto(s, a, PagerIn(None)).(swapPoolSem := 0, owner := Some(a));
    RunOne(s, Go(a));
    assert Step(s, Go(a)) == s1;
    assert PcOf(s1, a) == PagerIn(None);
    RunOne(s1, Go(a));
    var s2 := Goto(s1, a, Abort);
    assert Step(s1, Go(a)) == s2;
    AbortRuns(s2, a);
    assert s2.pcs[a := TermP] == s.pcs[a := TermP];
    RunAppend(s, [Go(a)], s1, [Go(a)], s2);
    RunAppend(s, [Go(a)] + [Go(a)], s2, [Go(a)], Goto(s, a, TermP));
    assert [Go(a)] + [Go(a)] + [Go(a)] == [Go(a), Go(a), Go(a)];
  }

  /** `a`, at `pc`, holds the swap pool. */
  function Held(s: State, a: Asid, pc: Pc): State {
    Goto(s, a, pc).(swapPoolSem := 0, owner := Some(a))
  }

  /** Program counter and semaphore do not matter for what is loaded. */
  lemma LoadHeld(s: State, a: Asid, pc: Pc, p: Page, i: Frame, read: bool)
    requires s.swapPoolSem == 1 && s.owner == None
    ensures LoadEffect(Held(s, a, pc), a, p, i, read).(swapPoolSem := 1, owner := None) == LoadEffect(s, a, p, i, read)
  {
    var next := if read then User else TermP;
    assert s.pcs[a := pc][a := next] == s.pcs[a := next];
    hide PteOf;
  }

  lemma EvictHeld(s: State, a: Asid, pc: Pc, v: Vpage, w: Vpage, i: Frame, wrote: bool, next: Pc)
    ensures Goto(FlashEffect(MarkNotValid(Held(s, a, pc), v), Write, w, i, wrote), a, next)
         == Held(FlashEffect(MarkNotValid(s, v), Write, w, i, wrote), a, next)
  {
    assert s.pcs[a := pc][a := next] == s.pcs[a := next];
    assert PteOf(Held(s, a, pc), v) == PteOf(s, v);
    hide PteOf;
  }

  lemma Undisturbed(s: State)
    requires Inv(s) && s.swapPoolSem == 1
    ensures s.swapQueue == [] && s.owner == None && forall d: Asid :: MutexOf(s, d) == 1
  {
    hide Parents, Memory, Fifo, Inside, Queued, Count;
    assert s.owner.Some? ==> s.swapPoolSem <= 0;
  }

  /** The frame chosen is free. */
  lemma FreeRuns(s: State, a: Asid, p: Page, read: bool)
    requires s.swapPoolSem == 1 && s.swapQueue == [] && s.owner == None && PcOf(s, a) == PagerP(Some(p))
    requires s.swap[s.fifoNext % SWAP_POOL_SIZE].asid == SWAP_FRAME_FREE && MutexOf(s, a) == 1
    ensures Run(s, PagerEvents(s, a, Some(p), true, read), PagerEffect(s, a, Some(p), true, read))
  {
    hide Run, FlashEvents, LoadEffect;
    var i: Frame := s.fifoNext % SWAP_POOL_SIZE;
    var s0 := s.(fifoNext := (s.fifoNext + 1) % SWAP_POOL_SIZE, choices := s.choices + 1);
    var pc := Flash(Read, p, i, a, p, Lock);
    ChooseRuns(s, a, p);
    LoadRuns(Held(s0, a, pc), a, p, i, read);
    LoadHeld(s0, a, pc, p, i, read);
    RunAppend(s, [Go(a), Go(a)], Held(s0, a, pc),
              FlashEvents(a, read) + (if read then [Go(a), Go(a), Go(a)] else [Go(a)]), LoadEffect(s0, a, p, i, read));
    assert [Go(a), Go(a)] + [] == [Go(a), Go(a)];
  }

  lemma EvictHeldRuns(s: State, a: Asid, p: Page, i: Frame, wrote: bool)
    requires forall d: Asid :: MutexOf(s, d) == 1
    ensures var r := FlashEffect(MarkNotValid(s, s.swap[i].pte), Write, Victim(s.swap[i], a), i, wrote);
            Run(Held(s, a, Evict(p, i)), [Go(a)] + FlashEvents(a, wrote),
                Held(r, a, if wrote then Flash(Read, p, i, a, p, Lock) else Abort))
  {
    hide Run, FlashEvents, FlashEffect, MutexOf, MarkNotValid;
    SameMutex(s, Held(s, a, Evict(p, i)));
    EvictRuns(Held(s, a, Evict(p, i)), a, p, i, wrote);
    EvictHeld(s, a, Evict(p, i), s.swap[i].pte, Victim(s.swap[i], a), i, wrote,
              if wrote then Flash(Read, p, i, a, p, Lock) else Abort);
  }

  /** What the eviction leaves alone. */
  lemma EvictedKeeps(s: State, a: Asid, wrote: bool)
    requires forall d: Asid :: MutexOf(s, d) == 1
    ensures var r := EvictEffect(s, a, wrote);
            r.swapPoolSem == s.swapPoolSem && r.owner == s.owner && r.swapQueue == s.swapQueue && MutexOf(r, a) == 1
  {
    hide FlashEffect, MutexOf, MarkNotValid;
    var i: Frame := s.fifoNext % SWAP_POOL_SIZE;
    var s0 := s.(fifoNext := (s.fifoNext + 1) % SWAP_POOL_SIZE, choices := s.choices + 1);
    SameMutex(s, s0);
    EvictionKeeps(s0, s.swap[i].pte, Victim(s.swap[i], a), i, wrote);
  }

  /** The frame chosen is in use: up to the outcome of the write-back. */
  lemma EvictedRuns(s: State, a: Asid, p: Page, wrote: bool)
    requires s.swapPoolSem == 1 && s.swapQueue == [] && s.owner == None && PcOf(s, a) == PagerP(Some(p))
    requires s.swap[s.fifoNext % SWAP_POOL_SIZE].asid != SWAP_FRAME_FREE && forall d: Asid :: MutexOf(s, d) == 1
    ensures var i: Frame := s.fifoNext % SWAP_POOL_SIZE;
            Run(s, [Go(a), Go(a)] + ([Go(a)] + FlashEvents(a, wrote)),
                Held(EvictEffect(s, a, wrote), a, if wrote then Flash(Read, p, i, a, p, Lock) else Abort))
  {
    hide Run, FlashEvents, FlashEffect, MutexOf, MarkNotValid, PcOf, Victim;
    var i: Frame := s.fifoNext % SWAP_POOL_SIZE;
    var s0 := s.(fifoNext := (s.fifoNext + 1) % SWAP_POOL_SIZE, choices := s.choices + 1);
    ChooseRuns(s, a, p);
    SameMutex(s, s0);
    EvictHeldRuns(s0, a, p, i, wrote);
    RunAppend(s, [Go(a), Go(a)], Held(s0, a, Evict(p, i)), [Go(a)] + FlashEvents(a, wrote),
              Held(EvictEffect(s, a, wrote), a, if wrote then Flash(Read, p, i, a, p, Lock) else Abort));
  }

  lemma UsedRuns(s: State, a: Asid, p: Page, wrote: bool, read: bool)
    requires s.swapPoolSem == 1 && s.swapQueue == [] && s.owner == None && PcOf(s, a) == PagerP(Some(p))
    requires s.swap[s.fifoNext % SWAP_POOL_SIZE].asid != SWAP_FRAME_FREE && forall d: Asid :: MutexOf(s, d) == 1
    ensures Run(s, PagerEvents(s, a, Some(p), wrote, read), PagerEffect(s, a, Some(p), wrote, read))
  {
    hide Run, FlashEvents, LoadEffect, EvictEffect, MutexOf;
    var i: Frame := s.fifoNext % SWAP_POOL_SIZE;
    var s1 := EvictEffect(s, a, wrote);
    var before := [Go(a), Go(a)] + ([Go(a)] + FlashEvents(a, wrote));
    EvictedRuns(s, a, p, wrote);
    EvictedKeeps(s, a, wrote);
    if wrote {
      var next := Flash(Read, p, i, a, p, Lock);
      SameMutex(s1, Held(s1, a, next));
      LoadRuns(Held(s1, a, next), a, p, i, read);
      LoadHeld(s1, a, next, p, i, read);
      RunAppend(s, before, Held(s1, a, next),
                FlashEvents(a, read) + (if read then [Go(a), Go(a), Go(a)] else [Go(a)]),
                LoadEffect(s1, a, p, i, read));
    } else {
      AbortHeld(s1, a);
      RunAppend(s, before, Held(s1, a, Abort), [Go(a)], Goto(s1, a, TermP));
    }
  }

  lemma AbortHeld(s: State, a: Asid)
    requires s.swapPoolSem == 1 && s.owner == None && s.swapQueue == []
    ensures Run(Held(s, a, Abort), [Go(a)], Goto(s, a, TermP))
  {
    hide Run;
    AbortRuns(Held(s, a, Abort), a);
    assert s.pcs[a := Abort][a := TermP] == s.pcs[a := TermP];
  }

  lemma SameMutex(s: State, r: State)
    requires r.flashMutex == s.flashMutex
    ensures forall d: Asid :: MutexOf(r, d) == MutexOf(s, d)
  {
  }

  lemma EvictionKeeps(s: State, v: Vpage, w: Vpage, i: Frame, wrote: bool)
    ensures var r := FlashEffect(MarkNotValid(s, v), Write, w, i, wrote);
            && r.swapPoolSem == s.swapPoolSem && r.owner == s.owner && r.swapQueue == s.swapQueue
            && forall d: Asid :: MutexOf(r, d) == MutexOf(s, d)
  {
    hide PteOf;
  }

  /** Events without a flash error. */
  predicate Flawless(es: seq<Event>) {
    forall e :: e in es ==> Ready(e)
  }

  /** Events that do not touch flat memory. */
  predicate Discreet(es: seq<Event>) {
    forall e :: e in es ==> Silent(e)
  }

  lemma PagerEventKinds(s: State, a: Asid, page: Option<Page>, wrote: bool, read: bool)
    ensures Discreet(PagerEvents(s, a, page, wrote, read))
    ensures wrote && read ==> Flawless(PagerEvents(s, a, page, wrote, read))
  {
  }

  /** A pager that finds the swap pool to itself: the whole routine is a run of the machine, so
      everything proved about runs holds of it. */
  lemma PagerRuns(s: State, a: Asid, page: Option<Page>, wrote: bool, read: bool)
    requires Inv(s) && s.swapPoolSem == 1 && PcOf(s, a) == PagerP(page)
    ensures exists es :: Run(s, es, PagerEffect(s, a, page, wrote, read)) && Discreet(es)
                         && (wrote && read ==> Flawless(es))
  {
    hide Inv, Run, PagerEvents, PagerEffect, Discreet, Flawless;
    Undisturbed(s);
    forall w: bool, r: bool { PagerEventKinds(s, a, page, w, r); }
    if page.None? {
      OutsideRuns(s, a);
      OutsideEffect(s, a, wrote, read);
      assert Run(s, PagerEvents(s, a, page, true, true), PagerEffect(s, a, page, wrote, read));
    } else if s.swap[s.fifoNext % SWAP_POOL_SIZE].asid == SWAP_FRAME_FREE {
      FreeRuns(s, a, page.value, read);
      FreeEffect(s, a, page.value, wrote, read);
      assert Run(s, PagerEvents(s, a, page, true, read), PagerEffect(s, a, page, wrote, read));
    } else {
      UsedRuns(s, a, page.value, wrote, read);
      assert Run(s, PagerEvents(s, a, page, wrote, read), PagerEffect(s, a, page, wrote, read));
    }
  }

  lemma OutsideEffect(s: State, a: Asid, wrote: bool, read: bool)
    ensures PagerEffect(s, a, None, wrote, read) == Goto(s, a, TermP)
    ensures PagerEvents(s, a, None, true, true) == [Go(a), Go(a), Go(a)]
  {
  }

  lemma FreeEffect(s: State, a: Asid, p: Page, wrote: bool, read: bool)
    requires s.swap[s.fifoNext % SWAP_POOL_SIZE].asid == SWAP_FRAME_FREE
    ensures PagerEffect(s, a, Some(p), wrote, read) == PagerEffect(s, a, Some(p), true, read)
  {
    hide LoadEffect;
  }

  /** The pager code, READY: it changes no page of any active U-proc, and the page faulted on is
      present when the U-proc goes on. */
  lemma PagerKeepsPages(s: State, a: Asid, p: Page, flat: Flat)
    requires Sound(s) && Refines(s, flat) && s.swapPoolSem == 1 && PcOf(s, a) == PagerP(Some(p))
    ensures var r := PagerEffect(s, a, Some(p), true, true);
            Sound(r) && Refines(r, flat) && PcOf(r, a) == User && PteOf(r, Vpage(a, p)).valid
  {
    var r := PagerEffect(s, a, Some(p), true, true);
    PagerRuns(s, a, Some(p), true, true);
    PagerPublishes(s, a, p);
    hide Inv, PagerEffect, Refines;
    var es :| Run(s, es, r) && Discreet(es) && Flawless(es);
    RunRefines(s, flat, es, r);
    SilentRun(s, flat, es);
  }

  lemma PagerPublishes(s: State, a: Asid, p: Page)
    ensures var r := PagerEffect(s, a, Some(p), true, true); PcOf(r, a) == User && PteOf(r, Vpage(a, p)).valid
  {
    hide FlashEffect, EvictEffect;
  }

  // ---------------------------------------------------------------- termination

  /** The loop of `supTerminate` from frame `j` on, once `t` was the swap pool at its start. */
  lemma {:induction false} FreeingRuns(s: State, t: Pool, a: Asid, j: nat)
    requires j <= SWAP_POOL_SIZE && PcOf(s, a) == TermLoop(j) && s.swap == FreedUpTo(t, a, j)
    ensures exists es :: Run(s, es, Goto(s.(swap := FreedUpTo(t, a, SWAP_POOL_SIZE)), a, TermV)) && Discreet(es)
                         && Flawless(es)
    decreases SWAP_POOL_SIZE - j
  {
    hide Run;
    var r := Goto(s.(swap := FreedUpTo(t, a, SWAP_POOL_SIZE)), a, TermV);
    RunOne(s, Go(a));
    if j == SWAP_POOL_SIZE {
      assert Step(s, Go(a)) == r;
      assert Run(s, [Go(a)], r) && Discreet([Go(a)]) && Flawless([Go(a)]);
    } else {
      var s1 := Goto(s.(swap := FreedUpTo(t, a, j + 1)), a, TermLoop(j + 1));
      assert s1.swap == if s.swap[j].asid == a then s.swap[j := s.swap[j].(asid := SWAP_FRAME_FREE)] else s.swap;
      assert Step(s, Go(a)) == s1;
      FreeingRuns(s1, t, a, j + 1);
      var es :| Run(s1, es, Goto(s1.(swap := FreedUpTo(t, a, SWAP_POOL_SIZE)), a, TermV))
                && Discreet(es) && Flawless(es);
      assert s1.pcs[a := TermV] == s.pcs[a := TermV];
      RunAppend(s, [Go(a)], s1, es, r);
      assert Run(s, [Go(a)] + es, r) && Discreet([Go(a)] + es) && Flawless([Go(a)] + es);
    }
  }
}
