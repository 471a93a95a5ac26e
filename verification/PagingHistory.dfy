/** What holds over every run of the Support Level, flash errors included, and what its assumption
    about launches is worth. */
module PagingHistory {
  import opened Queues
  import opened Vm
  import opened VmInvariant
  import opened Paging

  // ---------------------------------------------------------------- exclusion, errors or not

  lemma {:induction false} RunKeeps(s: State, es: seq<Event>, t: State)
    requires Consistent(s) && Run(s, es, t)
    ensures Consistent(t)
    decreases |es|
  {
    if es != [] {
      TaintExact(s, es[0], Vpage(1, 0));
      hide Consistent, Step, Enabled, Tainted, Taints;
      RunKeeps(Step(s, es[0]), es[1..], t);
    }
  }

  lemma StartConsistent(frames: Frames, flash: map<Vpage, Content>)
    ensures Consistent(Start(frames, flash))
  {
    StartInv(frames, flash);
    hide Inv;
  }

  /** In every state of every run from `test`, flash errors included: at most one process is
      between P and V on the swap pool; present pages never share a frame, each is the one its swap
      pool entry names, and none maps a frame in transit; the P on a flash device's mutex never
      waits; and every TLB entry agrees with its page table entry. */
  lemma AlwaysExclusive(frames: Frames, flash: map<Vpage, Content>, es: seq<Event>, t: State)
    requires Run(Start(frames, flash), es, t)
    ensures forall a: Asid, b: Asid :: Inside(PcOf(t, a)) && Inside(PcOf(t, b)) ==> a == b
    ensures forall v: Vpage, w: Vpage ::
              Present(t, v) && Present(t, w) && PteOf(t, v).frame == PteOf(t, w).frame ==> v == w
    ensures forall v: Vpage :: Present(t, v) ==>
              Names(t.swap[PteOf(t, v).frame], v) && !InTransit(Owner(t), PteOf(t, v).frame)
    ensures forall a: Asid :: PcOf(t, a).Flash? && PcOf(t, a).stage == Lock ==> MutexOf(t, PcOf(t, a).dev) == 1
    ensures forall v: Vpage :: v in t.tlb ==> Agree(t.tlb[v], PteOf(t, v))
  {
    StartConsistent(frames, flash);
    RunKeeps(Start(frames, flash), es, t);
    hide Run;
    forall v: Vpage | Present(t, v)
      ensures Names(t.swap[PteOf(t, v).frame], v) && !InTransit(Owner(t), PteOf(t, v).frame)
    {
      NotInTransit(t, v);
    }
    forall a: Asid | PcOf(t, a).Flash? && PcOf(t, a).stage == Lock
      ensures MutexOf(t, PcOf(t, a).dev) == 1
    {
      FlashMutexIs(t, a);
    }
  }

  // ---------------------------------------------------------------- content, errors or not

  /** In every state of the run the page holds what flat memory holds, and every load of it
      returns that. */
  ghost predicate Tracks(s: State, flat: Flat, es: seq<Event>, v: Vpage)
    decreases |es|
  {
    && Agrees(s, flat, v)
    && (es != [] && Enabled(s, es[0]) ==>
          && (es[0].Load? && v == Vpage(es[0].a, es[0].page) ==> Loaded(s, es[0]) == FlatOf(flat, v)[es[0].off])
          && Tracks(Step(s, es[0]), FlatStep(s, flat, es[0]), es[1..], v))
  }

  /** No event of the run loses the page. */
  ghost predicate Spared(s: State, es: seq<Event>, v: Vpage)
    decreases |es|
  {
    es != [] && Enabled(s, es[0]) ==> !Loses(s, es[0], v) && Spared(Step(s, es[0]), es[1..], v)
  }

  /** No flash error of the run leaves an entry behind that names the page. */
  ghost predicate Unharmed(s: State, es: seq<Event>, v: Vpage)
    decreases |es|
  {
    es != [] && Enabled(s, es[0]) ==> !Taints(s, es[0], v) && Unharmed(Step(s, es[0]), es[1..], v)
  }

  /** Exactly which runs keep a page: over every run, flash errors included, it holds in every state
      what flat memory holds iff no event of the run writes to its block from a frame that a stale
      entry took for its own, nor fails to write it. */
  lemma {:induction false} RunExact(s: State, flat: Flat, es: seq<Event>, t: State, v: Vpage)
    requires Consistent(s) && Agrees(s, flat, v) && Run(s, es, t)
    ensures Tracks(s, flat, es, v) <==> Spared(s, es, v)
    decreases |es|
  {
    if es != [] {
      var e := es[0];
      StepAgrees(s, flat, e, v);
      TaintExact(s, e, v);
      LoadAgrees(s, flat, e, v);
      hide Consistent, Agrees, Step, Enabled, Loses, FlatStep, FlatOf, Loaded;
      if !Loses(s, e, v) {
        RunExact(Step(s, e), FlatStep(s, flat, e), es[1..], t, v);
      }
    }
  }

  lemma LoadAgrees(s: State, flat: Flat, e: Event, v: Vpage)
    requires Consistent(s) && Agrees(s, flat, v) && Enabled(s, e)
    ensures e.Load? && v == Vpage(e.a, e.page) ==> Loaded(s, e) == FlatOf(flat, v)[e.off]
  {
    hide Inv, Agrees, Enabled, Loaded, FlatOf;
    if e.Load? && v == Vpage(e.a, e.page) { LoadRefines(s, flat, e); }
  }

  lemma StepUntainted(s: State, e: Event, v: Vpage)
    requires Consistent(s) && Enabled(s, e) && !Tainted(s, v) && !Taints(s, e, v)
    ensures !Tainted(Step(s, e), v) && !Loses(s, e, v) && Consistent(Step(s, e))
  {
    hide Consistent, Tainted, Taints, Loses, Step, Enabled;
    TaintExact(s, e, v);
    if Loses(s, e, v) { LostTainted(s, e, v); }
  }

  /** A page is safe from every flash error but those that leave an entry behind that names it. */
  lemma {:induction false} RunUnharmed(s: State, es: seq<Event>, t: State, v: Vpage)
    requires Consistent(s) && Run(s, es, t) && !Tainted(s, v) && Unharmed(s, es, v)
    ensures Spared(s, es, v) && !Tainted(t, v)
    decreases |es|
  {
    if es != [] {
      StepUntainted(s, es[0], v);
      hide Consistent, Step, Enabled, Tainted, Taints, Loses;
      RunUnharmed(Step(s, es[0]), es[1..], t, v);
    }
  }

  /** From `test` on, whatever flash operations fail: the pages that no failed operation left an
      entry for hold what flat memory holds, all along. */
  lemma ErrorsContained(frames: Frames, flash: map<Vpage, Content>, es: seq<Event>, t: State, v: Vpage)
    requires Run(Start(frames, flash), es, t) && Unharmed(Start(frames, flash), es, v)
    ensures Tracks(Start(frames, flash), flash, es, v) && !Tainted(t, v)
  {
    var s := Start(frames, flash);
    StartRefines(frames, flash);
    hide Run, Inv, ReadIn, Start, Agrees, Unharmed, Spared, Tracks;
    assert Agrees(s, flash, v);
    RunUnharmed(s, es, t, v);
    RunExact(s, flash, es, t, v);
  }

  // ---------------------------------------------------------------- launches

  /** Launching an ASID that no U-proc has: the state that results is one the theorems speak about
      exactly if the TLB holds no valid entry of that ASID. */
  lemma LaunchExact(s: State, c: Asid)
    requires Inv(s) && Dead(PcOf(s, c))
    ensures Inv(LaunchUproc(s, c)) <==> CleanTlb(s, c)
  {
    if CleanTlb(s, c) {
      LaunchInv(s, c);
    } else {
      var v :| v in s.tlb && v.asid == c && s.tlb[v].valid;
      LaunchForgets(s, c, v);
    }
  }

  lemma LaunchForgets(s: State, c: Asid, v: Vpage)
    requires v in s.tlb && v.asid == c && s.tlb[v].valid
    ensures !Coherent(LaunchUproc(s, c))
  {
    var r := LaunchUproc(s, c);
    assert r.tlb == s.tlb && PteOf(r, v) == NOT_PRESENT;
    assert !Agree(r.tlb[v], PteOf(r, v));
  }

  /** And then, and only then, virtual memory is flat memory with the image of the program in it. */
  lemma LaunchRefines(s: State, c: Asid, flat: Flat)
    requires Sound(s) && Refines(s, flat) && Dead(PcOf(s, c))
    ensures Sound(LaunchUproc(s, c)) && Refines(LaunchUproc(s, c), Image(s, flat, c)) <==> CleanTlb(s, c)
  {
    LaunchExact(s, c);
    if CleanTlb(s, c) {
      hide Inv, LaunchUproc, CleanTlb, PcOf, Dead, Stale, Abs, Active;
      assert Enabled(s, Launch(c));
      LaunchIsStep(s, c);
      StepRefines(s, flat, Launch(c));
    }
  }

  lemma LaunchIsStep(s: State, c: Asid)
    requires Launchable(s, c)
    ensures Step(s, Launch(c)) == LaunchUproc(s, c)
  {
    hide LaunchUproc;
  }
}
