/** The wait chain of the Support Level: the shell waits for its child, the Instantiator for the
    shell, and each resumes only when the frames are back. */
module WaitChain {
  import opened Queues
  import NucleusInvariant
  import opened Vm
  import opened VmInvariant
  import opened Paging

  // ---------------------------------------------------------------- the discipline

  /** Only the shell issues EXECUTE, and nothing but EXECUTE launches. */
  predicate Disciplined(e: Event) {
    !e.Launch? && (e.Execute? ==> e.a == SHELL)
  }

  /** What the wait chain sees of a program counter. */
  datatype Role = Out | Waits(child: Asid) | Sleeps(child: Asid) | In

  function RoleOf(pc: Pc): Role {
    if Dead(pc) then Out else if pc.ExecP? then Waits(pc.child) else if pc.ExecQ? then Sleeps(pc.child) else In
  }

  /** The child the shell has launched and not yet waited for, or waits for. */
  function Child(s: State): Option<Asid> {
    match RoleOf(PcOf(s, SHELL))
    case Waits(c) => Some(c)
    case Sleeps(c) => Some(c)
    case _ => None
  }

  /** At most one child, which the shell is inside EXECUTE for; `shellSemaphore` and
      `masterSemaphore` say exactly who is still waited for. */
  ghost predicate Chain(s: State) {
    && (forall a: Asid :: a != SHELL && Child(s) != Some(a) ==> RoleOf(PcOf(s, a)) == Out)
    && (forall a: Asid :: a != SHELL ==> RoleOf(PcOf(s, a)) == Out || RoleOf(PcOf(s, a)) == In)
    && Child(s) != Some(SHELL)
    && s.shellSem == (match RoleOf(PcOf(s, SHELL))
                      case Waits(c) => NucleusInvariant.One(RoleOf(PcOf(s, c)) == Out)
                      case Sleeps(_) => -1
                      case _ => 0)
    && (RoleOf(PcOf(s, SHELL)).Sleeps? ==> RoleOf(PcOf(s, RoleOf(PcOf(s, SHELL)).child)) == In)
    && s.shellQueue == (if RoleOf(PcOf(s, SHELL)).Sleeps? then [SHELL] else [])
    && PcOf(s, SHELL) != Idle
    && s.masterSem == NucleusInvariant.One(PcOf(s, SHELL) == Gone) - NucleusInvariant.One(s.inst != Starting)
    && (s.inst == Waiting ==> PcOf(s, SHELL) != Gone)
    && (s.inst == Finished ==> PcOf(s, SHELL) == Gone)
  }

  /** A step that changes nothing the wait chain sees. */
  ghost predicate SameRoles(s: State, r: State) {
    && (forall a: Asid :: RoleOf(PcOf(r, a)) == RoleOf(PcOf(s, a)))
    && (PcOf(r, SHELL) == Gone) == (PcOf(s, SHELL) == Gone) && (PcOf(r, SHELL) == Idle) == (PcOf(s, SHELL) == Idle)
    && r.shellSem == s.shellSem && r.shellQueue == s.shellQueue && r.masterSem == s.masterSem && r.inst == s.inst
  }

  lemma SameRolesChain(s: State, r: State)
    requires Chain(s) && SameRoles(s, r)
    ensures Chain(r)
  {
    hide PcOf, RoleOf;
  }

  lemma MovedRoles(s: State, r: State, a: Asid, pc: Pc)
    requires OnlyMoved(s, r, a, pc) && RoleOf(PcOf(s, a)) == RoleOf(pc) == In
    requires r.shellSem == s.shellSem && r.shellQueue == s.shellQueue && r.masterSem == s.masterSem && r.inst == s.inst
    ensures SameRoles(s, r)
  {
    hide PcOf;
  }

  lemma SameRolesTwice(s: State, r: State, t: State)
    requires SameRoles(s, r) && SameRoles(r, t)
    ensures SameRoles(s, t)
  {
    hide PcOf, RoleOf;
  }

  lemma EnterRoles(s: State, a: Asid, waiting: Pc, inside: Pc)
    requires RoleOf(PcOf(s, a)) == RoleOf(waiting) == RoleOf(inside) == In
    ensures SameRoles(s, Enter(s, a, waiting, inside))
  {
    hide RoleOf, OnlyMoved, SameRoles;
    EnterMoves(s, a, waiting, inside);
    MovedRoles(s, Enter(s, a, waiting, inside), a, if s.swapPoolSem - 1 < 0 then waiting else inside);
  }

  lemma ExitRoles(s: State, a: Asid, next: Pc)
    requires Mutex(s) && s.owner == Some(a) && !Queued(next) && RoleOf(PcOf(s, a)) == RoleOf(next) == In
    ensures SameRoles(s, Exit(s, a, next))
  {
    hide RoleOf, OnlyMoved, SameRoles, Mutex, Queued, Admitted, PcOf;
    var s1 := Goto(s, a, next).(swapPoolSem := s.swapPoolSem + 1, owner := None);
    ExitMoves(s, a, next);
    MovedRoles(s, s1, a, next);
    if s1.swapPoolSem <= 0 && s.swapQueue != [] {
      var h := s.swapQueue[0];
      QueuedRoles(PcOf(s1, h));
      MovedRoles(s1, Exit(s, a, next), h, Admitted(PcOf(s1, h)));
      SameRolesTwice(s, s1, Exit(s, a, next));
    }
  }

  lemma QueuedRoles(pc: Pc)
    requires Queued(pc)
    ensures RoleOf(pc) == RoleOf(Admitted(pc)) == In
  {
  }

  lemma FlashRoles(s: State, a: Asid)
    requires PcOf(s, a).Flash? && !PcOf(s, a).stage.Busy?
    ensures SameRoles(s, FlashStep(s, a, PcOf(s, a)))
  {
    hide MutexOf, OnlyMoved, SameRoles;
    var r := FlashStep(s, a, PcOf(s, a));
    PcsMoved(s, r, a, FlashNext(s, a, PcOf(s, a)));
    MovedRoles(s, r, a, FlashNext(s, a, PcOf(s, a)));
  }

  lemma PlainRoles(s: State, a: Asid)
    requires Plain(PcOf(s, a)) && !PcOf(s, a).Flash? && !PcOf(s, a).ExecP?
    ensures SameRoles(s, GoStep(s, a))
  {
    hide OnlyMoved, Inside, Queued, SameRoles, GoStep, RoleOf;
    PlainGo(s, a);
    PlainRole(s, a);
    MovedRoles(s, GoStep(s, a), a, PcOf(GoStep(s, a), a));
  }

  ghost predicate RoleKept(s: State, r: State, a: Asid) {
    && RoleOf(PcOf(s, a)) == RoleOf(PcOf(r, a)) == In
    && r.shellSem == s.shellSem && r.shellQueue == s.shellQueue && r.masterSem == s.masterSem && r.inst == s.inst
  }

  lemma PageRole(s: State, a: Asid)
    requires PcOf(s, a).Evict? || PcOf(s, a).Claim? || PcOf(s, a).Map?
    ensures RoleKept(s, GoStep(s, a), a)
  {
    hide PteOf;
  }

  lemma ChooseRole(s: State, a: Asid, p: Page)
    requires PcOf(s, a).PagerIn?
    ensures RoleKept(s, Choose(s, a, p), a)
  {
  }

  lemma OtherRole(s: State, a: Asid)
    requires PcOf(s, a) == PagerIn(None) || PcOf(s, a).TermLoop?
    ensures RoleKept(s, GoStep(s, a), a)
  {
  }

  lemma PlainRole(s: State, a: Asid)
    requires Plain(PcOf(s, a)) && !PcOf(s, a).Flash? && !PcOf(s, a).ExecP?
    ensures RoleKept(s, GoStep(s, a), a)
  {
    hide RoleKept, GoStep, Choose;
    var pc := PcOf(s, a);
    GoCalls(s, a);
    if pc.PagerIn? && pc.page.Some? {
      ChooseRole(s, a, pc.page.value);
    } else if pc.Evict? || pc.Claim? || pc.Map? {
      PageRole(s, a);
    } else {
      OtherRole(s, a);
    }
  }

  /** Signalling, and the two ends of EXECUTE, are what the wait chain is about; every other
      step of the processor leaves it alone. */
  lemma GoRoles(s: State, a: Asid)
    requires Inv(s) && CanGo(PcOf(s, a)) && !PcOf(s, a).Signal? && !PcOf(s, a).ExecP?
    ensures SameRoles(s, GoStep(s, a))
  {
    hide Mutex, FlashFree, Memory, Fifo, Enter, Exit, SignalEnd, Parents, FlashStep, Choose, Inside, Queued, SameRoles;
    var pc := PcOf(s, a);
    KindsOf(pc);
    GoCalls(s, a);
    if pc.PagerP? {
      EnterRoles(s, a, PagerQ(pc.page), PagerIn(pc.page));
    } else if pc.TermP? {
      EnterRoles(s, a, TermQ, TermLoop(0));
    } else if pc.Leave? || pc.Abort? || pc.TermV? {
      OwnerIs(s, a);
      ExitRoles(s, a, if pc.Leave? then User else if pc.Abort? then TermP else Signal);
    } else if pc.Flash? {
      FlashRoles(s, a);
    } else {
      PlainRoles(s, a);
    }
  }

  // ---------------------------------------------------------------- the chain is kept

  /** The child's end wakes the shell, or lets its P pass later. */
  lemma ChildSignal(s: State, a: Asid)
    requires Chain(s) && Parents(s) && PcOf(s, a) == Signal && a != SHELL
    ensures Chain(SignalEnd(s, a))
  {
    hide SignalEnd, Parents, PcOf;
    SignalMoves(s, a);
    ChildSems(s, a);
    assert Child(s) == Some(a);
  }

  lemma ChildSems(s: State, a: Asid)
    requires a != SHELL
    ensures var r := SignalEnd(s, a);
            && r.shellSem == s.shellSem + 1 && r.masterSem == s.masterSem && r.inst == s.inst
            && r.shellQueue == if s.shellSem + 1 <= 0 && s.shellQueue != [] then s.shellQueue[1..] else s.shellQueue
  {
    hide PcOf;
  }

  /** The shell's end lets the Instantiator pass. */
  lemma ShellSignal(s: State)
    requires Chain(s) && Parents(s) && PcOf(s, SHELL) == Signal
    ensures Chain(SignalEnd(s, SHELL))
  {
    hide SignalEnd, Parents, PcOf;
    SignalMoves(s, SHELL);
    ShellSems(s);
  }

  lemma ShellSems(s: State)
    ensures var r := SignalEnd(s, SHELL);
            && r.shellSem == s.shellSem && r.shellQueue == s.shellQueue && r.masterSem == s.masterSem + 1
            && r.inst == if s.masterSem + 1 <= 0 && s.inst == Waiting then Finished else s.inst
  {
    hide PcOf;
  }

  lemma ExecChain(s: State, a: Asid)
    requires Chain(s) && PcOf(s, a).ExecP?
    ensures Chain(GoStep(s, a))
  {
    assert a == SHELL;
    ExecFacts(s, a);
    hide GoStep, PcOf;
  }

  lemma ExecFacts(s: State, a: Asid)
    requires PcOf(s, a).ExecP?
    ensures var r := GoStep(s, a);
            && (forall b: Asid :: PcOf(r, b) == if b != a then PcOf(s, b)
                                                else if s.shellSem - 1 < 0 then ExecQ(PcOf(s, a).child) else User)
            && r.shellSem == s.shellSem - 1
            && r.shellQueue == (if s.shellSem - 1 < 0 then s.shellQueue + [a] else s.shellQueue)
            && r.masterSem == s.masterSem && r.inst == s.inst
  {
  }

  lemma LaunchChain(s: State, e: Event)
    requires Chain(s) && Enabled(s, e) && e.Execute? && Disciplined(e)
    ensures Chain(Step(s, e))
  {
    LaunchRoles(s, e.child);
    hide PcOf, Launchable, Enabled;
  }

  lemma LaunchRoles(s: State, c: Asid)
    requires c != SHELL && Launchable(s, c) && PcOf(s, SHELL) == User
    ensures var r := Step(s, Execute(SHELL, c));
            && (forall b: Asid :: PcOf(r, b) == if b == SHELL then ExecP(c) else if b == c then User else PcOf(s, b))
            && r.shellSem == s.shellSem && r.shellQueue == s.shellQueue && r.masterSem == s.masterSem
            && r.inst == s.inst
            && PcOf(s, SHELL) == User && Dead(PcOf(s, c))
  {
  }

  lemma StillRoles(s: State, r: State)
    requires r.pcs == s.pcs
    requires r.shellSem == s.shellSem && r.shellQueue == s.shellQueue && r.masterSem == s.masterSem && r.inst == s.inst
    ensures SameRoles(s, r)
  {
  }

  lemma GotoRoles(s: State, r: State, a: Asid, pc: Pc)
    requires r.pcs == s.pcs[a := pc] && RoleOf(PcOf(s, a)) == RoleOf(pc) == In
    requires r.shellSem == s.shellSem && r.shellQueue == s.shellQueue && r.masterSem == s.masterSem && r.inst == s.inst
    ensures SameRoles(s, r)
  {
    hide SameRoles, OnlyMoved, RoleOf, PcOf;
    PcsMoved(s, r, a, pc);
    MovedRoles(s, r, a, pc);
  }

  lemma EventRoles(s: State, e: Event)
    requires Enabled(s, e) && !e.Go? && !e.Execute? && !e.Launch? && !e.Await?
    ensures SameRoles(s, Step(s, e))
  {
    hide Launchable, SameRoles;
    match e
    case Fault(a, page) => GotoRoles(s, Step(s, e), a, PagerP(Some(page)));
    case BadFault(a) => GotoRoles(s, Step(s, e), a, PagerP(None));
    case Trap(a) => GotoRoles(s, Step(s, e), a, TermP);
    case Move(a) => GotoRoles(s, Step(s, e), a, PcOf(s, a).(stage := Busy(true)));
    case Done(a, ready) => GotoRoles(s, Step(s, e), a, PcOf(s, a).(stage := Unlock(ready)));
    case Load(_, _, _) => StillRoles(s, Step(s, e));
    case Store(_, _, _, _) => StillRoles(s, Step(s, e));
    case Refill(_, _) => StillRoles(s, Step(s, e));
    case Drop(_) => StillRoles(s, Step(s, e));
  }

  /** Every step of a disciplined run keeps the wait chain. */
  lemma StepChain(s: State, e: Event)
    requires Inv(s) && Chain(s) && Enabled(s, e) && Disciplined(e)
    ensures Chain(Step(s, e))
  {
    hide Mutex, FlashFree, Memory, Fifo, Parents, Chain, SameRoles, GoStep, Launchable, LaunchUproc;
    if e.Go? {
      var pc := PcOf(s, e.a);
      if pc.Signal? {
        GoSignal(s, e.a);
        if e.a == SHELL { ShellSignal(s); } else { ChildSignal(s, e.a); }
      } else if pc.ExecP? {
        ExecChain(s, e.a);
      } else {
        GoRoles(s, e.a);
        SameRolesChain(s, Step(s, e));
      }
    } else if e.Execute? {
      LaunchChain(s, e);
    } else if e.Await? {
      AwaitChain(s);
    } else {
      EventRoles(s, e);
      SameRolesChain(s, Step(s, e));
    }
  }

  lemma GoSignal(s: State, a: Asid)
    requires PcOf(s, a) == Signal
    ensures GoStep(s, a) == SignalEnd(s, a)
  {
    hide SignalEnd;
  }

  lemma AwaitChain(s: State)
    requires Chain(s) && Enabled(s, Await)
    ensures Chain(Step(s, Await))
  {
    assert forall b: Asid :: PcOf(Step(s, Await), b) == PcOf(s, b);
    hide PcOf;
  }

  // ---------------------------------------------------------------- who may go on, and when

  lemma DeadOwnsNothing(s: State, a: Asid, i: Frame)
    requires Slots(s) && (Dead(PcOf(s, a)) || PcOf(s, a).Signal?)
    ensures s.swap[i].asid != a
  {
    SlotOfDead(s, i, a);
  }

  /** The shell passes its P on `shellSemaphore` only when the child it launched has given back
      every frame. */
  lemma ShellPasses(s: State, e: Event)
    requires Inv(s) && Chain(s) && Enabled(s, e) && Disciplined(e)
    requires Child(s).Some? && RoleOf(PcOf(Step(s, e), SHELL)) == In
    ensures PcOf(Step(s, e), Child(s).value) == Gone || PcOf(Step(s, e), Child(s).value) == Idle
    ensures forall i: Frame :: s.swap[i].asid != Child(s).value && Step(s, e).swap[i].asid != Child(s).value
  {
    hide Mutex, FlashFree, Fifo, Exclusive, Faulting, Transits, Coherent, Slots, Parents, SameRoles, GoStep,
         Launchable, LaunchUproc;
    var c := Child(s).value;
    if e.Go? && PcOf(s, e.a).Signal? {
      GoSignal(s, e.a);
      SignalMoves(s, e.a);
      hide SignalEnd;
      forall i: Frame { DeadOwnsNothing(s, c, i); }
    } else if e.Go? && PcOf(s, e.a).ExecP? {
      ExecFacts(s, e.a);
      ExecSwap(s, e.a);
      forall i: Frame { DeadOwnsNothing(s, c, i); }
    } else if e.Go? {
      GoRoles(s, e.a);
      RoleShell(s, Step(s, e));
    } else if !e.Execute? && !e.Await? {
      EventRoles(s, e);
      RoleShell(s, Step(s, e));
    }
  }

  lemma ExecSwap(s: State, a: Asid)
    requires PcOf(s, a).ExecP?
    ensures GoStep(s, a).swap == s.swap
  {
  }

  lemma RoleShell(s: State, r: State)
    requires SameRoles(s, r)
    ensures RoleOf(PcOf(r, SHELL)) == RoleOf(PcOf(s, SHELL))
  {
  }

  /** Nobody left: the whole swap pool is free. */
  lemma AllFree(s: State)
    requires Slots(s) && forall a: Asid :: Dead(PcOf(s, a)) || PcOf(s, a).Signal?
    ensures forall i: Frame :: Free(s.swap[i])
  {
    forall i: Frame
      ensures Free(s.swap[i])
    {
      if !Free(s.swap[i]) {
        assert Owns(s, s.swap[i], i);
        DeadOwnsNothing(s, s.swap[i].asid, i);
      }
    }
  }

  /** The Instantiator passes its P on `masterSemaphore`, and brings the system down, only when
      all sixteen swap pool entries are free. */
  lemma InstantiatorPasses(s: State, e: Event)
    requires Inv(s) && Chain(s) && Enabled(s, e) && Disciplined(e)
    requires s.inst != Finished && Step(s, e).inst == Finished
    ensures forall i: Frame :: Free(s.swap[i])
    ensures forall a: Asid :: Dead(PcOf(Step(s, e), a))
  {
    hide Mutex, FlashFree, Fifo, Exclusive, Faulting, Transits, Coherent, Slots, Parents, GoStep, Launchable,
         LaunchUproc;
    if e.Go? && PcOf(s, e.a).Signal? {
      GoSignal(s, e.a);
      SignalMoves(s, e.a);
      if e.a == SHELL { ShellSems(s); } else { ChildSems(s, e.a); }
      hide SignalEnd;
      AllOut(s);
    } else if e.Go? && PcOf(s, e.a).ExecP? {
      ExecFacts(s, e.a);
    } else if e.Go? {
      GoRoles(s, e.a);
    } else if e.Await? {
      assert forall b: Asid :: PcOf(Step(s, e), b) == PcOf(s, b);
      AllOut(s);
    } else if e.Execute? {
      LaunchRoles(s, e.child);
    } else {
      EventRoles(s, e);
    }
  }

  /** The shell inside EXECUTE goes on exactly when its child has ended: at its P if it has by then, at
      the child's V otherwise; no other event moves it. */
  lemma ShellExact(s: State, e: Event)
    requires Inv(s) && Chain(s) && Enabled(s, e) && Disciplined(e) && Child(s).Some?
    ensures var c := Child(s).value;
            PcOf(Step(s, e), SHELL) ==
              if e == Go(SHELL) then (if Dead(PcOf(s, c)) then User else ExecQ(c))
              else if e == Go(c) && PcOf(s, c) == Signal && PcOf(s, SHELL).ExecQ? then User
              else PcOf(s, SHELL)
  {
    hide Inv, Chain, GoStep, Step, Enabled, PcOf, CanGo;
    ShellIn(s);
    if e.Go? {
      GoesByGo(s, e);
      if e.a == SHELL {
        ShellAtP(s);
      } else if PcOf(s, e.a).Signal? {
        ChildEnds(s, e.a);
      } else {
        ShellStill(s, e.a);
      }
    } else {
      ShellElsewhere(s, e);
    }
  }

  lemma GoesByGo(s: State, e: Event)
    requires Enabled(s, e) && e.Go?
    ensures CanGo(PcOf(s, e.a)) && Step(s, e) == GoStep(s, e.a)
    ensures !PcOf(s, e.a).ExecQ?
  {
    hide GoStep;
  }

  lemma ShellIn(s: State)
    requires Child(s).Some?
    ensures PcOf(s, SHELL).ExecP? || PcOf(s, SHELL).ExecQ?
    ensures Child(s) == Some(PcOf(s, SHELL).child)
  {
  }

  lemma ShellAtP(s: State)
    requires Chain(s) && PcOf(s, SHELL).ExecP?
    ensures var c := PcOf(s, SHELL).child;
            PcOf(GoStep(s, SHELL), SHELL) == if Dead(PcOf(s, c)) then User else ExecQ(c)
  {
    ExecFacts(s, SHELL);
    hide GoStep;
  }

  lemma ChildEnds(s: State, a: Asid)
    requires Inv(s) && Chain(s) && PcOf(s, a) == Signal && a != SHELL && Child(s).Some?
    requires PcOf(s, SHELL).ExecP? || PcOf(s, SHELL).ExecQ?
    ensures Child(s) == Some(a)
    ensures PcOf(GoStep(s, a), SHELL) == if PcOf(s, SHELL).ExecQ? then User else PcOf(s, SHELL)
  {
    hide Mutex, FlashFree, Memory, Fifo, GoStep, SignalEnd;
    GoSignal(s, a);
    SignalMoves(s, a);
    assert RoleOf(PcOf(s, a)) != Out;
  }

  lemma ShellElsewhere(s: State, e: Event)
    requires Enabled(s, e) && Disciplined(e) && !e.Go? && (PcOf(s, SHELL).ExecP? || PcOf(s, SHELL).ExecQ?)
    ensures PcOf(Step(s, e), SHELL) == PcOf(s, SHELL)
  {
    hide Launchable, PteOf, BlockOf, LaunchUproc;
  }

  /** Nobody but the owner of a V moves the shell out of EXECUTE. */
  lemma ShellStill(s: State, a: Asid)
    requires Inv(s) && CanGo(PcOf(s, a)) && a != SHELL && !PcOf(s, a).Signal?
    requires PcOf(s, SHELL).ExecP? || PcOf(s, SHELL).ExecQ?
    ensures PcOf(GoStep(s, a), SHELL) == PcOf(s, SHELL)
  {
    hide Mutex, FlashFree, Memory, Fifo, Enter, Parents, Exit, SignalEnd, FlashStep, Choose, OnlyMoved, Inside,
         GoStep, CanGo;
    var pc := PcOf(s, a);
    KindsOf(pc);
    GoForms(s, a);
    if pc.PagerP? {
      EnterMoves(s, a, PagerQ(pc.page), PagerIn(pc.page));
      MovedElse(s, GoStep(s, a), a, PcOf(GoStep(s, a), a), SHELL);
    } else if pc.TermP? {
      EnterMoves(s, a, TermQ, TermLoop(0));
      MovedElse(s, GoStep(s, a), a, PcOf(GoStep(s, a), a), SHELL);
    } else if pc.Leave? || pc.Abort? || pc.TermV? {
      OwnerIs(s, a);
      ExitElse(s, a, if pc.Leave? then User else if pc.Abort? then TermP else Signal, SHELL);
    } else {
      PlainGo(s, a);
      MovedElse(s, GoStep(s, a), a, PcOf(GoStep(s, a), a), SHELL);
    }
  }

  lemma ExitElse(s: State, a: Asid, next: Pc, b: Asid)
    requires Mutex(s) && s.owner == Some(a) && !Queued(next) && a != b && !Queued(PcOf(s, b))
    ensures PcOf(Exit(s, a, next), b) == PcOf(s, b)
  {
    hide Mutex, Inside, Exit, Admitted;
    ExitMoves(s, a, next);
  }

  /** The Instantiator waits exactly until the shell has ended. */
  lemma InstantiatorExact(s: State, e: Event)
    requires Inv(s) && Chain(s) && Enabled(s, e) && Disciplined(e)
    ensures Step(s, e).inst == if e == Await then (if PcOf(s, SHELL) == Gone then Finished else Waiting)
                               else if e == Go(SHELL) && PcOf(s, SHELL) == Signal && s.inst == Waiting then Finished
                               else s.inst
  {
    hide Mutex, FlashFree, Memory, Fifo, Parents, GoStep, Launchable, LaunchUproc, SameRoles;
    if e.Go? && PcOf(s, e.a).Signal? {
      GoSignal(s, e.a);
      if e.a == SHELL { ShellSems(s); } else { ChildSems(s, e.a); }
    } else if e.Go? && PcOf(s, e.a).ExecP? {
      ExecFacts(s, e.a);
    } else if e.Go? {
      GoRoles(s, e.a);
      SameInst(s, Step(s, e));
    } else if e.Execute? {
      LaunchRoles(s, e.child);
    } else if !e.Await? {
      EventRoles(s, e);
      SameInst(s, Step(s, e));
    }
  }

  lemma SameInst(s: State, r: State)
    requires SameRoles(s, r)
    ensures r.inst == s.inst
  {
  }

  lemma AllOut(s: State)
    requires Slots(s) && Chain(s) && (PcOf(s, SHELL) == Gone || PcOf(s, SHELL) == Signal)
    ensures forall i: Frame :: Free(s.swap[i])
    ensures forall a: Asid :: a != SHELL ==> Dead(PcOf(s, a))
  {
    hide Slots;
    forall a: Asid | a != SHELL
      ensures Dead(PcOf(s, a))
    {
      assert RoleOf(PcOf(s, a)) == Out;
    }
    AllFree(s);
  }

  lemma StartChain(frames: Frames, flash: map<Vpage, Content>)
    ensures Chain(Start(frames, flash))
  {
  }

  lemma {:induction false} RunChain(s: State, es: seq<Event>, t: State)
    requires Inv(s) && Chain(s) && Run(s, es, t) && forall e :: e in es ==> Disciplined(e)
    ensures Inv(t) && Chain(t)
    decreases |es|
  {
    if es != [] {
      assert es[0] in es;
      StepInv(s, es[0]);
      StepChain(s, es[0]);
      hide Inv, Chain, Step, Enabled;
      RunChain(Step(s, es[0]), es[1..], t);
    }
  }

  /** In every state of every disciplined run at most two U-procs are launched, the shell and the
      child it is inside EXECUTE for; and once the Instantiator has gone on, nothing is left. */
  lemma AtMostTwo(frames: Frames, flash: map<Vpage, Content>, es: seq<Event>, t: State)
    requires Run(Start(frames, flash), es, t) && forall e :: e in es ==> Disciplined(e)
    ensures forall a: Asid, b: Asid :: a != SHELL && b != SHELL && !Dead(PcOf(t, a)) && !Dead(PcOf(t, b)) ==> a == b
    ensures forall a: Asid :: a != SHELL && !Dead(PcOf(t, a)) ==> Child(t) == Some(a)
    ensures t.inst == Finished ==> forall i: Frame :: Free(t.swap[i])
  {
    StartInv(frames, flash);
    StartChain(frames, flash);
    RunChain(Start(frames, flash), es, t);
    hide Mutex, FlashFree, Fifo, Exclusive, Faulting, Transits, Coherent, Slots, Parents;
    forall a: Asid | a != SHELL && !Dead(PcOf(t, a))
      ensures Child(t) == Some(a)
    {
      assert RoleOf(PcOf(t, a)) != Out;
    }
    if t.inst == Finished { AllOut(t); }
  }
}
