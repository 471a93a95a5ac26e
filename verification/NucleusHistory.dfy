/** Boot, and the invariants over every run from it. */
module NucleusHistory {
  import opened Queues
  import opened Nucleus
  import opened NucleusInvariant
  import opened Lifecycle
  import opened Termination
  import opened NucleusRun
  import opened Verdict
  import opened CpuTime
  import opened Priority

  const PROCESS_PRIO_LOW := 0

  // ---------------------------------------------------------------- boot

  /** The globals when `main` calls the scheduler: one process, PCB 0 with pid 1, is ready.
      `words` is the memory of the ordinary semaphores, `regs` the start state of `test`. */
  function BootState(words: map<int, int>, tod: int, regs: Regs): State {
    State(seq(MAXPROC, i => if i == 0 then Pcb(1, None, [], None, 0, 0, PROCESS_PRIO_LOW, regs) else NO_PCB),
          Ids(MAXPROC)[1..], 2, map[], [0], None, None, 1, 0, seq(TOT_SEMS, _ => 0), words,
          seq(MAXPROC, i => if i == 0 then Some(0) else None), tod, Panic, [])
  }

  function Boot(words: map<int, int>, tod: int, now: int, regs: Regs): State {
    Scheduler(BootState(words, tod, regs), now)
  }

  lemma BootFree(p: Id)
    ensures Count(Ids(MAXPROC)[1..], p) == One(p != 0)
    ensures |Ids(MAXPROC)| == MAXPROC
  {
    IdsCount(MAXPROC, p);
    var all := Ids(MAXPROC);
    assert all[0] == 0;
    hide Ids;
    CountHead(all, p);
  }

  lemma {:induction false} EmptySum(n: nat)
    ensures SumDev(map[], n) == 0
  {
    if n > 0 { EmptySum(n - 1); }
  }

  lemma {:induction false} BootSlots(n: nat, o: Option<Id>)
    requires n <= MAXPROC
    ensures Slots(seq(n, i => if i == 0 then Some(0) else None), o)
         == if n == 0 then 0 else if o == Some(0) then 1 else if o == None then n - 1 else 0
  {
    if n > 0 {
      BootSlots(n - 1, o);
      var t: seq<Option<Id>> := seq(n, i => if i == 0 then Some(0) else None);
      var u: seq<Option<Id>> := seq(n - 1, i => if i == 0 then Some(0) else None);
      assert t == u + [t[n - 1]];
    }
  }

  lemma BootPlacement(words: map<int, int>, tod: int, regs: Regs)
    ensures Placement(BootState(words, tod, regs)) && Tree(BootState(words, tod, regs))
  {
    var s := BootState(words, tod, regs);
    hide Ids;
    forall p: Id
      ensures Count(s.free, p) == One(p != 0) && Count(s.ready, p) == One(p == 0) && Count([], p) == 0
    {
      BootFree(p);
      CountOne(0, p);
      CountNone(p);
    }
    hide Count;
    assert forall p: Id :: Places(s, p) == 1;
    assert forall k: Sem, p: Id :: Count(Queue(s.asl, k), p) == One(s.pcb[p].semAdd == Some(k));
  }

  lemma CountNone(p: Id)
    ensures Count([], p) == 0
  {
  }

  lemma BootCounts(words: map<int, int>, tod: int, regs: Regs)
    ensures Counts(BootState(words, tod, regs))
  {
    hide Ids, SumDev;
    EmptySum(TOT_SEMS);
    forall p: Id
      ensures Slots(BootState(words, tod, regs).active, Some(p)) == One(Live(BootState(words, tod, regs), p))
    {
      BootFree(p);
      BootSlots(MAXPROC, Some(p));
    }
    BootFree(0);
    BootSlots(MAXPROC, None);
  }

  /** `main` establishes the invariant and starts the boot process. */
  lemma BootInv(words: map<int, int>, tod: int, now: int, regs: Regs)
    requires forall a :: a in words ==> words[a] >= 0
    requires tod <= now
    ensures var s := Boot(words, tod, now, regs);
            Inv(s) && Settled(s) && s.current == Some(0) && s.cpu == Load(regs)
            && TimeInv(s, Epoch(tod, [])) && Sorted(s)
  {
    var s := BootState(words, tod, regs);
    BootPlacement(words, tod, regs);
    BootCounts(words, tod, regs);
    assert Sems(s);
    assert TimeInv(s, Epoch(tod, []));
    assert Sorted(s);
    assert Inv(s);
    hide Inv, Placement, Tree, Counts, Sems, TimeInv, Ids, Sorted;
    SchedulerInv(s, now);
    SchedulerSettled(s, now);
    SchedulerUntimed(s, now);
    UntimedInv(s, Scheduler(s, now), Epoch(tod, []));
    SchedulerSorted(s, now);
  }

  // ---------------------------------------------------------------- runs

  /** The machine goes from `s` to `t` by the exceptions `es`. */
  ghost predicate Run(s: State, es: seq<Event>, t: State)
    requires Inv(s)
    decreases |es|
  {
    if es == [] then s == t else
      Enabled(s, es[0]) && (StepInv(s, es[0]); Run(Step(s, es[0]), es[1..], t))
  }

  /** In every state of every run: one place per PCB, one process tree, agreeing counters,
      tables and semaphore values; an exact verdict; and honest processor time. */
  lemma {:induction false} RunInv(s: State, es: seq<Event>, t: State, h: Epoch)
    requires Inv(s) && Settled(s) && TimeInv(s, h) && Run(s, es, t)
    ensures Inv(t) && Settled(t) && TimeInv(t, h)
    decreases |es|
  {
    if es != [] {
      StepInv(s, es[0]);
      StepSettled(s, es[0]);
      StepTime(s, es[0], h);
      hide Inv, Settled, TimeInv, Step;
      RunInv(Step(s, es[0]), es[1..], t, h);
    }
  }

  /** No transmitter interrupt of the run lets a process overtake the tail. */
  ghost predicate Orderly(s: State, es: seq<Event>)
    requires Inv(s)
    decreases |es|
  {
    es == [] || (Enabled(s, es[0]) && !TxOvertakes(s, es[0])
                 && (StepInv(s, es[0]); Orderly(Step(s, es[0]), es[1..])))
  }

  /** In runs without such an interrupt the ready queue is sorted by priority throughout, so
      every dispatch picks the oldest process of the highest priority. */
  lemma {:induction false} RunSorted(s: State, es: seq<Event>, t: State)
    requires Inv(s) && Settled(s) && Sorted(s) && Run(s, es, t) && Orderly(s, es)
    ensures Sorted(t)
    decreases |es|
  {
    if es != [] {
      StepInv(s, es[0]);
      StepSettled(s, es[0]);
      StepSorted(s, es[0]);
      hide Inv, Settled, Sorted, Step, TxOvertakes;
      RunSorted(Step(s, es[0]), es[1..], t);
    }
  }

  // ---------------------------------------------------------------- the tree

  /** Every live process descends from the boot process. */
  lemma {:induction false} OneRoot(s: State, p: Id)
    requires Inv(s) && Live(s, p)
    ensures exists r: Id :: Live(s, r) && s.pcb[r].pid == 1 && Under(s, p, r)
    decreases s.pcb[p].pid
  {
    hide Placement, Counts, Sems;
    if s.pcb[p].parent.None? {
      assert s.pcb[p].pid == 1 && Under(s, p, p);
    } else {
      var q := s.pcb[p].parent.value;
      assert 1 <= s.pcb[q].pid < s.pcb[p].pid;
      OneRoot(s, q);
      var r: Id :| Live(s, r) && s.pcb[r].pid == 1 && Under(s, q, r);
      assert Under(s, p, r);
    }
  }

  /** The system is empty exactly when the boot process has been terminated. */
  lemma EmptyIffRootGone(s: State)
    requires Inv(s)
    ensures (forall p: Id :: !Live(s, p)) <==> !exists r: Id :: Live(s, r) && s.pcb[r].pid == 1
  {
    if p: Id :| Live(s, p) { OneRoot(s, p); }
  }
}
