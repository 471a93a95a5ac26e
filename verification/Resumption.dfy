/** Over runs: a process that gave up the processor gets it back with exactly the registers it left
    with, and the result it waited for; equals share the processor in turn. */
module Resumption {
  import opened Queues
  import opened Nucleus
  import opened NucleusInvariant
  import opened NucleusRun
  import opened Verdict
  import opened CpuTime
  import opened Priority
  import opened NucleusHistory
  import opened Wakeups
  import opened Devices
  import opened Calls
  import opened Control

  // ---------------------------------------------------------------- away from the processor

  /** Along the run `p` lives, and does not run before the last state. */
  ghost predicate Away(s: State, es: seq<Event>, p: Id)
    requires Inv(s)
    decreases |es|
  {
    && Live(s, p)
    && (es != [] && Enabled(s, es[0]) ==>
          s.current != Some(p) && (StepInv(s, es[0]); Away(Step(s, es[0]), es[1..], p)))
  }

  /** The first wake-up of the run that `p` is due. */
  ghost function FirstDue(s: State, es: seq<Event>, p: Id): Option<Option<int>>
    requires Inv(s)
    decreases |es|
  {
    if es == [] || !Enabled(s, es[0]) then None
    else if Due(s, es[0], p).Some? then Due(s, es[0], p)
    else (StepInv(s, es[0]); FirstDue(Step(s, es[0]), es[1..], p))
  }

  lemma DueOnce(s: State, e: Event, p: Id, b: Pcb)
    ensures Due(s, e, p).Some? ==> s.pcb[p].semAdd.Some? && After(b, Due(s, e, p)).semAdd.None?
  {
  }

  lemma {:induction false} NoMoreDue(s: State, es: seq<Event>, t: State, p: Id)
    requires Inv(s) && Run(s, es, t) && Away(s, es, p) && s.pcb[p].semAdd.None?
    ensures FirstDue(s, es, p) == None
    decreases |es|
  {
    if es != [] {
      var r := Step(s, es[0]);
      StepInv(s, es[0]);
      DueOnce(s, es[0], p, s.pcb[p]);
      assert Live(r, p);
      hide Inv, Step, Enabled, Due, Live;
      StepOutcome(s, es[0], p);
      AfterNone(s.pcb[p]);
      NoMoreDue(r, es[1..], t, p);
    }
  }

  /** The PCB of a process that is away changes by the wake-up it waits for, and by nothing else but
      its list of children; and the process gets the processor back with the registers in it. */
  lemma {:induction false} RunAway(s: State, es: seq<Event>, t: State, p: Id)
    requires Inv(s) && Run(s, es, t) && Away(s, es, p)
    ensures t.pcb[p] == After(s.pcb[p], FirstDue(s, es, p)).(children := t.pcb[p].children)
    ensures es != [] && t.current == Some(p) ==> t.cpu == Load(t.pcb[p].regs)
    decreases |es|
  {
    if es == [] {
      AfterNone(s.pcb[p]);
    } else {
      var r := Step(s, es[0]);
      StepInv(s, es[0]);
      assert Live(r, p) && s.current != Some(p);
      DueOnce(s, es[0], p, s.pcb[p]);
      hide Inv, Step, Enabled, Due, Live;
      StepOutcome(s, es[0], p);
      StepDispatch(s, es[0]);
      RunAway(r, es[1..], t, p);
      AfterNone(s.pcb[p]);
      if Due(s, es[0], p).Some? {
        NoMoreDue(r, es[1..], t, p);
        AfterNone(r.pcb[p]);
      }
    }
  }

  /** A process that is ready when it loses the processor gets it back with the registers saved. */
  lemma ReadyReturns(s: State, es: seq<Event>, t: State, p: Id)
    requires Inv(s) && Run(s, es, t) && Away(s, es, p) && s.pcb[p].semAdd.None? && es != [] && t.current == Some(p)
    ensures t.cpu == Load(s.pcb[p].regs)
  {
    NoMoreDue(s, es, t, p);
    RunAway(s, es, t, p);
  }

  /** A blocked process gets the processor back after the wake-up it waits for. */
  lemma BlockedReturns(s: State, es: seq<Event>, t: State, p: Id)
    requires Inv(s) && Run(s, es, t) && Away(s, es, p) && s.pcb[p].semAdd.Some? && t.current == Some(p)
    ensures Inv(t) && FirstDue(s, es, p).Some? && t.cpu == Load(After(s.pcb[p], FirstDue(s, es, p)).regs)
  {
    RunKeepsInv(s, es, t);
    CurrentUnblocked(t);
    if es == [] { assert false by { CurrentUnblocked(s); } }
    hide Inv, Run, Away, FirstDue;
    RunAway(s, es, t, p);
  }

  lemma {:induction false} RunKeepsInv(s: State, es: seq<Event>, t: State)
    requires Inv(s) && Run(s, es, t)
    ensures Inv(t)
    decreases |es|
  {
    if es != [] {
      StepInv(s, es[0]);
      hide Inv, Step, Enabled;
      RunKeepsInv(Step(s, es[0]), es[1..], t);
    }
  }

  /** What a wake-up from device semaphore `i` or the clock brings was brought by an event of the
      run. */
  lemma {:induction false} DueWhence(s: State, es: seq<Event>, t: State, p: Id, i: nat)
    requires Inv(s) && Run(s, es, t) && Away(s, es, p) && s.pcb[p].semAdd == Some(Dev(i)) && FirstDue(s, es, p).Some?
    ensures exists e :: e in es && FirstDue(s, es, p) ==
              if i == PSEUDOCLK_SEM then Some(Some(0)) else Some(Acknowledged(e, i))
    ensures FirstDue(s, es, p).value.Some?
    decreases |es|
  {
    var e := es[0];
    assert es == [e] + es[1..];
    if Due(s, e, p).Some? {
      assert e in es;
      DueFrom(s, e, p, i);
    } else {
      StepInv(s, e);
      assert Live(Step(s, e), p) && s.current != Some(p);
      hide Inv, Step, Enabled, Due, Live, Acknowledged;
      StepOutcome(s, e, p);
      AfterNone(s.pcb[p]);
      DueWhence(Step(s, e), es[1..], t, p, i);
    }
  }

  lemma DueFrom(s: State, e: Event, p: Id, i: nat)
    requires s.pcb[p].semAdd == Some(Dev(i)) && Due(s, e, p).Some?
    ensures Due(s, e, p).value.Some?
    ensures Due(s, e, p) == if i == PSEUDOCLK_SEM then Some(Some(0)) else Some(Acknowledged(e, i))
  {
    hide Acknowledged;
  }

  // ---------------------------------------------------------------- the calls, from trap to return

  /** DOIO and CLOCKWAIT: the caller waits, and when it runs again it is behind its call, with the
      status that an interrupt of the run acknowledged for its sub-device, or zero from the clock. */
  lemma WaitReturns(s: State, e: Event, es: seq<Event>, t: State)
    requires Inv(s) && Enabled(s, e) && (Issues(s, e, DOIO) || Issues(s, e, CLOCKWAIT)) && s.current.Some?
    requires Inv(Step(s, e)) && Run(Step(s, e), es, t) && Away(Step(s, e), es, s.current.value)
    requires t.current == s.current
    ensures exists d :: d in es &&
              if e.saved.a0 == CLOCKWAIT then t.cpu == Load(Returned(e, 0))
              else Acknowledged(d, SemOfCommand(e.saved.a1)).Some?
                   && t.cpu == Load(Returned(e, Acknowledged(d, SemOfCommand(e.saved.a1)).value))
  {
    hide Inv, Run, Away, Step, Enabled, FirstDue, SemOfCommand, Acknowledged, HeadRuns;
    var c := s.current.value;
    WaitExact(s, e);
    WaitSem(s, e);
    BlockedReturns(Step(s, e), es, t, c);
    var i := if e.saved.a0 == DOIO then SemOfCommand(e.saved.a1) else PSEUDOCLK_SEM;
    DueWhence(Step(s, e), es, t, c, i);
  }

  lemma WaitSem(s: State, e: Event)
    requires Inv(s) && Enabled(s, e) && (Issues(s, e, DOIO) || Issues(s, e, CLOCKWAIT))
    ensures e.saved.a0 == DOIO ==> 0 <= SemOfCommand(e.saved.a1) < PSEUDOCLK_SEM
  {
    hide Inv, SemOfCommand;
    if e.saved.a0 == DOIO { SemOfCommandRange(e.saved.a1); }
  }

  /** PASSEREN that blocks: the caller goes on behind its call, with its registers as they were. */
  lemma PasserenReturns(s: State, e: Event, es: seq<Event>, t: State)
    requires Inv(s) && Enabled(s, e) && Issues(s, e, PASSEREN) && s.current.Some? && WordAt(s.words, e.saved.a1) <= 0
    requires Inv(Step(s, e)) && Run(Step(s, e), es, t) && Away(Step(s, e), es, s.current.value)
    requires t.current == s.current
    ensures t.cpu == Load(Returned(e, PASSEREN))
  {
    hide Inv, Run, Away, Step, Enabled, FirstDue, HeadRuns;
    var c := s.current.value;
    PasserenExact(s, e);
    BlockedReturns(Step(s, e), es, t, c);
    DueOfWord(Step(s, e), es, t, c, e.saved.a1);
  }

  lemma {:induction false} DueOfWord(s: State, es: seq<Event>, t: State, p: Id, a: int)
    requires Inv(s) && Run(s, es, t) && Away(s, es, p) && s.pcb[p].semAdd == Some(Word(a)) && FirstDue(s, es, p).Some?
    ensures FirstDue(s, es, p) == Some(None)
    decreases |es|
  {
    var e := es[0];
    if Due(s, e, p).None? {
      StepInv(s, e);
      assert Live(Step(s, e), p) && s.current != Some(p);
      hide Inv, Step, Enabled, Due, Live;
      StepOutcome(s, e, p);
      AfterNone(s.pcb[p]);
      DueOfWord(Step(s, e), es[1..], t, p, a);
    }
  }

  /** The end of a time slice, and YIELD: when the process runs again it is where it was
      interrupted, or behind its call. */
  lemma SliceReturns(s: State, e: Event, es: seq<Event>, t: State)
    requires Inv(s) && Enabled(s, e) && s.current.Some?
    requires (e.interrupt && e.saved.cause == 7) || Issues(s, e, YIELD)
    requires Inv(Step(s, e)) && Run(Step(s, e), es, t) && Away(Step(s, e), es, s.current.value)
    requires t.current == s.current
    ensures t.cpu == Load(if e.interrupt then e.saved.(mie := true) else Returned(e, YIELD))
  {
    hide Inv, Run, Away, Step, Enabled, Behind;
    var c := s.current.value;
    CurrentFree(s);
    if e.interrupt { TimerExact(s, e); } else { YieldExact(s, e); }
    if es == [] {
      NoRun(Step(s, e), t);
      HeadOther(s);
    } else {
      ReadyReturns(Step(s, e), es, t, c);
    }
  }

  lemma CurrentFree(s: State)
    requires Inv(s) && s.current.Some?
    ensures s.pcb[s.current.value].semAdd.None?
  {
    CurrentUnblocked(s);
  }

  lemma HeadOther(s: State)
    requires Inv(s) && s.current.Some?
    ensures s.ready != [] ==> s.ready[0] != s.current.value
  {
    NotReady(s);
  }

  lemma NoRun(s: State, t: State)
    requires Inv(s) && Run(s, [], t)
    ensures s == t
  {
  }

  // ---------------------------------------------------------------- round robin

  predicate IsTimer(e: Event) {
    e.interrupt && e.saved.cause == 7
  }

  /** What a timer interrupt does to a process in the queue whose equals are all in front of it: it
      moves up by one. */
  lemma TimerMovesUp(s: State, e: Event, n: nat)
    requires Inv(s) && Enabled(s, e) && IsTimer(e) && s.current.Some? && n < |s.ready|
    requires forall i :: 0 <= i <= n ==> s.pcb[s.ready[i]].prio == s.pcb[s.ready[n]].prio
    requires s.pcb[s.current.value].prio <= s.pcb[s.ready[n]].prio
    ensures var r := Step(s, e);
            && Inv(r) && r.current == Some(s.ready[0]) && |r.ready| == |s.ready|
            && (forall i :: 0 <= i < n ==> r.ready[i] == s.ready[i + 1])
            && (forall p: Id :: r.pcb[p].prio == s.pcb[p].prio)
            && (n == 0 ==> r.cpu == Load(s.pcb[s.ready[0]].regs))
  {
    hide Inv, Step, Enabled, Behind;
    StepInv(s, e);
    TimerExact(s, e);
    BehindEquals(s.ready, s.current.value, s.pcb, Step(s, e).ready, n);
  }

  /** Behind `n` members that rank at least as high: these stay in front. */
  lemma BehindEquals(q: seq<Id>, c: Id, t: PcbTable, r: seq<Id>, n: nat)
    requires n < |q| && Behind(q[1..], c, t, r) && forall i :: 0 <= i <= n ==> t[q[i]].prio >= t[c].prio
    ensures |r| == |q| && forall i :: 0 <= i < n ==> r[i] == q[i + 1]
  {
    var u := q[1..];
    var k: nat :| k <= |u| && r == u[..k] + [c] + u[k..]
                  && (forall i :: 0 <= i < k ==> t[u[i]].prio >= t[c].prio)
                  && (k < |u| ==> t[u[k]].prio < t[c].prio);
    assert forall i :: 0 <= i < n ==> u[i] == q[i + 1];
    assert k >= n;
  }

  /** Time slices go round among equals: while nobody in front of it in the queue, nor the running
      process, ranks higher, the process at position `n` runs after `n + 1` timer interrupts. */
  lemma {:induction false} RoundRobin(s: State, es: seq<Event>, t: State, n: nat)
    requires Inv(s) && Run(s, es, t) && |es| == n + 1 && (forall e :: e in es ==> IsTimer(e))
    requires s.current.Some? && n < |s.ready|
    requires forall i :: 0 <= i <= n ==> s.pcb[s.ready[i]].prio == s.pcb[s.ready[n]].prio
    requires s.pcb[s.current.value].prio <= s.pcb[s.ready[n]].prio
    ensures t.current == Some(s.ready[n])
    decreases n
  {
    hide Inv, Step, Enabled;
    assert es[0] in es;
    TimerMovesUp(s, es[0], n);
    var r := Step(s, es[0]);
    if n == 0 {
      assert es[1..] == [];
    } else {
      RoundRobin(r, es[1..], t, n - 1);
    }
  }

  /** On a sorted queue: the process at position `n` that nobody outranks. */
  lemma EqualsTakeTurns(s: State, es: seq<Event>, t: State, n: nat)
    requires Inv(s) && Sorted(s) && Run(s, es, t) && |es| == n + 1 && (forall e :: e in es ==> IsTimer(e))
    requires s.current.Some? && n < |s.ready| && s.pcb[s.ready[0]].prio == s.pcb[s.ready[n]].prio
    requires s.pcb[s.current.value].prio <= s.pcb[s.ready[n]].prio
    ensures t.current == Some(s.ready[n])
  {
    hide Inv, Run;
    assert forall i :: 0 <= i <= n ==> Prios(s.pcb)[s.ready[i]] == Prios(s.pcb)[s.ready[n]];
    RoundRobin(s, es, t, n);
  }
}
