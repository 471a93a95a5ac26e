/** Blocking on a semaphore and waking its head keep the invariant. Each transition is a
    relation between two states, shared by every handler that performs it. */
module BlockAndWake {
  import opened Queues
  import opened Nucleus
  import opened NucleusInvariant

  /** The tables agree except that `p` now waits on `a`. */
  ghost predicate OnlySemAdd(t: PcbTable, u: PcbTable, p: Id, a: Option<Sem>) {
    && (forall x: Id :: t[x].pid == u[x].pid && t[x].parent == u[x].parent && t[x].children == u[x].children)
    && (forall x: Id :: u[x].semAdd == if x == p then a else t[x].semAdd)
  }

  ghost predicate SameRest(s: State, r: State) {
    && s.free == r.free && s.nextPid == r.nextPid && s.yielded == r.yielded
    && s.processCount == r.processCount && s.active == r.active
  }

  // ---------------------------------------------------------------- blocking

  /** From `s` to `r` the current process `c` joined the queue of `k`, whose value fell below
      zero by one more. */
  ghost predicate Parked(s: State, r: State, c: Id, k: Sem) {
    && SameRest(s, r) && s.ready == r.ready && s.current == Some(c) && r.current.None?
    && OnlySemAdd(s.pcb, r.pcb, c, Some(k))
    && r.asl == s.asl[k := Queue(s.asl, k) + [c]]
    && r.softBlock == s.softBlock + One(k.Dev?)
    && (match k
        case Word(a) =>
          r.devSems == s.devSems && Debt(WordAt(r.words, a)) == Debt(WordAt(s.words, a)) + 1
          && forall b :: b != a ==> WordAt(r.words, b) == WordAt(s.words, b)
        case Dev(i) =>
          0 <= i < TOT_SEMS && r.words == s.words && r.devSems == s.devSems[i := s.devSems[i] - 1])
  }

  lemma ParkedPlacement(s: State, r: State, c: Id, k: Sem)
    requires Placement(s) && Parked(s, r, c, k)
    ensures Placement(r)
  {
    assert Places(s, c) == 1;
    forall p: Id
      ensures Places(r, p) == 1
    {
      assert Places(s, p) == 1;
    }
    forall j: Sem, p: Id
      ensures Count(Queue(r.asl, j), p) == One(r.pcb[p].semAdd == Some(j))
    {
      assert Count(Queue(s.asl, j), p) == One(s.pcb[p].semAdd == Some(j));
      if j == k { CountSplit(Queue(s.asl, k), [c], p); }
    }
  }

  lemma SameTree(s: State, r: State)
    requires Tree(s)
    requires forall x: Id :: s.pcb[x].pid == r.pcb[x].pid && s.pcb[x].parent == r.pcb[x].parent
                          && s.pcb[x].children == r.pcb[x].children
    requires s.free == r.free && s.nextPid == r.nextPid
    ensures Tree(r)
  {
    assert forall p: Id :: Live(r, p) == Live(s, p);
  }

  lemma ParkedCounts(s: State, r: State, c: Id, k: Sem)
    requires Counts(s) && Parked(s, r, c, k)
    ensures Counts(r)
  {
    assert forall p: Id :: Live(r, p) == Live(s, p);
    if k.Dev? {
      SumChange(s.asl, r.asl, TOT_SEMS, k.index);
    } else {
      SumSame(s.asl, r.asl, TOT_SEMS);
    }
  }

  lemma ParkedSems(s: State, r: State, c: Id, k: Sem)
    requires Sems(s) && Parked(s, r, c, k)
    ensures Sems(r)
  {
    forall a: int
      ensures |Queue(r.asl, Word(a))| == Debt(WordAt(r.words, a))
    {
      assert |Queue(s.asl, Word(a))| == Debt(WordAt(s.words, a));
    }
  }

  lemma ParkedInv(s: State, r: State, c: Id, k: Sem)
    requires Inv(s) && Parked(s, r, c, k)
    ensures Inv(r)
  {
    ParkedPlacement(s, r, c, k);
    SameTree(s, r);
    ParkedCounts(s, r, c, k);
    ParkedSems(s, r, c, k);
  }

  // ---------------------------------------------------------------- waking

  /** From `s` to `r` the head `p` of the queue of `k` moved to the ready queue. */
  ghost predicate Woken(s: State, r: State, p: Id, k: Sem) {
    && SameRest(s, r) && s.current == r.current
    && Queue(s.asl, k) != [] && p == Queue(s.asl, k)[0]
    && (forall x: Id :: Count(r.ready, x) == Count(s.ready, x) + One(x == p))
    && OnlySemAdd(s.pcb, r.pcb, p, None)
    && r.asl == (if |s.asl[k]| == 1 then s.asl - {k} else s.asl[k := s.asl[k][1..]])
    && r.softBlock == s.softBlock - One(k.Dev?)
    && (match k
        case Word(a) =>
          r.devSems == s.devSems && WordAt(r.words, a) == WordAt(s.words, a) + 1
          && forall b :: b != a ==> WordAt(r.words, b) == WordAt(s.words, b)
        case Dev(i) =>
          0 <= i < TOT_SEMS && r.words == s.words
          && (r.devSems == s.devSems || r.devSems == s.devSems[i := s.devSems[i] + 1]))
  }

  lemma WokenQueue(s: State, r: State, p: Id, k: Sem, j: Sem)
    requires Woken(s, r, p, k)
    ensures Queue(r.asl, j) == if j == k then Queue(s.asl, k)[1..] else Queue(s.asl, j)
  {
  }

  lemma WokenPlacement(s: State, r: State, p: Id, k: Sem)
    requires Placement(s) && Woken(s, r, p, k)
    ensures Placement(r)
  {
    CountHead(Queue(s.asl, k), p);
    assert Count(Queue(s.asl, k), p) == One(s.pcb[p].semAdd == Some(k));
    forall x: Id
      ensures Places(r, x) == 1
    {
      assert Places(s, x) == 1;
    }
    forall j: Sem, x: Id
      ensures Count(Queue(r.asl, j), x) == One(r.pcb[x].semAdd == Some(j))
    {
      assert Count(Queue(s.asl, j), x) == One(s.pcb[x].semAdd == Some(j));
      WokenQueue(s, r, p, k, j);
      if j == k { CountHead(Queue(s.asl, k), x); }
    }
  }

  lemma WokenCounts(s: State, r: State, p: Id, k: Sem)
    requires Counts(s) && Woken(s, r, p, k)
    ensures Counts(r)
  {
    assert forall x: Id :: Live(r, x) == Live(s, x);
    if k.Dev? {
      SumChange(s.asl, r.asl, TOT_SEMS, k.index);
    } else {
      SumSame(s.asl, r.asl, TOT_SEMS);
    }
  }

  /** A device queue may also lose its head while its value stays, as the pseudo-clock does
      before it is reset; an increment needs a value below zero to be owed to the head. */
  lemma WokenSems(s: State, r: State, p: Id, k: Sem)
    requires Sems(s) && Woken(s, r, p, k)
    ensures Sems(r)
  {
    forall a: int
      ensures |Queue(r.asl, Word(a))| == Debt(WordAt(r.words, a))
    {
      assert |Queue(s.asl, Word(a))| == Debt(WordAt(s.words, a));
      WokenQueue(s, r, p, k, Word(a));
    }
    forall i | 0 <= i < TOT_SEMS
      ensures |Queue(r.asl, Dev(i))| <= -r.devSems[i]
    {
      assert |Queue(s.asl, Dev(i))| <= -s.devSems[i];
      WokenQueue(s, r, p, k, Dev(i));
    }
  }

  lemma WokenInv(s: State, r: State, p: Id, k: Sem)
    requires Inv(s) && Woken(s, r, p, k)
    ensures Inv(r)
  {
    WokenPlacement(s, r, p, k);
    SameTree(s, r);
    WokenCounts(s, r, p, k);
    WokenSems(s, r, p, k);
  }

  // ---------------------------------------------------------------- values without a queue

  /** Only semaphore values changed. */
  ghost predicate SameButValues(s: State, r: State) {
    SameCore(s, r.(words := s.words, devSems := s.devSems))
  }

  lemma ValuesInv(s: State, r: State)
    requires Inv(s) && SameButValues(s, r) && Sems(r)
    ensures Inv(r)
  {
    SameCoreInv(s, r.(words := s.words, devSems := s.devSems));
    assert forall p: Id :: Places(r, p) == Places(r.(words := s.words, devSems := s.devSems), p);
    SameTree(r.(words := s.words, devSems := s.devSems), r);
  }

  // ---------------------------------------------------------------- the handlers' own transitions

  /** `removeBlocked` takes the descriptor away exactly when the queue had one member. */
  lemma DropHead(asl: map<Sem, seq<Id>>, k: Sem)
    requires Queue(asl, k) != []
    ensures DropBlocked(asl, k, Queue(asl, k)[0])
         == if |asl[k]| == 1 then asl - {k} else asl[k := asl[k][1..]]
  {
  }

  lemma RoomForCurrent(s: State)
    requires Inv(s) && s.current.Some?
    ensures s.pcb[s.current.value].semAdd.None? && |s.asl| < MAXPROC
  {
    assert Places(s, s.current.value) == 1;
    DescriptorAvailable(s, s.current.value);
  }

  /** `s1` is `s` after a semaphore operation on `k` charged the caller, saved its registers and
      took one from the value; the pseudo-clock's caller has also counted itself. */
  ghost predicate AboutToBlock(s: State, s1: State, k: Sem) {
    && s.current.Some?
    && SameCore(s, s1.(words := s.words, devSems := s.devSems, softBlock := s.softBlock))
    && s1.softBlock == s.softBlock + One(k == Dev(PSEUDOCLK_SEM))
    && (match k
        case Word(a) => WordAt(s.words, a) <= 0 && s1.devSems == s.devSems
                        && s1.words == s.words[a := WordAt(s.words, a) - 1]
        case Dev(i) => 0 <= i < TOT_SEMS && s1.words == s.words
                       && s1.devSems == s.devSems[i := s.devSems[i] - 1])
  }

  lemma ParkJoins(s: State, s1: State, k: Sem, now: int)
    requires AboutToBlock(s, s1, k) && |s.asl| < MAXPROC
    ensures Parked(s, Park(s1, k, now), s.current.value, k)
  {
    var c := s.current.value;
    var r := Park(s1, k, now);
    assert [] + [c] == [c];
    assert r.asl == s.asl[k := Queue(s.asl, k) + [c]];
    assert OnlySemAdd(s.pcb, r.pcb, c, Some(k));
  }

  /** `blockCurrentProcess` never loses the caller: it ends at the tail of the queue of `k`. */
  lemma ParkInv(s: State, s1: State, k: Sem, now: int)
    requires Inv(s) && AboutToBlock(s, s1, k)
    ensures Parked(s, Park(s1, k, now), s.current.value, k)
    ensures Inv(Park(s1, k, now))
  {
    hide Inv, Park, Parked;
    RoomForCurrent(s);
    ParkJoins(s, s1, k, now);
    ParkedInv(s, Park(s1, k, now), s.current.value, k);
  }

  // ---------------------------------------------------------------- the wakers

  lemma WakeHeadReady(s: State, k: Sem, result: Option<int>, atTail: bool, x: Id)
    requires Queue(s.asl, k) != []
    ensures Count(WakeHead(s, k, result, atTail).ready, x) == Count(s.ready, x) + One(x == Queue(s.asl, k)[0])
  {
    var p := Queue(s.asl, k)[0];
    var s1 := RemoveBlocked(s, k);
    var s2 := if result.None? then s1 else SetRegs(s1, p, s1.pcb[p].regs.(a0 := result.value));
    if atTail {
      CountSplit(s2.ready, [p], x);
    } else {
      MakeReadyCount(s2, p, x);
    }
  }

  /** The fields a wake-up leaves alone, and the two it changes besides the ready queue. */
  lemma WakeHeadRest(s: State, k: Sem, result: Option<int>, atTail: bool)
    requires Queue(s.asl, k) != []
    ensures var r := WakeHead(s, k, result, atTail);
            && SameRest(s, r) && s.current == r.current && r.words == s.words && r.devSems == s.devSems
            && r.softBlock == s.softBlock
            && OnlySemAdd(s.pcb, r.pcb, Queue(s.asl, k)[0], None)
            && r.asl == if |s.asl[k]| == 1 then s.asl - {k} else s.asl[k := s.asl[k][1..]]
  {
    DropHead(s.asl, k);
    hide DropBlocked, InsertByPrio;
  }

  lemma WakeHeadWakes(s: State, s1: State, k: Sem, result: Option<int>, atTail: bool, soft: int)
    requires Queue(s.asl, k) != []
    requires SameCore(s, s1.(words := s.words, devSems := s.devSems))
    requires soft == s.softBlock - One(k.Dev?)
    requires match k
             case Word(a) => s1.devSems == s.devSems && s1.words == s.words[a := WordAt(s.words, a) + 1]
             case Dev(i) => 0 <= i < TOT_SEMS && s1.words == s.words
                            && (s1.devSems == s.devSems || s1.devSems == s.devSems[i := s.devSems[i] + 1])
    ensures Woken(s, WakeHead(s1, k, result, atTail).(softBlock := soft), Queue(s.asl, k)[0], k)
  {
    hide WakeHead;
    var p := Queue(s.asl, k)[0];
    var r := WakeHead(s1, k, result, atTail);
    WakeHeadRest(s1, k, result, atTail);
    assert OnlySemAdd(s.pcb, r.pcb, p, None);
    forall x: Id
      ensures Count(r.ready, x) == Count(s.ready, x) + One(x == p)
    {
      WakeHeadReady(s1, k, result, atTail, x);
    }
  }

  lemma DeliverInv(s: State, i: nat, status: int, atTail: bool)
    requires Inv(s) && i < TOT_SEMS
    ensures Inv(Deliver(s, i, status, atTail))
    ensures SameRest(s, Deliver(s, i, status, atTail)) && Deliver(s, i, status, atTail).current == s.current
  {
    if s.devSems[i] < 0 {
      var s1 := s.(devSems := s.devSems[i := s.devSems[i] + 1]);
      if Queue(s.asl, Dev(i)) == [] {
        ValuesInv(s, s1);
      } else {
        hide Inv, WakeHead;
        WakeHeadWakes(s, s1, Dev(i), Some(status), atTail, s.softBlock - 1);
        WokenInv(s, Deliver(s, i, status, atTail), Queue(s.asl, Dev(i))[0], Dev(i));
      }
    }
  }

  lemma WakeSleeperInv(s: State)
    requires Inv(s) && Queue(s.asl, Dev(PSEUDOCLK_SEM)) != []
    ensures Inv(WakeSleeper(s))
    ensures SameRest(s, WakeSleeper(s)) && WakeSleeper(s).current == s.current
  {
    hide Inv, WakeHead;
    var k := Dev(PSEUDOCLK_SEM);
    WakeHeadWakes(s, s, k, Some(0), false, s.softBlock - 1);
    WokenInv(s, WakeSleeper(s), Queue(s.asl, k)[0], k);
  }

  /** The clock tick: the loop empties the queue and the reset matches it. */
  lemma {:induction false} WakeSleepersInv(s: State)
    requires Inv(s)
    ensures Inv(WakeSleepers(s))
    ensures Queue(WakeSleepers(s).asl, Dev(PSEUDOCLK_SEM)) == []
    ensures SameRest(s, WakeSleepers(s)) && WakeSleepers(s).current == s.current
    decreases |Queue(s.asl, Dev(PSEUDOCLK_SEM))|
  {
    hide Inv;
    if Queue(s.asl, Dev(PSEUDOCLK_SEM)) != [] {
      WakeSleeperInv(s);
      WakeSleepersInv(WakeSleeper(s));
    }
  }

  lemma ResetClockInv(s: State)
    requires Inv(s) && Queue(s.asl, Dev(PSEUDOCLK_SEM)) == []
    ensures Inv(s.(devSems := s.devSems[PSEUDOCLK_SEM := 0]))
  {
    var r := s.(devSems := s.devSems[PSEUDOCLK_SEM := 0]);
    assert Sems(r);
    hide Inv, Sems;
    ValuesInv(s, r);
  }

  lemma ClockTickInv(s: State)
    requires Inv(s)
    ensures Inv(WakeSleepers(s).(devSems := WakeSleepers(s).devSems[PSEUDOCLK_SEM := 0]))
  {
    hide WakeSleepers, Inv;
    WakeSleepersInv(s);
    ResetClockInv(WakeSleepers(s));
  }

  lemma DeviceInterruptInv(s: State, line: int, e: Event)
    requires Inv(s) && 3 <= line <= 7
    ensures Inv(DeviceInterrupt(s, line, e)) && DeviceInterrupt(s, line, e).current == s.current
    ensures DeviceInterrupt(s, line, e).yielded == s.yielded
  {
    hide Inv, Deliver;
    match LowestDevice(e.pending, 0)
    case None =>
    case Some(dev) =>
      if line == 7 {
        var s1 := if e.txStatus % 256 == OKCHARTRANS then Deliver(s, 32 + dev, e.txStatus, true) else s;
        DeliverInv(s, 32 + dev, e.txStatus, true);
        DeliverInv(s1, 40 + dev, e.status, false);
      } else {
        DeliverInv(s, DevSem(line, dev), e.status, false);
      }
  }

  /** V: a value that stays at or below zero was owed to a waiting process. */
  lemma VerhogenInv(s: State, e: Event, saved: Regs)
    requires Inv(s) && s.current.Some?
    ensures Inv(Verhogen(s, e, saved)) && Verhogen(s, e, saved).yielded == s.yielded
  {
    hide Placement, Tree, Counts, WakeHead;
    var s1 := SetRegs(ChargeTime(s, e.clk.t1), s.current.value, saved);
    var k := Word(saved.a1);
    var s2 := s1.(words := s1.words[saved.a1 := WordAt(s1.words, saved.a1) + 1]);
    assert SameButValues(s, s2);
    assert s2.words == s.words[saved.a1 := WordAt(s.words, saved.a1) + 1];
    assert |Queue(s.asl, k)| == Debt(WordAt(s.words, saved.a1));
    if Queue(s.asl, k) == [] {
      assert Sems(s2);
      hide Inv;
      ValuesInv(s, s2);
      SameCoreInv(s2, Verhogen(s, e, saved));
    } else {
      hide Inv, WakeHead;
      WakeHeadWakes(s, s2, k, None, false, s.softBlock);
      var r1 := WakeHead(s2, k, None, false).(softBlock := s.softBlock);
      WokenInv(s, r1, Queue(s.asl, k)[0], k);
      assert WakeHead(s2, k, None, false).softBlock == s.softBlock by { WakeHeadRest(s2, k, None, false); }
      SameCoreInv(r1, Verhogen(s, e, saved));
    }
  }
}
