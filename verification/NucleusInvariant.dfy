/** What every step of the Nucleus keeps: one place per PCB, one process tree, counters and
    tables that agree with the queues, and semaphore values that agree with queue lengths. */
module NucleusInvariant {
  import opened Queues
  import opened Nucleus

  // ---------------------------------------------------------------- the invariant

  function One(b: bool): (n: nat) {
    if b then 1 else 0
  }

  /** In how many of free list, ready queue, semaphore queue, `currentProcess` and
      `yieldedProcess` the PCB is. */
  ghost function Places(s: State, p: Id): nat {
    Count(s.free, p) + Count(s.ready, p) + One(s.pcb[p].semAdd.Some?)
    + One(s.current == Some(p)) + One(s.yielded == Some(p))
  }

  ghost predicate Placement(s: State) {
    && (forall p: Id :: Places(s, p) == 1)
    && (forall k: Sem, p: Id :: Count(Queue(s.asl, k), p) == One(s.pcb[p].semAdd == Some(k)))
    && (forall k :: k in s.asl ==> s.asl[k] != [])
  }

  ghost predicate Live(s: State, p: Id) {
    Count(s.free, p) == 0
  }

  /** A PCB is allocated iff its pid is positive, and pids are unique. */
  ghost predicate Pids(s: State) {
    && s.nextPid >= 1
    && (forall p: Id :: s.pcb[p].pid >= 1 <==> Live(s, p))
    && (forall p: Id :: s.pcb[p].pid < s.nextPid)
    && (forall p: Id, q: Id :: s.pcb[p].pid == s.pcb[q].pid >= 1 ==> p == q)
  }

  /** Parents are allocated and older than their children, children lists and parent pointers
      agree, and only the boot process, pid 1, has no parent. */
  ghost predicate Links(s: State) {
    && (forall p: Id, q: Id {:trigger s.pcb[p].parent, s.pcb[q].pid} ::
          s.pcb[p].parent == Some(q) ==> 1 <= s.pcb[q].pid < s.pcb[p].pid)
    && (forall q: Id, p: Id {:trigger Count(s.pcb[q].children, p)} ::
          Count(s.pcb[q].children, p) == One(s.pcb[p].parent == Some(q)))
    && (forall p: Id :: s.pcb[p].pid >= 1 && s.pcb[p].parent.None? ==> s.pcb[p].pid == 1)
  }

  ghost predicate Tree(s: State) {
    Pids(s) && Links(s)
  }

  ghost function Slots(t: seq<Option<Id>>, o: Option<Id>): nat {
    multiset(t)[o]
  }

  /** Total length of the first `n` queues of `devSems`. */
  function SumDev(asl: map<Sem, seq<Id>>, n: nat): nat {
    if n == 0 then 0 else SumDev(asl, n - 1) + |Queue(asl, Dev(n - 1))|
  }

  ghost predicate Counts(s: State) {
    && s.processCount == MAXPROC - |s.free|
    && s.softBlock == SumDev(s.asl, TOT_SEMS)
    && (forall p: Id :: Slots(s.active, Some(p)) == One(Live(s, p)))
    && Slots(s.active, None) == |s.free|
  }

  function Debt(v: int): nat {
    if v < 0 then -v else 0
  }

  ghost predicate Sems(s: State) {
    && (forall a: int :: |Queue(s.asl, Word(a))| == Debt(WordAt(s.words, a)))
    && (forall i :: 0 <= i < TOT_SEMS ==> |Queue(s.asl, Dev(i))| <= -s.devSems[i])
    && (forall k :: k in s.asl && k.Dev? ==> 0 <= k.index < TOT_SEMS)
  }

  ghost predicate Inv(s: State) {
    Placement(s) && Tree(s) && Counts(s) && Sems(s)
  }

  // ---------------------------------------------------------------- frames

  /** Same process tree and same blocking; times, priorities and registers are free. */
  ghost predicate SameShape(t: PcbTable, u: PcbTable) {
    forall p: Id :: t[p].pid == u[p].pid && t[p].parent == u[p].parent
                 && t[p].children == u[p].children && t[p].semAdd == u[p].semAdd
  }

  /** Equal up to what the invariant does not read. */
  ghost predicate SameCore(s: State, r: State) {
    && SameShape(s.pcb, r.pcb) && s.free == r.free && s.nextPid == r.nextPid
    && s.asl == r.asl && s.ready == r.ready && s.current == r.current && s.yielded == r.yielded
    && s.processCount == r.processCount && s.softBlock == r.softBlock && s.devSems == r.devSems
    && s.words == r.words && s.active == r.active
  }

  lemma SameCoreInv(s: State, r: State)
    requires Inv(s) && SameCore(s, r)
    ensures Inv(r)
  {
    assert forall p: Id :: Places(r, p) == Places(s, p);
    assert forall p: Id :: Live(r, p) == Live(s, p);
  }

  /** The non-queue places and the ready queue may be rearranged. */
  lemma MoveInv(s: State, r: State)
    requires Inv(s)
    requires SameCore(s, r.(ready := s.ready, current := s.current, yielded := s.yielded))
    requires forall p: Id :: Count(r.ready, p) + One(r.current == Some(p)) + One(r.yielded == Some(p))
                          == Count(s.ready, p) + One(s.current == Some(p)) + One(s.yielded == Some(p))
    ensures Inv(r)
  {
    forall p: Id
      ensures Places(r, p) == 1
    {
      assert Places(s, p) == 1;
    }
    assert forall p: Id :: Live(r, p) == Live(s, p);
  }

  // ---------------------------------------------------------------- scheduler

  lemma PickInv(s: State, now: int)
    requires Inv(s) && s.current.None?
    ensures Inv(Pick(s, now))
  {
    hide Inv;
    var r := Pick(s, now);
    if s.ready != [] {
      forall p: Id
        ensures Count(r.ready, p) + One(r.current == Some(p)) == Count(s.ready, p)
      {
        CountHead(s.ready, p);
      }
      MoveInv(s, r);
    } else {
      SameCoreInv(s, r);
    }
  }

  lemma MakeReadyCount(s: State, p: Id, x: Id)
    ensures Count(MakeReady(s, p).ready, x) == Count(s.ready, x) + One(x == p)
  {
    InsertCount(s.ready, p, Prios(s.pcb), x);
  }

  lemma SchedulerInv(s: State, now: int)
    requires Inv(s) && s.current.None?
    ensures Inv(Scheduler(s, now)) && Scheduler(s, now).yielded.None?
  {
    hide Inv;
    if s.yielded.None? {
      PickInv(s, now);
    } else {
      var y := s.yielded.value;
      var s1 := s.(yielded := None);
      if s.ready != [] && s.pcb[s.ready[0]].prio >= s.pcb[y].prio {
        var s2 := MakeReady(s1, y);
        forall p: Id { MakeReadyCount(s1, y, p); }
        MoveInv(s, s2);
        PickInv(s2, now);
      } else {
        MoveInv(s, Dispatch(s1, y, now));
      }
    }
  }

  /** The current process steps back: into the ready queue, or aside as the yielder. */
  lemma StepBackInv(s: State, now: int)
    requires Inv(s) && s.current.Some?
    ensures Inv(MakeReady(s, s.current.value).(current := None))
    ensures s.yielded.None? ==> Inv(s.(yielded := s.current, current := None))
  {
    var c := s.current.value;
    forall p: Id { MakeReadyCount(s, c, p); }
    MoveInv(s, MakeReady(s, c).(current := None));
    if s.yielded.None? {
      MoveInv(s, s.(yielded := s.current, current := None));
    }
  }

  // ---------------------------------------------------------------- sums over the device queues

  lemma {:induction false} SumSame(a: map<Sem, seq<Id>>, b: map<Sem, seq<Id>>, n: nat)
    requires forall i :: 0 <= i < n ==> |Queue(a, Dev(i))| == |Queue(b, Dev(i))|
    ensures SumDev(a, n) == SumDev(b, n)
  {
    if n > 0 { SumSame(a, b, n - 1); }
  }

  lemma {:induction false} SumChange(a: map<Sem, seq<Id>>, b: map<Sem, seq<Id>>, n: nat, i: nat)
    requires i < n
    requires forall j :: 0 <= j < n && j != i ==> |Queue(a, Dev(j))| == |Queue(b, Dev(j))|
    ensures SumDev(b, n) == SumDev(a, n) + |Queue(b, Dev(i))| - |Queue(a, Dev(i))|
  {
    if i == n - 1 {
      SumSame(a, b, n - 1);
    } else {
      SumChange(a, b, n - 1, i);
    }
  }

  // ---------------------------------------------------------------- pigeonhole on the descriptors

  lemma {:induction false} HeadsDistinct(keys: set<Sem>, s: State, left: seq<Id>)
    requires Placement(s)
    requires forall p: Id :: Count(left, p) <= 1
    requires forall k :: k in keys ==> k in s.asl && s.asl[k] != [] && s.asl[k][0] in left
    ensures |keys| <= |left|
    decreases keys
  {
    if keys != {} {
      var k :| k in keys;
      var h := s.asl[k][0];
      HeadBlocked(s, k);
      var rest := RemoveFirst(left, h);
      forall p: Id
        ensures Count(rest, p) <= 1
      {
        RemoveFirstCount(left, h, p);
        assert Count(left, p) <= 1;
      }
      forall j | j in keys - {k}
        ensures s.asl[j][0] in rest
      {
        var g := s.asl[j][0];
        HeadBlocked(s, j);
        RemoveFirstCount(left, h, g);
        CountIn(left, g);
        CountIn(rest, g);
      }
      HeadsDistinct(keys - {k}, s, rest);
    }
  }

  function Ids(n: nat): (q: seq<Id>)
    requires n <= MAXPROC
    ensures |q| == n && forall i :: 0 <= i < n ==> q[i] == i
  {
    if n == 0 then [] else Ids(n - 1) + [n - 1]
  }

  lemma {:induction false} IdsCount(n: nat, p: Id)
    requires n <= MAXPROC
    ensures Count(Ids(n), p) == One(p < n)
  {
    hide Count;
    if n > 0 {
      IdsCount(n - 1, p);
      CountSplit(Ids(n - 1), [n - 1], p);
      CountOne(n - 1, p);
    } else {
      CountIn(Ids(n), p);
    }
  }

  lemma AllBut(c: Id) returns (left: seq<Id>)
    ensures |left| == MAXPROC - 1
    ensures forall p: Id :: Count(left, p) == One(p != c)
  {
    var all := Ids(MAXPROC);
    hide Ids;
    left := RemoveFirst(all, c);
    hide RemoveFirst;
    IdsCount(MAXPROC, c);
    CountIn(all, c);
    forall p: Id
      ensures Count(left, p) == One(p != c)
    {
      IdsCount(MAXPROC, p);
      RemoveFirstCount(all, c, p);
    }
  }

  lemma HeadBlocked(s: State, k: Sem)
    requires Placement(s) && k in s.asl
    ensures s.asl[k] != [] && s.pcb[s.asl[k][0]].semAdd == Some(k)
  {
    var h := s.asl[k][0];
    CountIn(s.asl[k], h);
    assert Count(Queue(s.asl, k), h) == One(s.pcb[h].semAdd == Some(k));
  }

  /** While some PCB is not blocked, at most 19 descriptors are in use, so `insertBlocked`
      always finds one. */
  lemma DescriptorAvailable(s: State, c: Id)
    requires Placement(s) && s.pcb[c].semAdd.None?
    ensures |s.asl| < MAXPROC
  {
    hide Placement;
    var left := AllBut(c);
    forall k | k in s.asl
      ensures s.asl[k] != [] && s.asl[k][0] in left
    {
      HeadBlocked(s, k);
      CountIn(left, s.asl[k][0]);
    }
    HeadsDistinct(s.asl.Keys, s, left);
  }
}
