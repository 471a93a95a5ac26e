/** Creation and the termination of a process whose children are gone keep the invariant. */
module Lifecycle {
  import opened Queues
  import opened Nucleus
  import opened NucleusInvariant
  import opened BlockAndWake

  // ---------------------------------------------------------------- the active table

  lemma SlotUpdate(t: ActiveTable, i: nat, o: Option<Id>, x: Option<Id>)
    requires i < MAXPROC
    ensures Slots(t[i := o], x) == Slots(t, x) - One(t[i] == x) + One(o == x)
  {
    assert t == t[..i] + [t[i]] + t[i + 1..];
    assert t[i := o] == t[..i] + [o] + t[i + 1..];
  }

  lemma SlotIn(t: ActiveTable, o: Option<Id>)
    ensures Slots(t, o) > 0 <==> o in t
  {
  }

  /** `activeProcs_add` finds a slot whenever `allocPcb` found a PCB. */
  lemma SlotAvailable(s: State)
    requires Counts(s) && s.free != []
    ensures FreeSlot(s.active) < MAXPROC
  {
    SlotIn(s.active, None);
    var i :| 0 <= i < MAXPROC && s.active[i] == None;
    assert !(i < FreeSlot(s.active));
  }

  // ---------------------------------------------------------------- creation

  /** From `s` to `r` the current process `c` created `p`; both are ready. */
  ghost predicate Created(s: State, r: State, c: Id, p: Id) {
    && s.current == Some(c) && r.current.None? && s.yielded == r.yielded
    && s.free != [] && p == s.free[0] && r.free == s.free[1..] && p != c
    && r.nextPid == s.nextPid + 1 && r.processCount == s.processCount + 1
    && s.asl == r.asl && s.softBlock == r.softBlock && s.devSems == r.devSems && s.words == r.words
    && (forall x: Id :: r.pcb[x].pid == if x == p then s.nextPid else s.pcb[x].pid)
    && (forall x: Id :: r.pcb[x].parent == if x == p then Some(c) else s.pcb[x].parent)
    && (forall x: Id ::
          r.pcb[x].children == if x == p then [] else if x == c then s.pcb[x].children + [p] else s.pcb[x].children)
    && (forall x: Id :: r.pcb[x].semAdd == if x == p then None else s.pcb[x].semAdd)
    && (forall x: Id :: Count(r.ready, x) == Count(s.ready, x) + One(x == c) + One(x == p))
    && FreeSlot(s.active) < MAXPROC && r.active == s.active[FreeSlot(s.active) := Some(p)]
  }

  lemma CreatedPlacement(s: State, r: State, c: Id, p: Id)
    requires Placement(s) && Created(s, r, c, p)
    ensures Placement(r)
  {
    CountHead(s.free, p);
    assert Places(s, p) == 1;
    forall x: Id
      ensures Places(r, x) == 1
    {
      assert Places(s, x) == 1;
      CountHead(s.free, x);
    }
  }

  lemma CreatedLive(s: State, r: State, c: Id, p: Id, x: Id)
    requires Placement(s) && Created(s, r, c, p)
    ensures Live(r, x) <==> Live(s, x) || x == p
    ensures Live(s, c) && !Live(s, p)
  {
    assert Places(s, x) == 1;
    assert Places(s, c) == 1;
    assert Places(s, p) == 1;
    hide Count;
    CountHead(s.free, x);
    CountHead(s.free, p);
  }

  lemma CreatedChildren(s: State, r: State, c: Id, p: Id, q: Id, x: Id)
    requires Tree(s) && !Live(s, p) && Created(s, r, c, p)
    ensures Count(r.pcb[q].children, x) == One(r.pcb[x].parent == Some(q))
  {
    assert Count(s.pcb[q].children, x) == One(s.pcb[x].parent == Some(q));
    assert s.pcb[q].parent != Some(p) && s.pcb[x].parent != Some(p);
    assert Count(s.pcb[p].children, x) == One(s.pcb[x].parent == Some(p));
    CountSplit(s.pcb[c].children, [p], x);
    DeadHasNoParent(s, p);
    hide Tree;
    assert Count([p], x) == One(x == p);
    assert Count([], x) == 0;
    hide Count, Live;
  }

  lemma DeadHasNoParent(s: State, p: Id)
    requires Tree(s) && !Live(s, p)
    ensures s.pcb[p].parent.None?
  {
    assert s.pcb[p].pid < 1;
    var q := if s.pcb[p].parent.Some? then s.pcb[p].parent.value else p;
    assert s.pcb[q].pid < s.nextPid;
  }

  lemma CreatedPids(s: State, r: State, c: Id, p: Id)
    requires Placement(s) && Pids(s) && Created(s, r, c, p)
    ensures Pids(r)
  {
    forall x: Id
      ensures Live(r, x) <==> Live(s, x) || x == p
    {
      CreatedLive(s, r, c, p, x);
    }
    CreatedLive(s, r, c, p, p);
    hide Count, Live, Placement, FreeSlot;
  }

  lemma CreatedFacts(s: State, r: State, c: Id, p: Id)
    requires Placement(s) && Tree(s) && Created(s, r, c, p)
    ensures !Live(s, p) && s.pcb[p].parent.None? && 1 <= s.pcb[c].pid < s.nextPid
    ensures forall x: Id :: s.pcb[x].parent != Some(p) && s.pcb[x].pid < s.nextPid
  {
    CreatedLive(s, r, c, p, p);
    DeadHasNoParent(s, p);
    assert s.pcb[p].pid < 1;
  }

  lemma CreatedLinks(s: State, r: State, c: Id, p: Id)
    requires Placement(s) && Tree(s) && Created(s, r, c, p)
    ensures Links(r)
  {
    hide Count, Live, Placement, FreeSlot, Pids;
    CreatedFacts(s, r, c, p);
    forall q: Id, x: Id
      ensures Count(r.pcb[q].children, x) == One(r.pcb[x].parent == Some(q))
    {
      CreatedChildren(s, r, c, p, q, x);
    }
  }

  lemma CreatedCounts(s: State, r: State, c: Id, p: Id)
    requires Placement(s) && Counts(s) && Created(s, r, c, p)
    ensures Counts(r)
  {
    var i := FreeSlot(s.active);
    SlotUpdate(s.active, i, Some(p), None);
    forall x: Id
      ensures Slots(r.active, Some(x)) == One(Live(r, x))
    {
      assert Places(s, x) == 1;
      CountHead(s.free, x);
      assert Slots(s.active, Some(x)) == One(Live(s, x));
      SlotUpdate(s.active, i, Some(p), Some(x));
    }
  }

  lemma CreatedInv(s: State, r: State, c: Id, p: Id)
    requires Inv(s) && Created(s, r, c, p)
    ensures Inv(r)
  {
    CreatedPlacement(s, r, c, p);
    CreatedPids(s, r, c, p);
    CreatedLinks(s, r, c, p);
    CreatedCounts(s, r, c, p);
    hide Placement, Pids, Links, Counts;
    assert Sems(r);
  }

  // ---------------------------------------------------------------- termination of a leaf

  lemma FreeBound(s: State, p: Id)
    requires Placement(s) && Live(s, p)
    ensures |s.free| < MAXPROC
  {
    assert forall x: Id :: Places(s, x) == 1;
    var all := s.free + [p];
    forall x: Id
      ensures Count(all, x) <= 1
    {
      CountSplit(s.free, [p], x);
      assert Places(s, x) == 1;
    }
    DistinctLength(all, MAXPROC);
  }

  /** From `s` to `r` the childless live process `p` was terminated. */
  ghost predicate Killed(s: State, r: State, p: Id) {
    && s.yielded.None? && r.yielded.None? && s.nextPid == r.nextPid
    && Live(s, p) && s.pcb[p].children == []
    && r.free == s.free + [p] && r.processCount == s.processCount - 1
    && r.current == (if s.current == Some(p) then None else s.current)
    && r.ready == RemoveFirst(s.ready, p)
    && r.active == ActiveRemove(s.active, p)
    && r.devSems == s.devSems
    && KilledTables(s, r, p)
    && KilledQueues(s, r, p)
  }

  ghost predicate KilledTables(s: State, r: State, p: Id) {
    && (forall x: Id :: r.pcb[x].pid == if x == p then -1 else s.pcb[x].pid)
    && (forall x: Id :: r.pcb[x].parent == if x == p then None else s.pcb[x].parent)
    && (forall x: Id :: r.pcb[x].semAdd == if x == p then None else s.pcb[x].semAdd)
    && (forall x: Id :: r.pcb[x].children == if s.pcb[p].parent == Some(x) then RemoveFirst(s.pcb[x].children, p)
                                             else s.pcb[x].children)
  }

  ghost predicate KilledQueues(s: State, r: State, p: Id) {
    match s.pcb[p].semAdd
    case None => r.asl == s.asl && r.softBlock == s.softBlock && r.words == s.words
    case Some(k) =>
      && r.asl == DropBlocked(s.asl, k, p)
      && r.softBlock == s.softBlock - One(k.Dev?)
      && (k.Dev? ==> r.words == s.words)
      && (k.Word? ==> r.words == s.words[k.addr := WordAt(s.words, k.addr) + 1])
  }

  lemma BlockedIn(s: State, p: Id, k: Sem)
    requires Placement(s) && s.pcb[p].semAdd == Some(k)
    ensures p in Queue(s.asl, k)
  {
    CountIn(Queue(s.asl, k), p);
    assert Count(Queue(s.asl, k), p) == One(s.pcb[p].semAdd == Some(k));
  }

  lemma KillLeafTables(s: State, p: Id)
    requires s.pcb[p].parent != Some(p)
    requires s.pcb[p].semAdd.Some? ==> p in Queue(s.asl, s.pcb[p].semAdd.value)
    ensures KilledTables(s, KillLeaf(s, p), p)
  {
    hide RemoveFirst, DropBlocked, ActiveRemove;
  }

  lemma KillLeafQueues(s: State, p: Id)
    requires s.pcb[p].semAdd.Some? ==> p in Queue(s.asl, s.pcb[p].semAdd.value)
    ensures KilledQueues(s, KillLeaf(s, p), p)
    ensures KillLeaf(s, p).devSems == s.devSems
  {
    hide RemoveFirst, DropBlocked, ActiveRemove;
  }

  lemma KillLeafRest(s: State, p: Id)
    ensures var r := KillLeaf(s, p);
            && s.yielded == r.yielded && s.nextPid == r.nextPid
            && r.free == s.free + [p] && r.processCount == s.processCount - 1
            && r.current == (if s.current == Some(p) then None else s.current)
            && r.ready == RemoveFirst(s.ready, p)
            && r.active == ActiveRemove(s.active, p)
  {
    hide RemoveFirst, DropBlocked, ActiveRemove;
  }

  lemma KillLeafKills(s: State, p: Id)
    requires Placement(s) && Tree(s) && Live(s, p) && s.pcb[p].children == [] && s.yielded.None?
    ensures Killed(s, KillLeaf(s, p), p)
  {
    if s.pcb[p].semAdd.Some? {
      BlockedIn(s, p, s.pcb[p].semAdd.value);
    }
    assert s.pcb[p].parent != Some(p);
    hide Placement, Tree, RemoveFirst, DropBlocked, ActiveRemove, Count;
    KillLeafTables(s, p);
    KillLeafQueues(s, p);
    KillLeafRest(s, p);
    hide KillLeaf, KilledTables, KilledQueues;
  }

  lemma DropQueue(asl: map<Sem, seq<Id>>, k: Sem, p: Id, j: Sem)
    ensures Queue(DropBlocked(asl, k, p), j) == if j == k then RemoveFirst(Queue(asl, k), p) else Queue(asl, j)
  {
  }

  lemma KilledQueue(s: State, r: State, p: Id, j: Sem)
    requires Placement(s) && Killed(s, r, p)
    ensures Queue(r.asl, j) == if s.pcb[p].semAdd == Some(j) then RemoveFirst(Queue(s.asl, j), p) else Queue(s.asl, j)
    ensures s.pcb[p].semAdd == Some(j) ==> |Queue(r.asl, j)| == |Queue(s.asl, j)| - 1
  {
    hide RemoveFirst;
    if s.pcb[p].semAdd.Some? {
      DropQueue(s.asl, s.pcb[p].semAdd.value, p, j);
      BlockedIn(s, p, s.pcb[p].semAdd.value);
    }
  }

  lemma KilledPlace(s: State, r: State, p: Id, x: Id)
    requires Places(s, x) == 1 && Places(s, p) == 1 && Killed(s, r, p)
    ensures Places(r, x) == 1
  {
    hide RemoveFirst, Count;
    RemoveFirstCount(s.ready, p, x);
    CountIn(s.ready, p);
    CountSplit(s.free, [p], x);
    CountOne(p, x);
  }

  lemma KilledQueueCount(s: State, r: State, p: Id, j: Sem, x: Id)
    requires Placement(s) && Killed(s, r, p)
    ensures Count(Queue(r.asl, j), x) == One(r.pcb[x].semAdd == Some(j))
  {
    assert Count(Queue(s.asl, j), x) == One(s.pcb[x].semAdd == Some(j));
    assert Count(Queue(s.asl, j), p) == One(s.pcb[p].semAdd == Some(j));
    KilledQueue(s, r, p, j);
    hide RemoveFirst, Count, Placement;
    RemoveFirstCount(Queue(s.asl, j), p, x);
    CountIn(Queue(s.asl, j), p);
  }

  lemma KilledPlacement(s: State, r: State, p: Id)
    requires Placement(s) && Killed(s, r, p)
    ensures Placement(r)
  {
    hide Count, Places;
    forall x: Id
      ensures Places(r, x) == 1
    {
      assert Places(s, x) == 1;
      assert Places(s, p) == 1;
      KilledPlace(s, r, p, x);
    }
    forall j: Sem, x: Id
      ensures Count(Queue(r.asl, j), x) == One(r.pcb[x].semAdd == Some(j))
    {
      KilledQueueCount(s, r, p, j, x);
    }
    hide RemoveFirst;
  }

  lemma KilledChildren(s: State, r: State, p: Id, q: Id, x: Id)
    requires Tree(s) && Killed(s, r, p)
    ensures Count(r.pcb[q].children, x) == One(r.pcb[x].parent == Some(q))
  {
    assert Count(s.pcb[q].children, x) == One(s.pcb[x].parent == Some(q));
    assert Count(s.pcb[q].children, p) == One(s.pcb[p].parent == Some(q));
    hide RemoveFirst, Count, Tree;
    RemoveFirstCount(s.pcb[q].children, p, x);
    CountIn(s.pcb[q].children, p);
  }

  lemma NoChild(s: State, p: Id, x: Id)
    requires Tree(s) && s.pcb[p].children == []
    ensures s.pcb[x].parent != Some(p)
  {
    assert Count(s.pcb[p].children, x) == One(s.pcb[x].parent == Some(p));
  }

  lemma KilledLive(s: State, r: State, p: Id, x: Id)
    requires Killed(s, r, p)
    ensures Live(r, x) <==> Live(s, x) && x != p
  {
    hide Count, RemoveFirst, KilledTables;
    CountSplit(s.free, [p], x);
    CountOne(p, x);
  }

  lemma KilledPids(s: State, r: State, p: Id)
    requires Pids(s) && Killed(s, r, p)
    ensures Pids(r)
  {
    forall x: Id
      ensures Live(r, x) <==> Live(s, x) && x != p
    {
      KilledLive(s, r, p, x);
    }
    hide Count, Live, RemoveFirst, KilledQueues;
  }

  lemma KilledLinks(s: State, r: State, p: Id)
    requires Tree(s) && Killed(s, r, p)
    ensures Links(r)
  {
    forall x: Id
      ensures s.pcb[x].parent != Some(p)
    {
      NoChild(s, p, x);
    }
    forall q: Id, x: Id
      ensures Count(r.pcb[q].children, x) == One(r.pcb[x].parent == Some(q))
    {
      KilledChildren(s, r, p, q, x);
    }
    hide Count, Live, RemoveFirst, KilledQueues;
  }

  lemma KilledActive(s: State, r: State, p: Id)
    requires Counts(s) && Killed(s, r, p)
    ensures forall x: Id :: Slots(r.active, Some(x)) == One(Live(r, x))
    ensures Slots(r.active, None) == |r.free|
  {
    hide RemoveFirst, SumDev;
    assert Slots(s.active, Some(p)) == 1;
    SlotIn(s.active, Some(p));
    var i := SlotOf(s.active, p);
    assert i < MAXPROC;
    SlotUpdate(s.active, i, None, None);
    forall x: Id
      ensures Slots(r.active, Some(x)) == One(Live(r, x))
    {
      assert Slots(s.active, Some(x)) == One(Live(s, x));
      SlotUpdate(s.active, i, None, Some(x));
      CountSplit(s.free, [p], x);
    }
  }

  lemma KilledCounts(s: State, r: State, p: Id)
    requires Placement(s) && Counts(s) && Sems(s) && Killed(s, r, p)
    ensures Counts(r)
  {
    KilledActive(s, r, p);
    KilledSum(s, r, p);
    hide RemoveFirst, SumDev, Count, Slots, Live, Placement, Sems;
  }

  lemma KilledSum(s: State, r: State, p: Id)
    requires Placement(s) && Sems(s) && Killed(s, r, p)
    ensures SumDev(r.asl, TOT_SEMS) - SumDev(s.asl, TOT_SEMS) == r.softBlock - s.softBlock
  {
    forall j: Sem
      ensures |Queue(r.asl, j)| == |Queue(s.asl, j)| - One(s.pcb[p].semAdd == Some(j))
    {
      KilledQueue(s, r, p, j);
    }
    if s.pcb[p].semAdd.Some? {
      BlockedIn(s, p, s.pcb[p].semAdd.value);
    }
    hide RemoveFirst, SumDev, Count, Placement, KilledTables;
    if s.pcb[p].semAdd.Some? && s.pcb[p].semAdd.value.Dev? {
      SumChange(s.asl, r.asl, TOT_SEMS, s.pcb[p].semAdd.value.index);
    } else {
      SumSame(s.asl, r.asl, TOT_SEMS);
    }
  }

  lemma KilledSems(s: State, r: State, p: Id)
    requires Placement(s) && Sems(s) && Killed(s, r, p)
    ensures Sems(r)
  {
    forall j: Sem
      ensures |Queue(r.asl, j)| == |Queue(s.asl, j)| - One(s.pcb[p].semAdd == Some(j))
    {
      KilledQueue(s, r, p, j);
    }
    if s.pcb[p].semAdd.Some? {
      BlockedIn(s, p, s.pcb[p].semAdd.value);
    }
    hide RemoveFirst, Count, Placement, KilledTables;
    forall a: int
      ensures |Queue(r.asl, Word(a))| == Debt(WordAt(r.words, a))
    {
      assert |Queue(s.asl, Word(a))| == Debt(WordAt(s.words, a));
    }
    forall i | 0 <= i < TOT_SEMS
      ensures |Queue(r.asl, Dev(i))| <= -r.devSems[i]
    {
      assert |Queue(s.asl, Dev(i))| <= -s.devSems[i];
    }
  }

  lemma KillLeafInv(s: State, p: Id)
    requires Inv(s) && Live(s, p) && s.pcb[p].children == [] && s.yielded.None?
    ensures Inv(KillLeaf(s, p)) && Killed(s, KillLeaf(s, p), p)
  {
    var r := KillLeaf(s, p);
    KillLeafKills(s, p);
    hide Placement, Pids, Links, Counts, Sems, KillLeaf, Killed;
    KilledPlacement(s, r, p);
    KilledPids(s, r, p);
    KilledLinks(s, r, p);
    KilledCounts(s, r, p);
    KilledSems(s, r, p);
  }
}
