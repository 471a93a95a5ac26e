/** `terminateProcess`: the recursion over the process tree, and exactly what it removes. */
module Termination {
  import opened Queues
  import opened Nucleus
  import opened NucleusInvariant
  import opened BlockAndWake
  import opened Lifecycle

  // ---------------------------------------------------------------- the recursion

  lemma ChildFacts(s: State, p: Id)
    requires Tree(s) && s.pcb[p].children != []
    ensures var c := s.pcb[p].children[0];
            Live(s, c) && s.pcb[c].parent == Some(p) && 1 <= s.pcb[p].pid < s.pcb[c].pid < s.nextPid
  {
    var c := s.pcb[p].children[0];
    CountIn(s.pcb[p].children, c);
    assert Count(s.pcb[p].children, c) == One(s.pcb[c].parent == Some(p));
    assert s.pcb[c].parent == Some(p) && s.pcb[p].pid >= 1;
  }

  /** What the leaf case tells the recursion. */
  ghost predicate Shrunk(s: State, r: State, p: Id) {
    && Inv(r) && r.yielded.None? && r.nextPid == s.nextPid && !Live(r, p)
    && |s.free| < |r.free| <= MAXPROC
    && (forall q: Id :: Live(s, q) && s.pcb[q].pid < s.pcb[p].pid ==> Live(r, q) && r.pcb[q].pid == s.pcb[q].pid)
  }

  lemma ShrunkChild(s: State, r: State, c: Id, p: Id)
    requires Shrunk(s, r, c) && Live(s, p) && s.pcb[p].pid < s.pcb[c].pid
    ensures Inv(r) && Live(r, p) && r.yielded.None? && r.nextPid == s.nextPid && r.pcb[p].pid == s.pcb[p].pid
    ensures |s.free| < |r.free| <= MAXPROC
  {
    hide Inv, Live;
  }

  lemma ShrunkTwice(s: State, s1: State, r: State, c: Id, p: Id)
    requires Shrunk(s, s1, c) && Shrunk(s1, r, p) && Live(s, p) && s.pcb[p].pid < s.pcb[c].pid
    ensures Shrunk(s, r, p)
  {
    hide Inv, Live;
  }

  lemma LeafShrinks(s: State, p: Id)
    requires Inv(s) && Live(s, p) && s.yielded.None? && s.pcb[p].children == []
    ensures Shrunk(s, KillLeaf(s, p), p)
  {
    var r := KillLeaf(s, p);
    KillLeafInv(s, p);
    FreeBound(s, p);
    hide Inv, KillLeaf;
    forall x: Id
      ensures Live(r, x) <==> Live(s, x) && x != p
    {
      KilledLive(s, r, p, x);
    }
  }

  /** `terminateProcess`: first child and its descendants, then the next, then the process. */
  function TerminateTree(s: State, p: Id): (r: State)
    requires Inv(s) && Live(s, p) && s.yielded.None?
    ensures Shrunk(s, r, p)
    decreases MAXPROC - |s.free|, s.nextPid - s.pcb[p].pid
  {
    hide Placement, Pids, Links, Counts, Sems, KillLeaf, Live, Shrunk;
    FreeBound(s, p);
    if s.pcb[p].children == [] then
      LeafShrinks(s, p);
      KillLeaf(s, p)
    else
      var c := s.pcb[p].children[0];
      ChildFacts(s, p);
      var s1 := TerminateTree(s, c);
      ShrunkChild(s, s1, c, p);
      var r := TerminateTree(s1, p);
      ShrunkTwice(s, s1, r, c, p);
      r
  }

  // ---------------------------------------------------------------- the subtree

  /** `q` is `p` or a descendant of `p`, by parent pointers. */
  ghost predicate Under(s: State, q: Id, p: Id)
    requires Links(s)
    decreases s.pcb[q].pid
  {
    q == p || (s.pcb[q].parent.Some?
               && (assert s.pcb[s.pcb[q].parent.value].pid < s.pcb[q].pid; Under(s, s.pcb[q].parent.value, p)))
  }

  ghost function Subtree(s: State, p: Id): set<Id>
    requires Links(s)
  {
    set q: Id | 0 <= q < MAXPROC && Live(s, q) && Under(s, q, p)
  }

  lemma {:induction false} UnderParent(s: State, q: Id, c: Id, p: Id)
    requires Links(s) && s.pcb[c].parent == Some(p) && Under(s, q, c)
    ensures Under(s, q, p)
    decreases s.pcb[q].pid
  {
    if q == c {
      assert Under(s, p, p);
    } else {
      var u := s.pcb[q].parent.value;
      assert s.pcb[u].pid < s.pcb[q].pid;
      UnderParent(s, u, c, p);
    }
  }

  lemma {:induction false} UnderLeaf(s: State, q: Id, p: Id)
    requires Tree(s) && s.pcb[p].children == [] && Under(s, q, p)
    ensures q == p
    decreases s.pcb[q].pid
  {
    if q != p {
      var u := s.pcb[q].parent.value;
      assert s.pcb[u].pid < s.pcb[q].pid;
      UnderLeaf(s, u, p);
      NoChild(s, p, q);
    }
  }

  // ---------------------------------------------------------------- what is left

  ghost predicate TablesWithout(s: State, r: State, p: Id, d: set<Id>) {
    && (forall q: Id :: Live(r, q) <==> Live(s, q) && q !in d)
    && (forall q: Id :: q !in d ==>
          r.pcb[q] == s.pcb[q].(children := if s.pcb[p].parent == Some(q) then RemoveFirst(s.pcb[q].children, p)
                                            else s.pcb[q].children))
  }

  ghost predicate QueuesWithout(s: State, r: State, d: set<Id>) {
    && r.ready == Without(s.ready, d)
    && (forall k: Sem :: Queue(r.asl, k) == Without(Queue(s.asl, k), d))
    && (forall a: int :: WordAt(r.words, a) + |Queue(r.asl, Word(a))| == WordAt(s.words, a) + |Queue(s.asl, Word(a))|)
  }

  ghost predicate ActiveWithout(t: ActiveTable, u: ActiveTable, d: set<Id>) {
    forall i :: 0 <= i < MAXPROC ==> u[i] == if t[i].Some? && t[i].value in d then None else t[i]
  }

  /** The soft-blocked processes of `d`. */
  ghost function SoftIn(s: State, d: set<Id>): set<Id> {
    set q | q in d && s.pcb[q].semAdd.Some? && s.pcb[q].semAdd.value.Dev?
  }

  ghost predicate CountsWithout(s: State, r: State, d: set<Id>) {
    r.processCount == s.processCount - |d| && r.softBlock == s.softBlock - |SoftIn(s, d)|
  }

  /** `r` is `s` with exactly the processes of `d`, the subtree of `p`, removed. */
  ghost predicate Removed(s: State, r: State, p: Id, d: set<Id>) {
    && TablesWithout(s, r, p, d)
    && QueuesWithout(s, r, d)
    && ActiveWithout(s.active, r.active, d)
    && CountsWithout(s, r, d)
    && r.current == (if s.current.Some? && s.current.value in d then None else s.current)
    && |r.free| == |s.free| + |d| && r.free[..|s.free|] == s.free
    && r.devSems == s.devSems && r.nextPid == s.nextPid && r.startTOD == s.startTOD
    && r.ledger == s.ledger && r.cpu == s.cpu
  }

  lemma LeafWords(s: State, r: State, p: Id, a: int)
    requires Placement(s) && Killed(s, r, p)
    ensures WordAt(r.words, a) + |Queue(r.asl, Word(a))| == WordAt(s.words, a) + |Queue(s.asl, Word(a))|
  {
    KilledQueue(s, r, p, Word(a));
    hide Placement, KilledTables, RemoveFirst;
  }

  lemma LeafWithout(s: State, r: State, p: Id)
    requires Placement(s) && Killed(s, r, p)
    ensures QueuesWithout(s, r, {p})
  {
    assert Places(s, p) == 1;
    forall a: int { LeafWords(s, r, p, a); }
    WithoutOne(s.ready, p);
    forall k: Sem
      ensures Queue(r.asl, k) == Without(Queue(s.asl, k), {p})
    {
      assert Count(Queue(s.asl, k), p) == One(s.pcb[p].semAdd == Some(k));
      KilledQueue(s, r, p, k);
      WithoutOne(Queue(s.asl, k), p);
      CountIn(Queue(s.asl, k), p);
    }
  }

  lemma LeafOthers(s: State, p: Id)
    requires Links(s)
    ensures var r := KillLeaf(s, p);
            && (forall q: Id :: q != p ==>
                  r.pcb[q] == s.pcb[q].(children := if s.pcb[p].parent == Some(q) then RemoveFirst(s.pcb[q].children, p)
                                                    else s.pcb[q].children))
            && r.startTOD == s.startTOD && r.ledger == s.ledger && r.cpu == s.cpu
  {
    hide RemoveFirst, DropBlocked, ActiveRemove, Links;
  }

  lemma LeafSubtree(s: State, p: Id)
    requires Tree(s) && Live(s, p) && s.pcb[p].children == []
    ensures Subtree(s, p) == {p}
  {
    forall q: Id | Under(s, q, p)
      ensures q == p
    {
      UnderLeaf(s, q, p);
    }
  }

  lemma LeafTables(s: State, p: Id)
    requires Links(s) && Killed(s, KillLeaf(s, p), p)
    ensures TablesWithout(s, KillLeaf(s, p), p, {p})
  {
    var r := KillLeaf(s, p);
    LeafOthers(s, p);
    hide KillLeaf, Links, RemoveFirst;
    forall x: Id
      ensures Live(r, x) <==> Live(s, x) && x != p
    {
      KilledLive(s, r, p, x);
    }
  }

  lemma LeafActive(s: State, p: Id)
    requires Counts(s) && Live(s, p)
    ensures ActiveWithout(s.active, ActiveRemove(s.active, p), {p})
  {
    assert Slots(s.active, Some(p)) == 1;
    var i := SlotOf(s.active, p);
    SlotIn(s.active, Some(p));
    var t: ActiveTable := s.active[i := None];
    SlotUpdate(s.active, i, None, Some(p));
    SlotIn(t, Some(p));
    forall j | 0 <= j < MAXPROC && j != i
      ensures s.active[j] != Some(p)
    {
      assert t[j] == s.active[j];
    }
  }

  lemma LeafCounts(s: State, r: State, p: Id)
    requires Killed(s, r, p)
    ensures CountsWithout(s, r, {p})
  {
    hide KilledTables, DropBlocked, RemoveFirst;
    assert SoftIn(s, {p}) == if s.pcb[p].semAdd.Some? && s.pcb[p].semAdd.value.Dev? then {p} else {};
  }

  lemma LeafRemoved(s: State, p: Id)
    requires Inv(s) && Live(s, p) && s.yielded.None? && s.pcb[p].children == []
    ensures Subtree(s, p) == {p}
    ensures Removed(s, KillLeaf(s, p), p, {p})
  {
    var r := KillLeaf(s, p);
    hide Placement, Pids, Links, Counts, Sems, KillLeaf, RemoveFirst, TablesWithout, QueuesWithout, CountsWithout;
    LeafSubtree(s, p);
    KillLeafInv(s, p);
    LeafOthers(s, p);
    LeafTables(s, p);
    LeafActive(s, p);
    LeafWithout(s, r, p);
    LeafCounts(s, r, p);
    hide ActiveRemove, ActiveWithout;
  }

  /** Removing the subtree of a child does not change who is under `p` among the others. */
  lemma {:induction false} UnderAfter(s: State, r: State, c: Id, p: Id, q: Id)
    requires Links(s) && Tree(r) && Removed(s, r, c, Subtree(s, c)) && Live(r, q)
    ensures Under(r, q, p) <==> Under(s, q, p)
    decreases s.pcb[q].pid
  {
    assert r.pcb[q].parent == s.pcb[q].parent;
    if q != p && s.pcb[q].parent.Some? {
      var u := s.pcb[q].parent.value;
      assert r.pcb[u].pid >= 1 && s.pcb[u].pid < s.pcb[q].pid;
      UnderAfter(s, r, c, p, u);
    }
  }

  lemma SubtreeSplits(s: State, r: State, c: Id, p: Id)
    requires Links(s) && Tree(r) && s.pcb[c].parent == Some(p)
    requires Removed(s, r, c, Subtree(s, c))
    ensures Subtree(s, p) == Subtree(s, c) + Subtree(r, p) && Subtree(s, c) !! Subtree(r, p)
  {
    forall q: Id
      ensures q in Subtree(s, p) <==> q in Subtree(s, c) || q in Subtree(r, p)
    {
      if q in Subtree(s, c) { UnderParent(s, q, c, p); }
      if Live(r, q) { UnderAfter(s, r, c, p, q); }
    }
  }

  lemma TablesTwice(s: State, s1: State, r: State, c: Id, p: Id, d1: set<Id>, d2: set<Id>)
    requires TablesWithout(s, s1, c, d1) && TablesWithout(s1, r, p, d2)
    requires s.pcb[c].parent == Some(p) && p !in d1 && p in d2
    ensures TablesWithout(s, r, p, d1 + d2)
  {
    hide RemoveFirst, Live;
    assert s1.pcb[p].parent == s.pcb[p].parent;
    forall q: Id | q !in d1 + d2
      ensures r.pcb[q] == s.pcb[q].(children := if s.pcb[p].parent == Some(q) then RemoveFirst(s.pcb[q].children, p)
                                                else s.pcb[q].children)
    {
      assert s1.pcb[q] == s.pcb[q];
    }
  }

  lemma QueuesTwice(s: State, s1: State, r: State, d1: set<Id>, d2: set<Id>)
    requires QueuesWithout(s, s1, d1) && QueuesWithout(s1, r, d2)
    ensures QueuesWithout(s, r, d1 + d2)
  {
    hide Without;
    WithoutTwice(s.ready, d1, d2);
    forall k: Sem
      ensures Queue(r.asl, k) == Without(Queue(s.asl, k), d1 + d2)
    {
      WithoutTwice(Queue(s.asl, k), d1, d2);
    }
  }

  lemma CountsTwice(s: State, s1: State, r: State, c: Id, d1: set<Id>, d2: set<Id>)
    requires TablesWithout(s, s1, c, d1) && CountsWithout(s, s1, d1) && CountsWithout(s1, r, d2) && d1 !! d2
    ensures CountsWithout(s, r, d1 + d2)
  {
    hide Live, RemoveFirst;
    assert SoftIn(s, d1 + d2) == SoftIn(s, d1) + SoftIn(s1, d2) && SoftIn(s, d1) !! SoftIn(s1, d2);
  }

  lemma RemovedTwice(s: State, s1: State, r: State, c: Id, p: Id, d1: set<Id>, d2: set<Id>)
    requires Removed(s, s1, c, d1) && Removed(s1, r, p, d2)
    requires s.pcb[c].parent == Some(p) && p !in d1 && p in d2 && d1 !! d2
    ensures Removed(s, r, p, d1 + d2)
  {
    hide TablesWithout, QueuesWithout, CountsWithout;
    CountsTwice(s, s1, r, c, d1, d2);
    TablesTwice(s, s1, r, c, p, d1, d2);
    QueuesTwice(s, s1, r, d1, d2);
    assert r.free[..|s.free|] == s1.free[..|s.free|];
  }

  /** `terminateProcess(p)` frees exactly the subtree of `p`. Every other PCB keeps its fields,
      its parent and its children, except that `p` leaves its parent's list; the ready queue and
      every semaphore queue keep the others in their order; an ordinary semaphore rises by the
      members it lost and a device semaphore keeps its value; the process count drops by the size
      of the subtree and the soft-block count by its soft-blocked members; the PCBs join the free
      list. */
  lemma {:induction false} TerminateExact(s: State, p: Id)
    requires Inv(s) && Live(s, p) && s.yielded.None?
    ensures Removed(s, TerminateTree(s, p), p, Subtree(s, p))
    decreases MAXPROC - |s.free|, s.nextPid - s.pcb[p].pid
  {
    FreeBound(s, p);
    if s.pcb[p].children == [] {
      LeafRemoved(s, p);
      hide *;
      assert TerminateTree(s, p) == KillLeaf(s, p) by { TerminateLeaf(s, p); }
    } else {
      ChildFacts(s, p);
      var c := s.pcb[p].children[0];
      var s1 := TerminateTree(s, c);
      TerminateStep(s, p);
      hide Placement, Counts, Sems, Removed, TerminateTree;
      TerminateExact(s, c);
      TerminateExact(s1, p);
      SubtreeSplits(s, s1, c, p);
      assert p !in Subtree(s, c) && p in Subtree(s1, p);
      RemovedTwice(s, s1, TerminateTree(s1, p), c, p, Subtree(s, c), Subtree(s1, p));
    }
  }

  lemma TerminateLeaf(s: State, p: Id)
    requires Inv(s) && Live(s, p) && s.yielded.None? && s.pcb[p].children == []
    ensures TerminateTree(s, p) == KillLeaf(s, p)
  {
    hide Placement, Pids, Links, Counts, Sems, KillLeaf;
  }

  lemma TerminateStep(s: State, p: Id)
    requires Inv(s) && Live(s, p) && s.yielded.None? && s.pcb[p].children != []
    ensures var c := s.pcb[p].children[0];
            && Live(s, c) && 1 <= s.pcb[p].pid < s.pcb[c].pid < s.nextPid && Shrunk(s, TerminateTree(s, c), c)
            && Live(TerminateTree(s, c), p)
            && TerminateTree(s, p) == TerminateTree(TerminateTree(s, c), p)
  {
    ChildFacts(s, p);
    hide Placement, Pids, Links, Counts, Sems, KillLeaf;
  }
}
