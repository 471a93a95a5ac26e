/** `terminateProcess`: the order in which the processes of a subtree are freed. */
module FreeOrder {
  import opened Queues
  import opened Nucleus
  import opened NucleusInvariant
  import opened Lifecycle
  import opened Termination

  /** The descendants of `p` and then `p` itself, each child's descendants first, in the order of the child lists. */
  ghost function Postorder(s: State, p: Id): seq<Id>
    requires Tree(s)
    decreases s.nextPid - s.pcb[p].pid, |s.pcb[p].children| + 1
  {
    Postorders(s, p, 0) + [p]
  }

  /** The subtrees of the children of `p` from the `k`-th on. */
  ghost function Postorders(s: State, p: Id, k: nat): seq<Id>
    requires Tree(s) && k <= |s.pcb[p].children|
    decreases s.nextPid - s.pcb[p].pid, |s.pcb[p].children| - k
  {
    if k == |s.pcb[p].children| then []
    else
      ChildOf(s, p, k);
      Postorder(s, s.pcb[p].children[k]) + Postorders(s, p, k + 1)
  }

  lemma ChildOf(s: State, p: Id, k: nat)
    requires Tree(s) && k < |s.pcb[p].children|
    ensures var c := s.pcb[p].children[k];
            Live(s, c) && s.pcb[c].parent == Some(p) && 1 <= s.pcb[p].pid < s.pcb[c].pid < s.nextPid
  {
    var c := s.pcb[p].children[k];
    CountIn(s.pcb[p].children, c);
    assert Count(s.pcb[p].children, c) == One(s.pcb[c].parent == Some(p));
  }

  /** A process above `q` is not younger. */
  lemma {:induction false} UnderYounger(s: State, q: Id, c: Id)
    requires Links(s) && Under(s, q, c)
    ensures s.pcb[c].pid <= s.pcb[q].pid
    decreases s.pcb[q].pid
  {
    if q != c {
      var u := s.pcb[q].parent.value;
      assert s.pcb[u].pid < s.pcb[q].pid;
      UnderYounger(s, u, c);
    }
  }

  /** Removing the subtree of `c` does not change the order of a subtree beside it. */
  lemma {:induction false} BesidePostorder(s: State, r: State, c: Id, p: Id, q: Id)
    requires Tree(s) && Tree(r) && Removed(s, r, c, Subtree(s, c)) && s.pcb[c].parent == Some(p)
    requires Live(s, q) && s.pcb[p].pid < s.pcb[q].pid && !Under(s, q, c)
    ensures r.pcb[q].children == s.pcb[q].children && Postorder(r, q) == Postorder(s, q)
    decreases s.nextPid - s.pcb[q].pid, |s.pcb[q].children| + 1
  {
    assert r.pcb[q].children == s.pcb[q].children && r.pcb[q].pid == s.pcb[q].pid;
    BesidePostorders(s, r, c, p, q, 0);
  }

  lemma {:induction false} BesidePostorders(s: State, r: State, c: Id, p: Id, q: Id, k: nat)
    requires Tree(s) && Tree(r) && Removed(s, r, c, Subtree(s, c)) && s.pcb[c].parent == Some(p)
    requires Live(s, q) && s.pcb[p].pid < s.pcb[q].pid && !Under(s, q, c)
    requires r.pcb[q].children == s.pcb[q].children && k <= |s.pcb[q].children|
    ensures Postorders(r, q, k) == Postorders(s, q, k)
    decreases s.nextPid - s.pcb[q].pid, |s.pcb[q].children| - k
  {
    if k < |s.pcb[q].children| {
      var x := s.pcb[q].children[k];
      ChildOf(s, q, k);
      assert !Under(s, x, c);
      BesidePostorder(s, r, c, p, x);
      BesidePostorders(s, r, c, p, q, k + 1);
    }
  }

  lemma OtherChild(s: State, p: Id, k: nat)
    requires Links(s) && 0 < k < |s.pcb[p].children|
    ensures s.pcb[p].children[k] != s.pcb[p].children[0]
  {
    var q := s.pcb[p].children;
    assert Count(q, q[0]) == One(s.pcb[q[0]].parent == Some(p));
    CountSplit([q[0]], q[1..], q[0]);
    assert q == [q[0]] + q[1..] && Count([q[0]], q[0]) == 1;
    CountIn(q[1..], q[0]);
    assert q[1..][k - 1] == q[k];
  }

  /** A later child of `p` is not below the first one. */
  lemma SiblingApart(s: State, p: Id, k: nat)
    requires Tree(s) && 0 < k < |s.pcb[p].children|
    ensures var x := s.pcb[p].children[k];
            Live(s, x) && s.pcb[p].pid < s.pcb[x].pid < s.nextPid && !Under(s, x, s.pcb[p].children[0])
  {
    ChildOf(s, p, 0);
    ChildOf(s, p, k);
    OtherChild(s, p, k);
    if Under(s, p, s.pcb[p].children[0]) { UnderYounger(s, p, s.pcb[p].children[0]); }
  }

  /** Without the first child's subtree, the subtrees of the other children come in the same order. */
  lemma {:induction false} RestPostorders(s: State, r: State, p: Id, k: nat)
    requires Tree(s) && Tree(r) && s.pcb[p].children != []
    requires var c := s.pcb[p].children[0];
             s.pcb[c].parent == Some(p) && Removed(s, r, c, Subtree(s, c)) && p !in Subtree(s, c)
    requires r.pcb[p].children == s.pcb[p].children[1..] && k <= |r.pcb[p].children|
    ensures Postorders(r, p, k) == Postorders(s, p, k + 1)
    decreases |r.pcb[p].children| - k
  {
    if k < |r.pcb[p].children| {
      hide Removed, Under, Subtree, Live, Tree, Postorder, Postorders;
      SiblingApart(s, p, k + 1);
      BesidePostorder(s, r, s.pcb[p].children[0], p, s.pcb[p].children[k + 1]);
      RestPostorders(s, r, p, k + 1);
      NextPostorders(s, p, k + 1);
      NextPostorders(r, p, k);
    } else {
      hide *;
      LastPostorders(r, p);
      LastPostorders(s, p);
    }
  }

  lemma NextPostorders(s: State, p: Id, k: nat)
    requires Tree(s) && k < |s.pcb[p].children|
    ensures Postorders(s, p, k) == Postorder(s, s.pcb[p].children[k]) + Postorders(s, p, k + 1)
  {
    ChildOf(s, p, k);
    hide Tree;
  }

  lemma LastPostorders(s: State, p: Id)
    requires Tree(s)
    ensures Postorders(s, p, |s.pcb[p].children|) == []
  {
    hide Tree;
  }

  lemma FirstGone(s: State, r: State, p: Id)
    requires Tree(s) && Tree(r) && s.pcb[p].children != []
    requires var c := s.pcb[p].children[0];
             s.pcb[c].parent == Some(p) && Removed(s, r, c, Subtree(s, c)) && p !in Subtree(s, c)
    ensures r.pcb[p].children == s.pcb[p].children[1..] && r.pcb[p].pid == s.pcb[p].pid
    ensures Postorder(s, p) == Postorder(s, s.pcb[p].children[0]) + Postorder(r, p)
  {
    var c := s.pcb[p].children[0];
    ChildOf(s, p, 0);
    assert r.pcb[p].children == RemoveFirst(s.pcb[p].children, c) == s.pcb[p].children[1..];
    RestPostorders(s, r, p, 0);
    assert Postorder(s, p) == Postorder(s, c) + Postorders(s, p, 1) + [p];
  }

  /** `terminateProcess(p)` frees the subtree of `p` from its leaves up: the descendants of the
      first child, that child, then those of the next, and `p` last. */
  lemma {:induction false} TerminateOrder(s: State, p: Id)
    requires Inv(s) && Live(s, p) && s.yielded.None?
    ensures TerminateTree(s, p).free == s.free + Postorder(s, p)
    decreases MAXPROC - |s.free|, s.nextPid - s.pcb[p].pid
  {
    hide Placement, Pids, Links, Counts, Sems, Removed, TerminateTree, KillLeaf, RemoveFirst, Under,
         Subtree, Postorder, Live;
    FreeBound(s, p);
    if s.pcb[p].children == [] {
      TerminateLeaf(s, p);
      KillLeafRest(s, p);
      LeafPostorder(s, p);
    } else {
      var c := s.pcb[p].children[0];
      ChildFacts(s, p);
      TerminateStep(s, p);
      var s1 := TerminateTree(s, c);
      TerminateExact(s, c);
      TerminateOrder(s, c);
      TerminateOrder(s1, p);
      AncestorStays(s, s1, c, p);
      FirstGone(s, s1, p);
    }
  }

  lemma LeafPostorder(s: State, p: Id)
    requires Tree(s) && s.pcb[p].children == []
    ensures Postorder(s, p) == [p]
  {
    hide Tree;
  }

  lemma AncestorStays(s: State, r: State, c: Id, p: Id)
    requires Links(s) && s.pcb[p].pid < s.pcb[c].pid
    ensures p !in Subtree(s, c)
  {
    if Under(s, p, c) { UnderYounger(s, p, c); }
  }
}
