/** How the tables look while `terminateProcess` is under way. The recursion of `TerminateTree`
    takes whole processes away; the code marks a process dead before its children, and detaches
    a child before it terminates it. A veil of marked and detached processes makes up the
    difference. */
module Marking {
  import opened Queues
  import opened Nucleus
  import opened NucleusInvariant
  import opened Lifecycle
  import opened Termination

  /** The table `t` with the processes of `m` marked and those of `d` detached. */
  ghost function Veil(t: PcbTable, m: set<Id>, d: set<Id>): (u: PcbTable)
    ensures forall x: Id :: u[x] == t[x].(pid := if x in m then -1 else t[x].pid,
                                          parent := if x in d then None else t[x].parent,
                                          children := Without(t[x].children, d))
  {
    seq(MAXPROC, x requires 0 <= x < MAXPROC => t[x].(pid := if x in m then -1 else t[x].pid,
                                                      parent := if x in d then None else t[x].parent,
                                                      children := Without(t[x].children, d)))
  }

  ghost function Veiled(s: State, m: set<Id>, d: set<Id>): State {
    s.(pcb := Veil(s.pcb, m, d))
  }

  /** Ancestors of `p` are marked, and detached processes are ancestors of `p` or `p` itself. */
  ghost predicate Above(s: State, p: Id, m: set<Id>, d: set<Id>) {
    && (forall x :: x in m ==> Live(s, x) && s.pcb[x].pid < s.pcb[p].pid)
    && (forall x :: x in d ==> Live(s, x) && s.pcb[x].pid <= s.pcb[p].pid)
  }

  // ---------------------------------------------------------------- sequences

  lemma {:induction false} WithoutAbsent(q: seq<Id>, d: set<Id>, c: Id)
    requires c !in q
    ensures Without(q, d + {c}) == Without(q, d)
  {
    if q != [] {
      assert q[0] in q;
      WithoutAbsent(q[1..], d, c);
    }
  }

  lemma {:induction false} WithoutRemoved(q: seq<Id>, d: set<Id>, p: Id)
    ensures Without(RemoveFirst(q, p), d) == if p in d then Without(q, d) else RemoveFirst(Without(q, d), p)
  {
    if q != [] && q[0] != p {
      WithoutRemoved(q[1..], d, p);
      var r := RemoveFirst(q[1..], p);
      assert ([q[0]] + r)[1..] == r;
      assert ([q[0]] + Without(q[1..], d))[1..] == Without(q[1..], d);
      assert [] + Without(q[1..], d) == Without(q[1..], d);
    } else if q != [] {
      assert ([q[0]] + Without(q[1..], d))[1..] == Without(q[1..], d);
      assert [] + Without(q[1..], d) == Without(q[1..], d);
    }
  }

  // ---------------------------------------------------------------- lifting and drawing the veil

  lemma VeilNone(t: PcbTable)
    ensures Veil(t, {}, {}) == t
  {
    forall x: Id
      ensures Veil(t, {}, {})[x] == t[x]
    {
      WithoutOther(t[x].children, {});
    }
  }

  lemma VeilMark(t: PcbTable, m: set<Id>, d: set<Id>, p: Id)
    ensures var u := Veil(t, m, d); u[p := u[p].(pid := -1)] == Veil(t, m + {p}, d)
  {
  }

  /** A child is only in its parent's list, and there once. */
  lemma OnlyIn(s: State, p: Id, c: Id, x: Id)
    requires Tree(s) && s.pcb[c].parent == (if Live(s, c) then Some(p) else None)
    ensures x != p || !Live(s, c) ==> c !in s.pcb[x].children
    ensures Live(s, c) ==> Count(s.pcb[p].children, c) == 1
  {
    CountIn(s.pcb[x].children, c);
    assert Count(s.pcb[x].children, c) == One(s.pcb[c].parent == Some(x));
    assert Count(s.pcb[p].children, c) == One(s.pcb[c].parent == Some(p));
  }

  /** The detached processes are no children of `p`. */
  lemma ChildrenStay(s: State, p: Id, m: set<Id>, d: set<Id>)
    requires Tree(s) && Above(s, p, m, d)
    ensures Without(s.pcb[p].children, d) == s.pcb[p].children
  {
    forall x | x in s.pcb[p].children
      ensures x !in d
    {
      CountIn(s.pcb[p].children, x);
      assert Count(s.pcb[p].children, x) == One(s.pcb[x].parent == Some(p));
      assert s.pcb[p].pid < s.pcb[x].pid;
    }
    WithoutOther(s.pcb[p].children, d);
  }

  lemma DetachedChildren(s: State, m: set<Id>, d: set<Id>, p: Id, x: Id)
    requires Tree(s) && Above(s, p, m, d) && s.pcb[p].children != []
    ensures Without(s.pcb[x].children, d + {s.pcb[p].children[0]})
         == if x == p then s.pcb[p].children[1..] else Without(s.pcb[x].children, d)
  {
    var q := s.pcb[p].children;
    ChildrenStay(s, p, m, d);
    ChildFacts(s, p);
    OnlyIn(s, p, q[0], x);
    hide Tree;
    if x == p {
      CountHead(q, q[0]);
      CountIn(q[1..], q[0]);
      WithoutAbsent(q[1..], d, q[0]);
      TailStays(q, d);
    } else {
      WithoutAbsent(s.pcb[x].children, d, q[0]);
    }
  }

  /** `removeChild` on the first child. */
  lemma VeilDetach(s: State, m: set<Id>, m1: set<Id>, d: set<Id>, p: Id)
    requires Tree(s) && Above(s, p, m, d) && s.pcb[p].children != []
    ensures var c := s.pcb[p].children[0];
            var u := Veil(s.pcb, m1, d);
            && u[p].children == s.pcb[p].children && c != p
            && u[p := u[p].(children := u[p].children[1..])][c := u[c].(parent := None)] == Veil(s.pcb, m1, d + {c})
  {
    ChildrenStay(s, p, m, d);
    ChildFacts(s, p);
    forall x: Id { DetachedChildren(s, m, d, p, x); }
    hide Tree, Without, Above, Veil;
    var c := s.pcb[p].children[0];
    var u := Veil(s.pcb, m1, d);
    var v := u[p := u[p].(children := u[p].children[1..])][c := u[c].(parent := None)];
    forall x: Id
      ensures v[x] == Veil(s.pcb, m1, d + {c})[x]
    {
      assert v[x].children == if x == p then s.pcb[p].children[1..] else Without(s.pcb[x].children, d);
    }
  }

  lemma {:induction false} WithoutShorter(q: seq<Id>, d: set<Id>)
    ensures |Without(q, d)| <= |q|
    ensures |Without(q, d)| == |q| ==> Without(q, d) == q
  {
    if q != [] {
      WithoutShorter(q[1..], d);
      assert q == [q[0]] + q[1..];
    }
  }

  lemma TailStays(q: seq<Id>, d: set<Id>)
    requires q != [] && Without(q, d) == q
    ensures Without(q[1..], d) == q[1..] && q[0] !in d
  {
    WithoutShorter(q[1..], d);
  }

  /** Once dead, a process leaves the veil. */
  lemma VeilDead(s: State, m: set<Id>, d: set<Id>, c: Id)
    requires Tree(s) && !Live(s, c)
    ensures Veil(s.pcb, m, d + {c}) == Veil(s.pcb, m, d)
  {
    DeadHasNoParent(s, c);
    forall x: Id
      ensures Veil(s.pcb, m, d + {c})[x] == Veil(s.pcb, m, d)[x]
    {
      OnlyIn(s, x, c, x);
      WithoutAbsent(s.pcb[x].children, d, c);
    }
  }

  lemma UnlinkTable(t: PcbTable, p: Id)
    ensures forall x: Id ::
              Unlink(t, p)[x] == t[x].(children := if t[p].parent == Some(x) then RemoveFirst(t[x].children, p)
                                                   else t[x].children)
  {
    hide RemoveFirst;
  }

  lemma UnblockTable(s: State, p: Id)
    ensures forall x: Id :: Unblock(s, p).pcb[x] == s.pcb[x].(semAdd := if x == p then None else s.pcb[x].semAdd)
  {
    hide DropBlocked;
  }

  lemma LeafTable(s: State, p: Id)
    requires s.pcb[p].parent != Some(p)
    ensures forall x: Id ::
              KillLeaf(s, p).pcb[x] == s.pcb[x].(
                pid := if x == p then -1 else s.pcb[x].pid,
                parent := if x == p then None else s.pcb[x].parent,
                semAdd := if x == p then None else s.pcb[x].semAdd,
                children := if s.pcb[p].parent == Some(x) then RemoveFirst(s.pcb[x].children, p) else s.pcb[x].children)
  {
    hide RemoveFirst, ActiveRemove, Unlink, Unblock;
    UnlinkTable(s.pcb, p);
    var t := Unlink(s.pcb, p);
    UnblockTable(s.(pcb := t[p := t[p].(pid := -1, parent := None)], active := ActiveRemove(s.active, p)), p);
  }

  lemma LeafChildren(s: State, d: set<Id>, p: Id, x: Id)
    requires Tree(s)
    ensures Without(if s.pcb[p].parent == Some(x) then RemoveFirst(s.pcb[x].children, p) else s.pcb[x].children, d)
         == var q := Without(s.pcb[x].children, d);
            if s.pcb[p].parent == Some(x) && p !in d then RemoveFirst(q, p) else q
  {
    hide Tree;
    WithoutRemoved(s.pcb[x].children, d, p);
  }

  lemma VeilLeafTable(s: State, m: set<Id>, d: set<Id>, p: Id)
    requires Tree(s) && Live(s, p) && s.pcb[p].children == []
    ensures KillLeaf(Veiled(s, m + {p}, d), p).pcb == Veil(KillLeaf(s, p).pcb, m, d)
  {
    assert s.pcb[p].parent != Some(p);
    var v := Veiled(s, m + {p}, d);
    LeafTable(s, p);
    LeafTable(v, p);
    forall x: Id { LeafChildren(s, d, p, x); }
    hide Tree, Live, KillLeaf, Without, RemoveFirst, Veil;
    forall x: Id
      ensures KillLeaf(v, p).pcb[x] == Veil(KillLeaf(s, p).pcb, m, d)[x]
    {
      var q := Without(s.pcb[x].children, d);
      assert KillLeaf(v, p).pcb[x].children == if s.pcb[p].parent == Some(x) && p !in d then RemoveFirst(q, p) else q;
    }
  }

  lemma UnblockRest(s: State, t: State, p: Id)
    requires t == s.(pcb := t.pcb) && t.pcb[p].semAdd == s.pcb[p].semAdd
    ensures Unblock(t, p) == Unblock(s, p).(pcb := Unblock(t, p).pcb)
  {
    hide DropBlocked, WordAt, Queue;
  }

  lemma LeafRest(s: State, t: State, p: Id)
    requires t == s.(pcb := t.pcb) && t.pcb[p].semAdd == s.pcb[p].semAdd
    ensures KillLeaf(t, p) == KillLeaf(s, p).(pcb := KillLeaf(t, p).pcb)
  {
    hide Unlink, Unblock, ActiveRemove, RemoveFirst;
    UnlinkTable(s.pcb, p);
    UnlinkTable(t.pcb, p);
    var s1 := Unlink(s.pcb, p);
    var t1 := Unlink(t.pcb, p);
    var a := ActiveRemove(s.active, p);
    UnblockRest(s.(pcb := s1[p := s1[p].(pid := -1, parent := None)], active := a),
                t.(pcb := t1[p := t1[p].(pid := -1, parent := None)], active := a), p);
  }

  /** Taking a marked, childless process away under the veil is taking it away. */
  lemma VeilLeaf(s: State, m: set<Id>, d: set<Id>, p: Id)
    requires Tree(s) && Live(s, p) && s.pcb[p].children == []
    ensures KillLeaf(Veiled(s, m + {p}, d), p) == Veiled(KillLeaf(s, p), m, d)
  {
    hide Tree, Live, KillLeaf, Veil;
    VeilLeafTable(s, m, d, p);
    LeafRest(s, Veiled(s, m + {p}, d), p);
  }

  lemma MarkFacts(s: State, m: set<Id>, d: set<Id>, p: Id)
    requires Inv(s) && Live(s, p) && Above(s, p, m, d)
    ensures |s.free| < MAXPROC && 1 <= s.pcb[p].pid < s.nextPid
    ensures var u := Veil(s.pcb, m, d); u[p := u[p].(pid := -1)] == Veil(s.pcb, m + {p}, d)
  {
    FreeBound(s, p);
    VeilMark(s.pcb, m, d, p);
  }

  // ---------------------------------------------------------------- one turn of the loop over the children

  /** `removeChild` detaches the first child. */
  lemma DetachFacts(s: State, m: set<Id>, d: set<Id>, p: Id)
    requires Inv(s) && Above(s, p, m, d) && s.pcb[p].children != []
    ensures var c := s.pcb[p].children[0];
            var u := Veil(s.pcb, m + {p}, d);
            && u[p].children == s.pcb[p].children && c != p
            && u[p := u[p].(children := u[p].children[1..])][c := u[c].(parent := None)]
               == Veil(s.pcb, m + {p}, d + {c})
  {
    VeilDetach(s, m, m + {p}, d, p);
  }

  /** The child is ready for the recursive call. */
  lemma ChildCall(s: State, m: set<Id>, d: set<Id>, p: Id)
    requires Inv(s) && Live(s, p) && Above(s, p, m, d) && s.pcb[p].children != []
    ensures var c := s.pcb[p].children[0];
            && Live(s, c) && s.pcb[p].pid < s.pcb[c].pid < s.nextPid
            && Veil(s.pcb, m + {p}, d + {c})[c].pid != -1
            && Above(s, c, m + {p}, d + {c})
  {
    hide Placement, Pids, Links, Counts, Sems, Live;
    ChildFacts(s, p);
  }

  /** After the call the child is gone and the marks still lie above `p`. */
  lemma AfterCall(s: State, m: set<Id>, d: set<Id>, p: Id)
    requires Inv(s) && Live(s, p) && s.yielded.None? && Above(s, p, m, d) && s.pcb[p].children != []
    ensures var c := s.pcb[p].children[0];
            && Live(s, c)
            && var r := TerminateTree(s, c);
            && Inv(r) && Live(r, p) && r.yielded.None? && Above(r, p, m, d)
            && r.nextPid == s.nextPid && |s.free| < |r.free| <= MAXPROC && r.pcb[p].pid == s.pcb[p].pid
            && TerminateTree(r, p) == TerminateTree(s, p)
            && Veil(r.pcb, m + {p}, d + {c}) == Veil(r.pcb, m + {p}, d)
  {
    hide Placement, Pids, Links, Counts, Sems, Live, KillLeaf, TerminateTree, Veil;
    TerminateStep(s, p);
    var c := s.pcb[p].children[0];
    VeilDead(TerminateTree(s, c), m + {p}, d, c);
  }
}
