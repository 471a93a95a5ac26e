/** The PCB table of phase 1: free list, process queues and the lists of children, all threaded
    through the PCBs. */
module Processes {
  import opened Queues
  import opened Lists
  import opened Nucleus
  import opened NucleusInvariant

  class Process {
    const id: Id
    const list: ListHead
    const child: ListHead
    const sib: ListHead
    var parent: Option<Id>
    var semAdd: Option<Sem>
    var prio: int
    var pid: int
    var time: int
    var support: int

    constructor (id: Id)
      ensures this.id == id && pid == 0 && fresh(list) && fresh(child) && fresh(sib)
      ensures list.kind == ProcessLink && child.kind == ChildAnchor && sib.kind == SiblingLink
      ensures list.owner == child.owner == sib.owner == id
      ensures list.next == list && list.prev == list
    {
      this.id := id;
      list := new ListHead(ProcessLink, id);
      child := new ListHead(ChildAnchor, id);
      sib := new ListHead(SiblingLink, id);
      parent := None;
      semAdd := None;
      prio := 0;
      pid := 0;
      time := 0;
      support := 0;
    }

    /** The initialisation `allocPcb` performs on the PCB it grants. */
    method Clear(newPid: int)
      modifies this, child, sib
      ensures pid == newPid && parent == None && semAdd == None && support == 0 && time == 0 && prio == 0
      ensures Ring(child, []) && Ring(sib, [])
    {
      pid := newPid;
      child.Init();
      sib.Init();
      parent := None;
      semAdd := None;
      support := 0;
      time := 0;
      prio := 0;
    }
  }

  /** The table of PCBs and the list of free ones. */
  class ProcessTable {
    const table: seq<Process>
    const freeList: ListHead
    var nextPid: int

    /** `table[i]` is PCB `i`, and its nodes say so: `container_of` inverts taking a node. */
    ghost predicate IsTable() {
      && |table| == MAXPROC && freeList.kind == Anchor
      && (forall i: Id {:trigger table[i]} ::
            && table[i].id == table[i].list.owner == table[i].sib.owner == table[i].child.owner == i
            && table[i].list.kind == ProcessLink && table[i].sib.kind == SiblingLink
            && table[i].child.kind == ChildAnchor)
    }

    function ContainerOf(n: ListHead): Process
      requires IsTable()
    {
      table[n.owner]
    }

    /** The `p_list` nodes of a queue. */
    ghost function Lists(q: seq<Id>): (r: seq<ListHead>)
      requires IsTable()
      ensures |r| == |q| && forall i :: 0 <= i < |q| ==> r[i] == table[q[i]].list && r[i].kind == ProcessLink
      ensures forall n :: n in r ==> n.kind == ProcessLink
    {
      seq(|q|, i requires 0 <= i < |q| => table[q[i]].list)
    }

    /** The `p_sib` nodes of a list of children. */
    ghost function Sibs(q: seq<Id>): (r: seq<ListHead>)
      requires IsTable()
      ensures |r| == |q| && forall i :: 0 <= i < |q| ==> r[i] == table[q[i]].sib && r[i].kind == SiblingLink
      ensures forall n :: n in r ==> n.kind == SiblingLink
    {
      seq(|q|, i requires 0 <= i < |q| => table[q[i]].sib)
    }

    ghost function Priorities(): (r: seq<int>)
      requires IsTable()
      reads table
      ensures |r| == MAXPROC && forall p: Id :: r[p] == table[p].prio
    {
      seq(MAXPROC, i requires 0 <= i < MAXPROC reads table => table[i].prio)
    }

    /** The list anchored at `h` is the queue `q`. */
    ghost predicate IsQueue(h: ListHead, q: seq<Id>)
      requires IsTable()
      reads h, Lists(q)
    {
      (h.kind == Anchor || h.kind == SemaphoreAnchor) && Ring(h, Lists(q))
    }

    /** The static tables before any initialisation. */
    constructor (table: seq<Process>, freeList: ListHead)
      ensures this.table == table && this.freeList == freeList && nextPid == 1
    {
      this.table := table;
      this.freeList := freeList;
      nextPid := 1;
    }

    // -------------------------------------------------------------- the free list

    /** `initPcbs`: every PCB is free, in table order. */
    method InitPcbs()
      requires IsTable()
      modifies table, freeList, Lists(Ids(MAXPROC))
      ensures IsQueue(freeList, Ids(MAXPROC)) && forall p: Id :: table[p].pid == 0
    {
      hide Ids, Ring;
      freeList.Init();
      Alone(freeList);
      assert Lists(Ids(0)) == [] by { IdsNone(); }
      for i := 0 to MAXPROC
        invariant IsQueue(freeList, Ids(i)) && forall p: Id :: p < i ==> table[p].pid == 0
      {
        IdsNext(i);
        assert forall j :: 0 <= j < i ==> Lists(Ids(i))[j] == Lists(Ids(MAXPROC))[j];
        assert table[i].list == Lists(Ids(MAXPROC))[i];
        InitPcb(i);
      }
    }

    method InitPcb(i: Id)
      requires IsTable() && IsQueue(freeList, Ids(i))
      modifies table[i], table[i].list, freeList, Lists(Ids(i))
      ensures IsQueue(freeList, Ids(i + 1)) && table[i].pid == 0
    {
      hide Ids, Ring;
      IdsNext(i);
      table[i].list.Init();
      table[i].pid := 0;
      AddTail(table[i].list, freeList, Lists(Ids(i)));
      assert Lists(Ids(i + 1)) == Lists(Ids(i)) + [table[i].list];
    }

    /** `freePcb`. */
    method FreePcb(p: Process, ghost q: seq<Id>)
      requires IsTable() && p == table[p.id] && IsQueue(freeList, q) && p.id !in q
      modifies p.list, freeList, Lists(q)
      ensures IsQueue(freeList, q + [p.id])
    {
      Enqueue(freeList, p, q);
    }

    /** `allocPcb`: the first free PCB, cleared, with the next pid. */
    method AllocPcb(ghost q: seq<Id>) returns (r: Option<Process>)
      requires IsTable() && IsQueue(freeList, q)
      modifies this`nextPid, freeList, Lists(q)
      modifies if q == [] then {} else {table[q[0]], table[q[0]].child, table[q[0]].sib}
      ensures q == [] ==> r == None && IsQueue(freeList, []) && nextPid == old(nextPid)
      ensures q != [] ==>
                var p := table[q[0]];
                && r == Some(p) && IsQueue(freeList, q[1..]) && nextPid == old(nextPid) + 1
                && Ring(p.list, []) && Ring(p.child, []) && Ring(p.sib, [])
                && p.pid == old(nextPid) && p.parent == None && p.semAdd == None
                && p.support == 0 && p.time == 0 && p.prio == 0
    {
      hide Ring;
      Walk(freeList, Lists(q), 0);
      if freeList.next == freeList {
        return None;
      }
      var pos := freeList.next;
      assert Lists(q[1..]) == Lists(q)[..0] + Lists(q)[0 + 1..];
      DeleteInit(pos, freeList, Lists(q), 0);
      var p := ContainerOf(pos);
      p.Clear(nextPid);
      nextPid := nextPid + 1;
      return Some(p);
    }

    // -------------------------------------------------------------- process queues

    /** The walk of `insertProcQ`: to the first process of strictly lower priority. */
    method FindSlot(head: ListHead, p: Process, ghost q: seq<Id>) returns (pos: ListHead, ghost k: nat)
      requires IsTable() && p == table[p.id] && IsQueue(head, q)
      ensures k <= |q| && pos == At(head, Lists(q), k)
      ensures InsertByPrio(q, p.id, Priorities()) == q[..k] + [p.id] + q[k..]
    {
      hide Ring, InsertByPrio;
      pos := head.next;
      k := 0;
      Walk(head, Lists(q), 0);
      while pos != head
        invariant k <= |q| && pos == At(head, Lists(q), k) && (pos == head <==> k == |q|)
        invariant forall i :: 0 <= i < k ==> table[q[i]].prio >= p.prio
        decreases |q| - k
      {
        var iter := ContainerOf(pos);
        if p.prio > iter.prio {
          break;
        }
        Walk(head, Lists(q), k);
        pos := pos.next;
        k := k + 1;
        Walk(head, Lists(q), k);
      }
      InsertedAt(q, p.id, Priorities(), k);
    }

    /** `insertProcQ`. */
    method InsertProcQ(head: ListHead, p: Process, ghost q: seq<Id>)
      requires IsTable() && p == table[p.id] && IsQueue(head, q) && p.id !in q
      modifies p.list, head, Lists(q)
      ensures IsQueue(head, InsertByPrio(q, p.id, Priorities()))
    {
      hide Ring, InsertByPrio;
      var pos, k := FindSlot(head, p, q);
      assert Lists(q[..k] + [p.id] + q[k..]) == Lists(q)[..k] + [p.list] + Lists(q)[k..];
      Insert(p.list, pos, head, Lists(q), k);
    }

    /** `list_add_tail` on a process queue. */
    method Enqueue(head: ListHead, p: Process, ghost q: seq<Id>)
      requires IsTable() && p == table[p.id] && IsQueue(head, q) && p.id !in q
      modifies p.list, head, Lists(q)
      ensures IsQueue(head, q + [p.id])
    {
      hide Ring;
      AddTail(p.list, head, Lists(q));
      assert Lists(q + [p.id]) == Lists(q) + [p.list];
    }

    /** `list_del` of the process at position `k` of a queue. */
    method DeleteAt(head: ListHead, p: Process, ghost q: seq<Id>, ghost k: nat)
      requires IsTable() && p == table[p.id] && IsQueue(head, q) && k < |q| && q[k] == p.id && p.id !in q[..k]
      modifies head, Lists(q)
      ensures IsQueue(head, RemoveFirst(q, p.id)) && Ring(p.list, [])
    {
      hide Ring;
      RemoveFirstAt(q, p.id, k);
      assert Lists(q[..k] + q[k + 1..]) == Lists(q)[..k] + Lists(q)[k + 1..];
      Remove(p.list, head, Lists(q), k);
    }

    /** `headProcQ`. */
    method HeadProcQ(head: ListHead, ghost q: seq<Id>) returns (r: Option<Process>)
      requires IsTable() && IsQueue(head, q)
      ensures r == if q == [] then None else Some(table[q[0]])
    {
      hide Ring;
      Walk(head, Lists(q), 0);
      if head.next == head {
        return None;
      }
      return Some(ContainerOf(head.next));
    }

    /** `removeProcQ`. */
    method RemoveProcQ(head: ListHead, ghost q: seq<Id>) returns (r: Option<Process>)
      requires IsTable() && IsQueue(head, q)
      modifies head, Lists(q)
      ensures q == [] ==> r == None && IsQueue(head, [])
      ensures q != [] ==> r == Some(table[q[0]]) && IsQueue(head, q[1..]) && Ring(table[q[0]].list, [])
    {
      hide Ring;
      Walk(head, Lists(q), 0);
      if head.next == head {
        return None;
      }
      var first := head.next;
      assert Lists(q[1..]) == Lists(q)[..0] + Lists(q)[0 + 1..];
      DeleteInit(first, head, Lists(q), 0);
      return Some(ContainerOf(first));
    }

    /** `outProcQ`. */
    method OutProcQ(head: ListHead, p: Process, ghost q: seq<Id>) returns (found: bool)
      requires IsTable() && p == table[p.id] && IsQueue(head, q)
      modifies head, Lists(q)
      ensures found == (p.id in q) && IsQueue(head, RemoveFirst(q, p.id))
      ensures found ==> Ring(p.list, [])
    {
      hide Ring;
      var pos := head.next;
      ghost var k := 0;
      Walk(head, Lists(q), 0);
      while pos != head
        invariant IsQueue(head, q) && k <= |q| && pos == At(head, Lists(q), k) && (pos == head <==> k == |q|)
        invariant p.id !in q[..k]
        decreases |q| - k
      {
        if ContainerOf(pos) == p {
          DeleteAt(head, p, q, k);
          return true;
        }
        Walk(head, Lists(q), k);
        pos := pos.next;
        k := k + 1;
        Walk(head, Lists(q), k);
      }
      return false;
    }

    // -------------------------------------------------------------- children

    /** `insertChild`. */
    method InsertChild(parent: Process, p: Process, ghost q: seq<Id>)
      requires IsTable() && parent == table[parent.id] && p == table[p.id]
      requires Ring(parent.child, Sibs(q)) && p.id !in q
      modifies p, p.sib, parent.child, Sibs(q)
      ensures p.parent == Some(parent.id) && Ring(parent.child, Sibs(q + [p.id]))
      ensures p.pid == old(p.pid) && p.prio == old(p.prio) && p.semAdd == old(p.semAdd)
      ensures p.time == old(p.time) && p.support == old(p.support)
    {
      p.parent := Some(parent.id);
      AddTail(p.sib, parent.child, Sibs(q));
      assert Sibs(q + [p.id]) == Sibs(q) + [p.sib];
    }

    /** `removeChild`. */
    method RemoveChild(p: Process, ghost q: seq<Id>) returns (r: Option<Process>)
      requires IsTable() && p == table[p.id] && Ring(p.child, Sibs(q))
      modifies p.child, Sibs(q), if q == [] then {} else {table[q[0]]}
      ensures q == [] ==> r == None && Ring(p.child, [])
      ensures q != [] ==>
                var c := table[q[0]];
                && r == Some(c) && Ring(p.child, Sibs(q[1..])) && Ring(c.sib, []) && c.parent == None
                && c.pid == old(c.pid) && c.prio == old(c.prio) && c.semAdd == old(c.semAdd)
                && c.time == old(c.time) && c.support == old(c.support)
    {
      hide Ring;
      Walk(p.child, Sibs(q), 0);
      if p.child.next == p.child {
        return None;
      }
      var c := ContainerOf(p.child.next);
      assert Sibs(q[1..]) == Sibs(q)[..0] + Sibs(q)[0 + 1..];
      DeleteInit(c.sib, p.child, Sibs(q), 0);
      c.parent := None;
      return Some(c);
    }

    /** `outChild`: constant time, wherever `p` stands among its siblings `q`. */
    method OutChild(p: Process, ghost parent: Process, ghost q: seq<Id>, ghost k: nat) returns (found: bool)
      requires IsTable() && p == table[p.id] && parent == table[parent.id]
      requires p.parent.Some? ==> Ring(parent.child, Sibs(q)) && k < |q| && q[k] == p.id
      modifies p, if p.parent.Some? then {parent.child} + set n | n in Sibs(q) else {}
      ensures found == old(p.parent.Some?) && p.parent == None
      ensures found ==> Ring(parent.child, Sibs(RemoveFirst(q, p.id))) && Ring(p.sib, [])
      ensures p.pid == old(p.pid) && p.prio == old(p.prio) && p.semAdd == old(p.semAdd)
      ensures p.time == old(p.time) && p.support == old(p.support)
    {
      hide Linked;
      if p.parent.None? {
        return false;
      }
      assert forall i :: 0 <= i < k ==> Sibs(q)[i] != Sibs(q)[k];
      RemoveFirstAt(q, p.id, k);
      assert Sibs(q[..k] + q[k + 1..]) == Sibs(q)[..k] + Sibs(q)[k + 1..];
      DeleteInit(p.sib, parent.child, Sibs(q), k);
      p.parent := None;
      return true;
    }
  }

  /** The static tables exist: 20 PCBs, initialised. */
  method NewTable() returns (t: ProcessTable)
    ensures fresh(t) && fresh(t.table) && t.IsTable() && t.IsQueue(t.freeList, Ids(MAXPROC)) && t.nextPid == 1
  {
    hide Ids, Ring;
    var table: seq<Process> := [];
    for i := 0 to MAXPROC
      invariant |table| == i && fresh(table)
      invariant forall j: nat {:trigger table[j]} :: j < i ==>
                  && table[j].id == table[j].list.owner == table[j].sib.owner == table[j].child.owner == j
                  && table[j].list.kind == ProcessLink && table[j].sib.kind == SiblingLink
                  && table[j].child.kind == ChildAnchor && fresh(table[j].list)
    {
      var p := new Process(i);
      table := table + [p];
    }
    var head := new ListHead(Anchor, 0);
    t := new ProcessTable(table, head);
    t.InitPcbs();
  }

  lemma IdsNone()
    ensures Ids(0) == []
  {
  }

  lemma InsertedAt(q: seq<Id>, p: Id, pr: seq<int>, k: nat)
    requires |pr| == MAXPROC && k <= |q|
    requires forall i :: 0 <= i < k ==> pr[q[i]] >= pr[p]
    requires k < |q| ==> pr[q[k]] < pr[p]
    ensures InsertByPrio(q, p, pr) == q[..k] + [p] + q[k..]
  {
    SlotUnique(q, pr[p], pr, k);
  }

  lemma IdsNext(i: nat)
    requires i < MAXPROC
    ensures Ids(i + 1) == Ids(i) + [i] && i !in Ids(i)
  {
  }
}
