/** The Active Semaphore List as it is linked: a table of descriptors, each in the active or in
    the free list, the active ones with a key and a queue of blocked PCBs. */
module Asl {
  import opened Queues
  import opened Lists
  import opened Nucleus
  import opened NucleusInvariant
  import opened Processes
  import opened AslView

  class Descriptor {
    const index: Id
    const procq: ListHead
    const link: ListHead
    var key: Option<Sem>

    constructor (index: Id)
      ensures this.index == index && fresh(procq) && fresh(link)
      ensures procq.kind == SemaphoreAnchor && link.kind == DescriptorLink && procq.owner == link.owner == index
    {
      this.index := index;
      procq := new ListHead(SemaphoreAnchor, index);
      link := new ListHead(DescriptorLink, index);
      key := None;
    }
  }

  class ActiveSemaphoreList {
    const semds: seq<Descriptor>
    const activeList: ListHead
    const freeList: ListHead
    const pcbs: ProcessTable

    ghost predicate IsTable() {
      && pcbs.IsTable() && |semds| == MAXPROC
      && activeList.kind == freeList.kind == DescriptorAnchor && activeList != freeList
      && (forall j: Id {:trigger semds[j]} ::
            && semds[j].index == semds[j].procq.owner == semds[j].link.owner == j
            && semds[j].procq.kind == SemaphoreAnchor && semds[j].link.kind == DescriptorLink)
    }

    /** The static tables before any initialisation. */
    constructor (semds: seq<Descriptor>, activeList: ListHead, freeList: ListHead, pcbs: ProcessTable)
      ensures this.semds == semds && this.activeList == activeList && this.freeList == freeList && this.pcbs == pcbs
    {
      this.semds := semds;
      this.activeList := activeList;
      this.freeList := freeList;
      this.pcbs := pcbs;
    }

    ghost function Links(q: seq<Id>): (r: seq<ListHead>)
      requires IsTable()
      ensures |r| == |q| && forall i :: 0 <= i < |q| ==> r[i] == semds[q[i]].link && r[i].kind == DescriptorLink
      ensures forall n :: n in r ==> n.kind == DescriptorLink
    {
      seq(|q|, i requires 0 <= i < |q| => semds[q[i]].link)
    }

    /** `semd_h` holds the descriptors `a`, `semdFree_h` the descriptors `f`. */
    ghost predicate HasLists(a: seq<Id>, f: seq<Id>)
      requires IsTable()
      reads activeList, freeList, Links(a), Links(f)
    {
      Ring(activeList, Links(a)) && Ring(freeList, Links(f))
    }

    ghost predicate HasKeys(keys: KeyTable)
      requires IsTable()
      reads semds
    {
      forall j: Id :: semds[j].key == keys[j]
    }

    ghost function Heads(): (r: set<ListHead>)
      requires IsTable()
      ensures forall j: Id :: semds[j].procq in r
      ensures forall n :: n in r ==> n.kind == SemaphoreAnchor
    {
      set j: Id | 0 <= j < MAXPROC :: semds[j].procq
    }

    /** The `p_list` nodes of the PCBs in the queues `t`. */
    ghost function Waiting(t: QueueTable): (r: set<ListHead>)
      requires IsTable()
      ensures forall j: Id :: forall n :: n in pcbs.Lists(t[j]) ==> n in r
      ensures forall n :: n in r ==> n.kind == ProcessLink
    {
      set j: Id, n | 0 <= j < MAXPROC && n in pcbs.Lists(t[j]) :: n
    }

    /** Descriptor `j` heads the queue `t[j]`. */
    ghost predicate HasQueues(t: QueueTable)
      requires IsTable()
      reads Heads(), Waiting(t)
    {
      forall j: Id :: pcbs.IsQueue(semds[j].procq, t[j])
    }

    /** The heap is linked as `v` says. */
    ghost predicate Holds(v: View)
      requires IsTable()
      reads activeList, freeList, Links(v.active), Links(v.spare), semds, Heads(), Waiting(v.procs)
    {
      HasLists(v.active, v.spare) && HasKeys(v.keys) && HasQueues(v.procs)
    }

    /** The walk along the active list that every operation starts with. */
    method Find(k: Sem, ghost v: View) returns (r: Option<Descriptor>)
      requires IsTable() && Holds(v) && Good(v)
      ensures r.None? ==> forall j: Id :: v.keys[j] != Some(k)
      ensures r.Some? ==> r.value == semds[r.value.index] && v.keys[r.value.index] == r.value.key == Some(k)
      ensures r.Some? ==> r.value.index in v.active
      ensures Holds(v)
    {
      hide Ring, Count, Partition, KeysApart, QueuesApart, HasQueues;
      var pos := activeList.next;
      ghost var n := 0;
      Walk(activeList, Links(v.active), 0);
      while pos != activeList
        invariant Holds(v)
        invariant n <= |v.active| && pos == At(activeList, Links(v.active), n)
        && (pos == activeList <==> n == |v.active|)
        invariant forall i :: 0 <= i < n ==> v.keys[v.active[i]] != Some(k)
        decreases |v.active| - n
      {
        if semds[pos.owner].key == Some(k) {
          return Some(semds[pos.owner]);
        }
        Walk(activeList, Links(v.active), n);
        pos := pos.next;
        n := n + 1;
        Walk(activeList, Links(v.active), n);
      }
      return None;
    }

    // -------------------------------------------------------------- one queue changes

    lemma OwnerIn(n: ListHead, q: seq<Id>)
      requires IsTable()
      ensures n in pcbs.Lists(q) ==> n.owner in q
    {
      if n in pcbs.Lists(q) {
        var b :| 0 <= b < |q| && n == pcbs.Lists(q)[b];
        assert q[b] in q;
      }
    }

    /** Queues of different descriptors share no node, and a PCB outside a queue is none of its
        nodes. */
    lemma NodesApart(v: View, i: Id, j: Id, p: Id)
      requires IsTable() && QueuesApart(v) && i != j && (p in v.procs[j] || Unqueued(v, p))
      ensures semds[i].procq != semds[j].procq
      ensures forall m :: 0 <= m < |v.procs[i]| ==>
                pcbs.Lists(v.procs[i])[m] !in pcbs.Lists(v.procs[j]) && pcbs.Lists(v.procs[i])[m] != pcbs.table[p].list
    {
      assert semds[i].procq.owner == i && semds[j].procq.owner == j;
      forall m | 0 <= m < |v.procs[i]|
        ensures pcbs.Lists(v.procs[i])[m] !in pcbs.Lists(v.procs[j]) && pcbs.Lists(v.procs[i])[m] != pcbs.table[p].list
      {
        OwnerIn(pcbs.Lists(v.procs[i])[m], v.procs[i]);
        OwnerIn(pcbs.Lists(v.procs[i])[m], v.procs[j]);
      }
    }

    /** `list_add_tail` on the queue of `s`. */
    method Append(s: Descriptor, p: Process, ghost v: View)
      requires IsTable() && Holds(v) && QueuesApart(v) && Unqueued(v, p.id)
      requires s == semds[s.index] && p == pcbs.table[p.id]
      modifies p.list, s.procq, pcbs.Lists(v.procs[s.index])
      ensures Holds(Enqueued(v, s.index, p.id))
    {
      hide Ring, QueuesApart;
      ghost var t: QueueTable := v.procs[s.index := v.procs[s.index] + [p.id]];
      forall i: Id | i != s.index
        ensures semds[i].procq != s.procq
        ensures forall m :: 0 <= m < |v.procs[i]| ==>
                  pcbs.Lists(v.procs[i])[m] !in pcbs.Lists(v.procs[s.index]) && pcbs.Lists(v.procs[i])[m] != p.list
      {
        NodesApart(v, i, s.index, p.id);
      }
      pcbs.Enqueue(s.procq, p, v.procs[s.index]);
      forall i: Id
        ensures pcbs.IsQueue(semds[i].procq, t[i])
      {
        assert i != s.index ==> old(pcbs.IsQueue(semds[i].procq, v.procs[i]));
      }
    }

    /** `list_del` of the PCB at position `n` of the queue of `s`. */
    method Cut(s: Descriptor, p: Process, ghost n: nat, ghost v: View)
      requires IsTable() && Holds(v) && QueuesApart(v) && s == semds[s.index]
      requires p == pcbs.table[p.id] && n < |v.procs[s.index]| && p.id == v.procs[s.index][n]
               && p.id !in v.procs[s.index][..n]
      modifies s.procq, pcbs.Lists(v.procs[s.index])
      ensures Holds(Dequeued(v, s.index, p.id))
    {
      hide Ring, QueuesApart;
      ghost var q := v.procs[s.index];
      ghost var t: QueueTable := v.procs[s.index := RemoveFirst(q, p.id)];
      assert p.id in q;
      forall i: Id | i != s.index
        ensures semds[i].procq != s.procq
        ensures forall m :: 0 <= m < |v.procs[i]| ==> pcbs.Lists(v.procs[i])[m] !in pcbs.Lists(q)
      {
        NodesApart(v, i, s.index, p.id);
      }
      pcbs.DeleteAt(s.procq, p, q, n);
      forall i: Id
        ensures pcbs.IsQueue(semds[i].procq, t[i])
      {
        assert i != s.index ==> old(pcbs.IsQueue(semds[i].procq, v.procs[i]));
      }
    }

    // -------------------------------------------------------------- the two lists of descriptors

    /** The first free descriptor leaves the free list. */
    method Unspare(ghost v: View) returns (s: Descriptor)
      requires IsTable() && Holds(v) && v.spare != []
      requires forall j :: j in v.active ==> j !in v.spare
      modifies freeList, Links(v.spare)
      ensures s == semds[v.spare[0]] && Holds(v.(spare := v.spare[1..]))
    {
      hide Ring;
      ghost var a, f := v.active, v.spare;
      Walk(freeList, Links(f), 0);
      LinksApart(a, f);
      var first := freeList.next;
      s := semds[first.owner];
      assert Links(f[1..]) == Links(f)[..0] + Links(f)[0 + 1..];
      Remove(first, freeList, Links(f), 0);
    }

    /** `s` joins the active list. */
    method Activate(s: Descriptor, ghost v: View)
      requires IsTable() && Holds(v) && s == semds[s.index] && s.index !in v.active && s.index !in v.spare
      requires forall j :: j in v.active ==> j !in v.spare
      modifies activeList, Links(v.active), s.link
      ensures Holds(v.(active := v.active + [s.index]))
    {
      hide Ring;
      ghost var a, f := v.active, v.spare;
      LinksApart(f, a);
      LinksApart([s.index], a);
      LinksApart(f, [s.index]);
      assert s.link == Links([s.index])[0];
      assert Links(a + [s.index]) == Links(a) + [s.link];
      AddTail(s.link, activeList, Links(a));
    }

    lemma LinksApart(a: seq<Id>, f: seq<Id>)
      requires IsTable() && forall j :: j in a ==> j !in f
      ensures forall m :: 0 <= m < |a| ==> Links(a)[m] !in Links(f)
    {
      forall m | 0 <= m < |a|
        ensures Links(a)[m] !in Links(f)
      {
        assert a[m] in a && Links(a)[m].owner == a[m];
        LinkIn(Links(a)[m], f);
      }
    }

    lemma LinkIn(n: ListHead, q: seq<Id>)
      requires IsTable()
      ensures n in Links(q) ==> n.owner in q
    {
      if n in Links(q) {
        var b :| 0 <= b < |q| && n == Links(q)[b];
        assert q[b] in q;
      }
    }

    /** `list_del`: `s` leaves the active list. */
    method LeaveActive(s: Descriptor, ghost v: View)
      requires IsTable() && Holds(v) && s == semds[s.index] && s.index in v.active
      requires forall j :: j in v.active ==> j !in v.spare
      modifies activeList, Links(v.active)
      ensures Holds(v.(active := RemoveFirst(v.active, s.index))) && s.index !in RemoveFirst(v.active, s.index)
    {
      hide Ring, RemoveFirst;
      ghost var a, f := v.active, v.spare;
      ghost var n := SlotIn(a, s.index);
      RemoveFirstAt(a, s.index, n);
      RemoveOnce(a, s.index, n);
      assert Links(a[..n] + a[n + 1..]) == Links(a)[..n] + Links(a)[n + 1..];
      LinksApart(f, a);
      Remove(s.link, activeList, Links(a), n);
    }

    /** `list_add_tail`: `s` joins the free list. */
    method JoinSpare(s: Descriptor, ghost v: View)
      requires IsTable() && Holds(v) && s == semds[s.index] && s.index !in v.active && s.index !in v.spare
      requires forall j :: j in v.active ==> j !in v.spare
      modifies freeList, Links(v.spare), s.link
      ensures Holds(v.(spare := v.spare + [s.index]))
    {
      hide Ring;
      ghost var a, f := v.active, v.spare;
      LinksApart(a, f);
      LinksApart([s.index], f);
      LinksApart(a, [s.index]);
      assert s.link == Links([s.index])[0];
      assert Links(f + [s.index]) == Links(f) + [s.link];
      AddTail(s.link, freeList, Links(f));
    }

    /** `s` goes back from the active list to the end of the free list. */
    method Deactivate(s: Descriptor, ghost v: View)
      requires IsTable() && Holds(v) && s == semds[s.index] && s.index in v.active
      requires forall j :: j in v.active ==> j !in v.spare
      modifies activeList, freeList, Links(v.active), Links(v.spare)
      ensures Holds(v.(active := RemoveFirst(v.active, s.index), spare := v.spare + [s.index]))
    {
      hide Holds, RemoveFirst;
      RemoveIn(v.active, s.index);
      LinkOf(s, v.active);
      LeaveActive(s, v);
      JoinSpare(s, v.(active := RemoveFirst(v.active, s.index)));
    }

    lemma LinkOf(s: Descriptor, q: seq<Id>)
      requires IsTable() && s == semds[s.index] && s.index in q
      ensures s.link in Links(q)
    {
      var n :| 0 <= n < |q| && q[n] == s.index;
      assert Links(q)[n] == s.link;
    }

    /** A ring holds each node once. */
    lemma RemoveOnce(a: seq<Id>, j: Id, n: nat)
      requires IsTable() && Ring(activeList, Links(a)) && n < |a| && a[n] == j && j !in a[..n]
      ensures j !in a[..n] + a[n + 1..]
    {
      forall m | n < m < |a|
        ensures a[m] != j
      {
        assert Links(a)[m] != Links(a)[n];
      }
    }

    lemma SlotIn(a: seq<Id>, j: Id) returns (n: nat)
      requires j in a
      ensures n < |a| && a[n] == j && j !in a[..n]
    {
      n := 0;
      while a[n] != j
        invariant n < |a| && j !in a[..n]
        decreases |a| - n
      {
        assert a[..n + 1] == a[..n] + [a[n]];
        assert j in a[n + 1..] by { assert a == a[..n + 1] + a[n + 1..]; }
        n := n + 1;
      }
    }

    /** `INIT_LIST_HEAD` on an empty queue. */
    method Reset(s: Descriptor, ghost v: View)
      requires IsTable() && Holds(v) && s == semds[s.index] && v.procs[s.index] == []
      modifies s.procq
      ensures Holds(v)
    {
      hide Ring;
      forall i: Id | i != s.index
        ensures semds[i].procq != s.procq
        ensures forall m :: 0 <= m < |v.procs[i]| ==> pcbs.Lists(v.procs[i])[m] != s.procq
      {
        assert semds[i].procq.owner == i && s.procq.owner == s.index;
      }
      s.procq.Init();
      Alone(s.procq);
      assert pcbs.Lists([]) == [];
      forall i: Id
        ensures pcbs.IsQueue(semds[i].procq, v.procs[i])
      {
        assert i != s.index ==> old(pcbs.IsQueue(semds[i].procq, v.procs[i]));
      }
    }

    // -------------------------------------------------------------- the operations

    /** A PCB is no list node. */
    lemma NoNode(p: Process, v: View)
      requires IsTable()
      ensures p as object != activeList && p as object != freeList
      ensures forall n :: n in Links(v.active) ==> n as object != p
      ensures forall n :: n in Links(v.spare) ==> n as object != p
      ensures forall n :: n in Heads() ==> n as object != p
      ensures forall n :: n in Waiting(v.procs) ==> n as object != p
    {
    }

    method SetSemAdd(p: Process, key: Option<Sem>, ghost v: View)
      requires IsTable() && Holds(v)
      modifies p`semAdd
      ensures Holds(v) && p.semAdd == key
    {
      hide HasLists, HasQueues, HasKeys;
      NoNode(p, v);
      p.semAdd := key;
    }

    /** The branch of `insertBlocked` for a key in use. */
    method InsertKnown(s: Descriptor, p: Process, ghost v: View)
      requires IsTable() && Holds(v) && Good(v) && s == semds[s.index] && s.index in v.active
      requires p == pcbs.table[p.id] && Unqueued(v, p.id)
      modifies p`semAdd, p.list, Heads(), Waiting(v.procs)
      ensures Holds(Enqueued(v, s.index, p.id)) && p.semAdd == old(s.key)
    {
      hide Holds, QueuesApart, KeysApart, Partition, Unqueued;
      var key := s.key;
      Append(s, p, v);
      SetSemAdd(p, key, Enqueued(v, s.index, p.id));
    }

    /** A descriptor is no list node. */
    lemma NoDescriptor(s: Descriptor, v: View)
      requires IsTable()
      ensures s as object != activeList && s as object != freeList
      ensures forall n :: n in Links(v.active) ==> n as object != s
      ensures forall n :: n in Links(v.spare) ==> n as object != s
      ensures forall n :: n in Heads() ==> n as object != s
      ensures forall n :: n in Waiting(v.procs) ==> n as object != s
    {
    }

    method SetKey(s: Descriptor, key: Option<Sem>, ghost v: View)
      requires IsTable() && Holds(v) && s == semds[s.index]
      modifies s`key
      ensures Holds(v.(keys := v.keys[s.index := key])) && s.key == key
    {
      hide HasLists, HasQueues;
      NoDescriptor(s, v);
      s.key := key;
    }

    /** The first free descriptor, off its list, with key `k` and an empty queue. */
    method TakeDescriptor(k: Sem, ghost v: View) returns (s: Descriptor)
      requires IsTable() && Holds(v) && v.spare != [] && v.procs[v.spare[0]] == []
      requires forall j :: j in v.active ==> j !in v.spare
      modifies freeList, Links(v.spare), Heads(), semds`key
      ensures s == semds[v.spare[0]] && Holds(Reserved(v, k))
      ensures s.key == Some(k)
    {
      hide Holds;
      s := Unspare(v);
      SetKey(s, Some(k), v.(spare := v.spare[1..]));
      Reset(s, Reserved(v, k));
    }

    /** `p` becomes the queue of the descriptor just taken, which becomes active. */
    method Settle(s: Descriptor, p: Process, ghost v: View)
      requires IsTable() && Holds(v) && QueuesApart(v) && Unqueued(v, p.id)
      requires s == semds[s.index] && p == pcbs.table[p.id] && s.index !in v.active && s.index !in v.spare
      requires forall j :: j in v.active ==> j !in v.spare
      modifies p`semAdd, p.list, s.procq, pcbs.Lists(v.procs[s.index]), activeList, Links(v.active), s.link
      ensures Holds(Enqueued(v, s.index, p.id).(active := v.active + [s.index])) && p.semAdd == old(s.key)
    {
      hide Holds, QueuesApart, Unqueued;
      var key := s.key;
      Append(s, p, v);
      SetSemAdd(p, key, Enqueued(v, s.index, p.id));
      Activate(s, Enqueued(v, s.index, p.id));
    }

    /** The branch of `insertBlocked` for a new key. */
    method InsertNew(k: Sem, p: Process, ghost v: View)
      requires IsTable() && Holds(v) && Good(v) && v.spare != [] && p == pcbs.table[p.id] && Unqueued(v, p.id)
      modifies p`semAdd, p.list, activeList, freeList, Links(v.active), Links(v.spare), Heads(), semds`key
      ensures Holds(Enqueued(Taken(v, k), v.spare[0], p.id)) && p.semAdd == Some(k)
    {
      hide Holds, QueuesApart, KeysApart, Partition, Good, Unqueued;
      SpareFacts(v);
      SameQueued(v, Reserved(v, k), p.id);
      assert semds[v.spare[0]].link in Links(v.spare) by { assert Links(v.spare)[0] == semds[v.spare[0]].link; }
      var s := TakeDescriptor(k, v);
      Settle(s, p, Reserved(v, k));
      TakenIs(v, k, p.id);
    }

    lemma SameQueued(v: View, w: View, p: Id)
      requires v.procs == w.procs && v.place == w.place
      ensures QueuesApart(v) == QueuesApart(w) && Unqueued(v, p) == Unqueued(w, p)
    {
    }

    lemma TakenIs(v: View, k: Sem, p: Id)
      requires v.spare != [] && v.procs[v.spare[0]] == []
      ensures var v2 := Reserved(v, k);
              Enqueued(v2, v.spare[0], p).(active := v.active + [v.spare[0]]) == Enqueued(Taken(v, k), v.spare[0], p)
    {
      assert v.procs[v.spare[0] := []] == v.procs;
    }

    lemma SpareFacts(v: View)
      requires Good(v) && v.spare != []
      ensures var j := v.spare[0];
              v.procs[j] == [] && j !in v.active && j !in v.spare[1..]
      ensures forall i :: i in v.active ==> i !in v.spare && i !in v.spare[1..]
      ensures QueuesApart(v)
    {
      var j := v.spare[0];
      TakePartition(v, Word(0));
      CountHead(v.spare, j);
      CountIn(v.spare[1..], j);
      forall i | i in v.active
        ensures i !in v.spare
      {
        CountIn(v.active, i);
        CountIn(v.spare, i);
        assert Count(v.active, i) + Count(v.spare, i) == 1;
      }
    }

    lemma NoneSpare(v: View)
      requires IsTable() && Holds(v)
      ensures freeList.next == freeList <==> v.spare == []
    {
      hide Ring;
      Walk(freeList, Links(v.spare), 0);
    }

    /** `insertBlocked` for a proper address. */
    method Insert(k: Sem, p: Process, ghost v: View) returns (failed: bool, ghost w: View)
      requires IsTable() && Holds(v) && Good(v) && p == pcbs.table[p.id] && Unqueued(v, p.id)
      modifies p`semAdd, p.list, activeList, freeList, Links(v.active), Links(v.spare), Heads(), Waiting(v.procs)
      modifies semds`key
      ensures Holds(w) && Good(w) && Inserted(Meaning(v), Meaning(w), k, p.id, failed)
      ensures p.semAdd == if failed then old(p.semAdd) else Some(k)
    {
      hide Holds, Good, Unqueued, Meaning, Taken, Enqueued, Queue, Inserted;
      var s := Find(k, v);
      if s.Some? {
        InsertKnownEffect(v, s.value.index, p.id, k);
        InsertKnown(s.value, p, v);
        return false, Enqueued(v, s.value.index, p.id);
      }
      NoneSpare(v);
      if freeList.next == freeList {
        InsertFullEffect(v, k, p.id);
        return true, v;
      }
      InsertNewEffect(v, k, p.id);
      InsertNew(k, p, v);
      return false, Enqueued(Taken(v, k), v.spare[0], p.id);
    }

    /** `insertBlocked`: fails for a null key, and for a new key when all 20 descriptors are in
        use; otherwise `p` becomes the last of the queue of `k`. */
    method InsertBlocked(k: Option<Sem>, p: Process, ghost v: View) returns (failed: bool, ghost w: View)
      requires IsTable() && Holds(v) && Good(v) && p == pcbs.table[p.id] && Unqueued(v, p.id)
      modifies p`semAdd, p.list, activeList, freeList, Links(v.active), Links(v.spare), Heads(), Waiting(v.procs)
      modifies semds`key
      ensures Holds(w) && Good(w)
      ensures k.None? ==> failed && w == v && p.semAdd == old(p.semAdd)
      ensures k.Some? ==> Inserted(Meaning(v), Meaning(w), k.value, p.id, failed)
      ensures k.Some? ==> p.semAdd == if failed then old(p.semAdd) else k
    {
      hide Holds, Good, Unqueued, Meaning, Inserted;
      if k.None? {
        return true, v;
      }
      failed, w := Insert(k.value, p, v);
    }

    /** What follows `list_del` when a PCB left the queue of `s`: the PCB is on no semaphore, and
        an empty descriptor is released. */
    method Depart(s: Descriptor, p: Process, ghost n: nat, ghost v: View)
      requires IsTable() && Holds(v) && Good(v) && s == semds[s.index] && s.index in v.active
      requires p == pcbs.table[p.id] && n < |v.procs[s.index]| && p.id == v.procs[s.index][n]
               && p.id !in v.procs[s.index][..n]
      modifies p`semAdd, activeList, freeList, Links(v.active), Links(v.spare), Heads(), Waiting(v.procs), s`key
      ensures Holds(Left(v, s.index, p.id)) && p.semAdd == None
    {
      hide Holds, QueuesApart, KeysApart, Partition, RemoveFirst;
      ActiveNotSpare(v);
      Cut(s, p, n, v);
      ghost var w := Dequeued(v, s.index, p.id);
      SetSemAdd(p, None, w);
      Front(s, w);
      if s.procq.next == s.procq {
        Deactivate(s, w);
        SetKey(s, None, w.(active := RemoveFirst(w.active, s.index), spare := w.spare + [s.index]));
      }
    }

    /** What the head of the queue of `s` points at. */
    lemma Front(s: Descriptor, v: View)
      requires IsTable() && Holds(v) && s == semds[s.index]
      ensures s.procq.next == s.procq <==> v.procs[s.index] == []
      ensures v.procs[s.index] != [] ==> pcbs.table[s.procq.next.owner] == pcbs.table[v.procs[s.index][0]]
    {
      hide Ring;
      assert pcbs.IsQueue(semds[s.index].procq, v.procs[s.index]);
      Walk(s.procq, pcbs.Lists(v.procs[s.index]), 0);
    }

    lemma ActiveNotSpare(v: View)
      requires Good(v)
      ensures forall i :: i in v.active ==> i !in v.spare
    {
      forall i | i in v.active
        ensures i !in v.spare
      {
        CountIn(v.active, i);
        CountIn(v.spare, i);
        assert Count(v.active, i) + Count(v.spare, i) == 1;
      }
    }

    /** `removeBlocked`: the head of the queue of `k` leaves. */
    method RemoveBlocked(k: Option<Sem>, ghost v: View) returns (r: Option<Process>, ghost w: View)
      requires IsTable() && Holds(v) && Good(v)
      modifies pcbs.table`semAdd, activeList, freeList, Links(v.active), Links(v.spare), Heads(), Waiting(v.procs)
      modifies semds`key
      ensures Holds(w) && Good(w)
      ensures KeyQueue(v, k) == [] ==> r == None && w == v
      ensures KeyQueue(v, k) != [] ==> r == Some(pcbs.table[KeyQueue(v, k)[0]]) && r.value.semAdd == None
      ensures k.Some? && r.Some? ==> Meaning(w) == DropBlocked(Meaning(v), k.value, r.value.id)
    {
      hide Holds, Good, Meaning, DropBlocked, Left;
      if k.None? {
        return None, v;
      }
      QueueOf(v, k.value);
      var s := Find(k.value, v);
      if s.None? {
        return None, v;
      }
      Front(s.value, v);
      if s.value.procq.next == s.value.procq {
        return None, v;
      }
      var p := pcbs.ContainerOf(s.value.procq.next);
      LeaveEffect(v, s.value.index, p.id, k.value);
      Depart(s.value, p, 0, v);
      return Some(p), Left(v, s.value.index, p.id);
    }

    /** `headBlocked`. */
    method HeadBlocked(k: Option<Sem>, ghost v: View) returns (r: Option<Process>)
      requires IsTable() && Holds(v) && Good(v)
      ensures r == if KeyQueue(v, k) == [] then None else Some(pcbs.table[KeyQueue(v, k)[0]])
    {
      hide Holds, Good, Meaning;
      if k.None? {
        return None;
      }
      QueueOf(v, k.value);
      var s := Find(k.value, v);
      if s.None? {
        return None;
      }
      Front(s.value, v);
      if s.value.procq.next == s.value.procq {
        return None;
      }
      return Some(pcbs.ContainerOf(s.value.procq.next));
    }

    /** The inner walk of `outBlocked`, along the queue of `s`. */
    method FindIn(s: Descriptor, p: Process, ghost v: View) returns (found: bool, ghost n: nat)
      requires IsTable() && Holds(v) && s == semds[s.index] && p == pcbs.table[p.id]
      ensures Holds(v) && found == (p.id in v.procs[s.index])
      ensures found ==> n < |v.procs[s.index]| && v.procs[s.index][n] == p.id && p.id !in v.procs[s.index][..n]
    {
      hide Ring, HasLists, HasKeys;
      ghost var q := v.procs[s.index];
      var pos := s.procq.next;
      n := 0;
      Walk(s.procq, pcbs.Lists(q), 0);
      assert pcbs.IsQueue(s.procq, q);
      while pos != s.procq
        invariant Holds(v) && pcbs.IsQueue(s.procq, q)
        invariant n <= |q| && pos == At(s.procq, pcbs.Lists(q), n) && (pos == s.procq <==> n == |q|)
        invariant p.id !in q[..n]
        decreases |q| - n
      {
        if pos == p.list {
          assert q[n] == p.id by { assert pcbs.Lists(q)[n].owner == q[n]; }
          return true, n;
        }
        Walk(s.procq, pcbs.Lists(q), n);
        pos := pos.next;
        n := n + 1;
        Walk(s.procq, pcbs.Lists(q), n);
      }
      return false, n;
    }

    /** `outBlocked`: `p` leaves the queue its semaphore address names, if it stands there. */
    method OutBlocked(p: Process, ghost v: View) returns (found: bool, ghost w: View)
      requires IsTable() && Holds(v) && Good(v) && p == pcbs.table[p.id]
      modifies p`semAdd, activeList, freeList, Links(v.active), Links(v.spare), Heads(), Waiting(v.procs), semds`key
      ensures Holds(w) && Good(w) && found == (p.id in KeyQueue(v, old(p.semAdd)))
      ensures !found ==> w == v && p.semAdd == old(p.semAdd)
      ensures found ==> p.semAdd == None && old(p.semAdd).Some?
      ensures found && old(p.semAdd).Some? ==> Meaning(w) == DropBlocked(Meaning(v), old(p.semAdd).value, p.id)
    {
      hide Holds, Good, Meaning, DropBlocked, Left;
      if p.semAdd.None? {
        return false, v;
      }
      var k := p.semAdd.value;
      QueueOf(v, k);
      var s := Find(k, v);
      if s.None? {
        return false, v;
      }
      ghost var n;
      found, n := FindIn(s.value, p, v);
      if !found {
        return false, v;
      }
      LeaveEffect(v, s.value.index, p.id, k);
      Depart(s.value, p, n, v);
      return true, Left(v, s.value.index, p.id);
    }

    // -------------------------------------------------------------- initialisation

    method InitSemd(i: Id)
      requires IsTable() && HasLists([], Ids(i))
      modifies semds[i], semds[i].procq, semds[i].link, freeList, Links(Ids(i))
      ensures HasLists([], Ids(i + 1)) && semds[i].key == None && pcbs.IsQueue(semds[i].procq, [])
    {
      hide Ids, Ring;
      IdsNext(i);
      semds[i].key := None;
      semds[i].procq.Init();
      LinksApart(Ids(i), [i]);
      assert semds[i].link == Links([i])[0];
      assert Links(Ids(i + 1)) == Links(Ids(i)) + [semds[i].link];
      AddTail(semds[i].link, freeList, Links(Ids(i)));
      Alone(semds[i].procq);
      assert pcbs.Lists([]) == [];
    }

    /** `initASL`: all descriptors free, the map empty. */
    method InitAsl() returns (ghost v: View)
      requires IsTable()
      modifies activeList, freeList, semds, Heads(), Links(Ids(MAXPROC))
      ensures Holds(v) && Good(v) && Meaning(v) == map[]
    {
      hide Ids, Ring;
      freeList.Init();
      activeList.Init();
      Alone(freeList);
      Alone(activeList);
      EmptyView();
      v := NoView();
      for i := 0 to MAXPROC
        invariant HasLists([], Ids(i))
        invariant forall j: Id :: j < i ==> semds[j].key == None && pcbs.IsQueue(semds[j].procq, [])
      {
        IdsNext(i);
        assert forall j :: 0 <= j < i ==> Links(Ids(i))[j] == Links(Ids(MAXPROC))[j];
        assert semds[i].link == Links(Ids(MAXPROC))[i];
        InitSemd(i);
      }
    }
  }

  /** The static tables exist: 20 descriptors over a table of PCBs, initialised. */
  method NewAsl(pcbs: ProcessTable) returns (a: ActiveSemaphoreList, ghost v: View)
    requires pcbs.IsTable()
    ensures fresh(a) && a.pcbs == pcbs && a.IsTable() && a.Holds(v) && Good(v) && Meaning(v) == map[]
  {
    hide Ids, Ring, Good, Meaning;
    var semds: seq<Descriptor> := [];
    for i := 0 to MAXPROC
      invariant |semds| == i && fresh(semds)
      invariant forall j: nat {:trigger semds[j]} :: j < i ==>
                  && semds[j].index == semds[j].procq.owner == semds[j].link.owner == j
                  && semds[j].procq.kind == SemaphoreAnchor && semds[j].link.kind == DescriptorLink
                  && fresh(semds[j].procq) && fresh(semds[j].link)
    {
      var d := new Descriptor(i);
      semds := semds + [d];
    }
    var active := new ListHead(DescriptorAnchor, 0);
    var spare := new ListHead(DescriptorAnchor, 1);
    a := new ActiveSemaphoreList(semds, active, spare, pcbs);
    v := a.InitAsl();
  }

  ghost function NoView(): View {
    View([], Ids(MAXPROC), seq(MAXPROC, _ => None), seq(MAXPROC, _ => []), seq(MAXPROC, _ => None))
  }

  lemma EmptyView()
    ensures Good(NoView()) && Meaning(NoView()) == map[]
  {
    hide Ids, Count, Partition;
    EmptyPartition(NoView());
    assert Meaning(NoView()).Keys == {};
  }

  lemma EmptyPartition(v: View)
    requires v.active == [] && v.spare == Ids(MAXPROC)
    ensures Partition(v)
  {
    hide Ids;
    forall j: Id
      ensures Count(v.active, j) + Count(v.spare, j) == 1
    {
      IdsCount(MAXPROC, j);
      CountIn(v.active, j);
    }
  }
}
