/** The Active Semaphore List as a value: which descriptors are active, with which keys and
    queues, and the map from semaphore addresses to queues this amounts to. */
module AslView {
  import opened Queues
  import opened Nucleus
  import opened NucleusInvariant

  type KeyTable = t: seq<Option<Sem>> | |t| == MAXPROC witness seq(MAXPROC, _ => None)
  type QueueTable = t: seq<seq<Id>> | |t| == MAXPROC witness seq(MAXPROC, _ => [])

  /** `active` and `spare` list the descriptors of `semd_h` and `semdFree_h`; `keys` and
      `procs` are the key and the process queue of each descriptor; `place` says in whose queue a
      PCB is. */
  datatype View = View(active: seq<Id>, spare: seq<Id>, keys: KeyTable, procs: QueueTable, place: ActiveTable)

  /** The two lists partition the table; exactly the active descriptors have a key and a queue;
      keys are distinct and no PCB is in two queues. */
  ghost predicate Good(v: View) {
    && Partition(v)
    && (forall j: Id :: j in v.active <==> v.keys[j].Some?)
    && (forall j: Id :: j in v.active <==> v.procs[j] != [])
    && KeysApart(v) && QueuesApart(v)
  }

  ghost predicate Partition(v: View) {
    (forall j: Id :: Count(v.active, j) + Count(v.spare, j) == 1) && |v.active| + |v.spare| == MAXPROC
  }

  ghost predicate KeysApart(v: View) {
    forall i: Id, j: Id {:trigger v.keys[i], v.keys[j]} :: v.keys[i].Some? && v.keys[i] == v.keys[j] ==> i == j
  }

  ghost predicate QueuesApart(v: View) {
    forall j: Id, p: Id {:trigger p in v.procs[j]} :: p in v.procs[j] ==> v.place[p] == Some(j)
  }

  /** What the list means. */
  ghost function Meaning(v: View): (m: map<Sem, seq<Id>>)
    requires KeysApart(v)
    ensures forall j: Id :: v.keys[j].Some? ==> v.keys[j].value in m && m[v.keys[j].value] == v.procs[j]
    ensures forall k :: k in m ==> exists j: Id :: v.keys[j] == Some(k)
  {
    map j: Id | 0 <= j < MAXPROC && v.keys[j].Some? :: v.keys[j].value := v.procs[j]
  }

  lemma {:induction false} KeyCount(v: View, q: seq<Id>, ks: set<Sem>)
    requires KeysApart(v)
    requires forall j: Id :: Count(q, j) <= 1
    requires forall j :: j in q ==> v.keys[j].Some?
    requires forall k :: k in ks <==> exists j: Id :: j in q && v.keys[j] == Some(k)
    ensures |ks| == |q|
  {
    if q == [] {
      assert ks == {};
    } else {
      var k := v.keys[q[0]].value;
      assert q[0] in q;
      forall j: Id
        ensures Count(q[1..], j) <= 1 && (j in q <==> j == q[0] || j in q[1..]) && (j == q[0] ==> j !in q[1..])
      {
        CountHead(q, j);
        CountIn(q[1..], j);
        CountIn(q, j);
        assert Count(q, j) <= 1;
      }
      KeyCount(v, q[1..], ks - {k});
      assert k in ks;
    }
  }

  /** As many keys as active descriptors: the free list is empty exactly when 20 are in use. */
  lemma KeysInUse(v: View)
    requires Good(v)
    ensures |Meaning(v)| == |v.active| && (v.spare == [] <==> |Meaning(v)| >= MAXPROC)
  {
    forall j: Id
      ensures Count(v.active, j) <= 1
    {
      assert Count(v.active, j) + Count(v.spare, j) == 1;
    }
    KeyCount(v, v.active, Meaning(v).Keys);
    assert |Meaning(v)| == |Meaning(v).Keys|;
  }

  /** A PCB in no queue. */
  ghost predicate Unqueued(v: View, p: Id) {
    forall j: Id :: p !in v.procs[j]
  }

  function Enqueued(v: View, j: Id, p: Id): View {
    v.(procs := v.procs[j := v.procs[j] + [p]], place := v.place[p := Some(j)])
  }

  function Dequeued(v: View, j: Id, p: Id): View {
    v.(procs := v.procs[j := RemoveFirst(v.procs[j], p)])
  }

  /** The first free descriptor becomes the last active one, with key `k`. */
  function Taken(v: View, k: Sem): View
    requires v.spare != []
  {
    var j := v.spare[0];
    v.(active := v.active + [j], spare := v.spare[1..], keys := v.keys[j := Some(k)], procs := v.procs[j := []])
  }

  /** The first free descriptor off the free list, with key `k`. */
  function Reserved(v: View, k: Sem): View
    requires v.spare != []
  {
    v.(spare := v.spare[1..], keys := v.keys[v.spare[0] := Some(k)])
  }

  /** An active descriptor goes back to the end of the free list. */
  function Released(v: View, j: Id): View {
    v.(active := RemoveFirst(v.active, j), spare := v.spare + [j], keys := v.keys[j := None])
  }

  // ---------------------------------------------------------------- the lists

  lemma TakePartition(v: View, k: Sem)
    requires Partition(v) && v.spare != []
    ensures Partition(Taken(v, k))
    ensures forall i: Id :: i in Taken(v, k).active <==> i in v.active || i == v.spare[0]
    ensures v.spare[0] !in v.active
  {
    forall i: Id
      ensures Count(Taken(v, k).active, i) + Count(Taken(v, k).spare, i) == 1
    {
      CountHead(v.spare, i);
      CountSplit(v.active, [v.spare[0]], i);
      assert Count(v.active, i) + Count(v.spare, i) == 1;
    }
    CountHead(v.spare, v.spare[0]);
    CountIn(v.active, v.spare[0]);
  }

  lemma ReleasePartition(v: View, j: Id)
    requires Partition(v) && j in v.active
    ensures Partition(Released(v, j))
    ensures forall i: Id :: i in Released(v, j).active <==> i in v.active && i != j
  {
    var w := Released(v, j);
    forall i: Id
      ensures Count(w.active, i) + Count(w.spare, i) == 1
      ensures i in w.active <==> i in v.active && i != j
    {
      RemoveFirstCount(v.active, j, i);
      CountSplit(v.spare, [j], i);
      CountIn(v.active, i);
      CountIn(w.active, i);
      assert Count(v.active, i) + Count(v.spare, i) == 1;
    }
  }

  lemma {:induction false} RemoveIn(q: seq<Id>, p: Id)
    ensures forall x :: x in RemoveFirst(q, p) ==> x in q
  {
    if q != [] { RemoveIn(q[1..], p); }
  }

  // ---------------------------------------------------------------- the operations keep the view good

  lemma EnqueueGood(v: View, j: Id, p: Id)
    requires Good(v) && j in v.active && Unqueued(v, p)
    ensures Good(Enqueued(v, j, p))
  {
    hide Count, Partition;
    assert Partition(Enqueued(v, j, p)) by { SamePartition(v, Enqueued(v, j, p)); }
  }

  lemma SamePartition(v: View, w: View)
    requires Partition(v) && v.active == w.active && v.spare == w.spare
    ensures Partition(w)
  {
  }

  lemma TakeGood(v: View, k: Sem, p: Id)
    requires Good(v) && v.spare != [] && Unqueued(v, p) && forall j: Id :: v.keys[j] != Some(k)
    ensures Good(Enqueued(Taken(v, k), v.spare[0], p))
  {
    TakePartition(v, k);
    SamePartition(Taken(v, k), Enqueued(Taken(v, k), v.spare[0], p));
    hide Partition;
  }

  lemma DequeueGood(v: View, j: Id, p: Id)
    requires Good(v) && j in v.active && p in v.procs[j] && RemoveFirst(v.procs[j], p) != []
    ensures Good(Dequeued(v, j, p))
  {
    RemoveIn(v.procs[j], p);
    SamePartition(v, Dequeued(v, j, p));
    hide Partition, RemoveFirst;
  }

  lemma ReleaseGood(v: View, j: Id, p: Id)
    requires Good(v) && j in v.active && p in v.procs[j] && RemoveFirst(v.procs[j], p) == []
    ensures Good(Released(Dequeued(v, j, p), j))
  {
    SamePartition(v, Dequeued(v, j, p));
    ReleasePartition(Dequeued(v, j, p), j);
    hide Partition, RemoveFirst;
  }

  // ---------------------------------------------------------------- the operations as changes of the map

  lemma MeaningIs(v: View, m: map<Sem, seq<Id>>)
    requires KeysApart(v)
    requires forall j: Id :: v.keys[j].Some? ==> v.keys[j].value in m && m[v.keys[j].value] == v.procs[j]
    requires forall k :: k in m ==> exists j: Id :: v.keys[j] == Some(k)
    ensures Meaning(v) == m
  {
  }

  lemma EnqueueMeaning(v: View, j: Id, p: Id)
    requires KeysApart(v) && v.keys[j].Some?
    ensures KeysApart(Enqueued(v, j, p))
    ensures Meaning(Enqueued(v, j, p)) == Meaning(v)[v.keys[j].value := v.procs[j] + [p]]
  {
    MeaningIs(Enqueued(v, j, p), Meaning(v)[v.keys[j].value := v.procs[j] + [p]]);
  }

  lemma TakeMeaning(v: View, k: Sem, p: Id)
    requires Good(v) && v.spare != [] && forall j: Id :: v.keys[j] != Some(k)
    ensures var w := Enqueued(Taken(v, k), v.spare[0], p);
            KeysApart(w) && Meaning(w) == Meaning(v)[k := [p]]
  {
    hide Partition, Meaning, Count, QueuesApart;
    var w := Enqueued(Taken(v, k), v.spare[0], p);
    var m := Meaning(v);
    TakePartition(v, k);
    assert w.keys == v.keys[v.spare[0] := Some(k)] && v.keys[v.spare[0]].None?;
    var e: seq<Id> := [];
    assert e + [p] == [p];
    assert w.procs == v.procs[v.spare[0] := [p]];
    forall x | x in m[k := [p]]
      ensures exists j: Id :: w.keys[j] == Some(x)
    {
      if x == k {
        assert w.keys[v.spare[0]] == Some(k);
      } else {
        var j: Id :| v.keys[j] == Some(x);
        assert w.keys[j] == Some(x);
      }
    }
    MeaningIs(w, m[k := [p]]);
  }

  lemma DequeueMeaning(v: View, j: Id, p: Id)
    requires KeysApart(v) && v.keys[j].Some? && RemoveFirst(v.procs[j], p) != []
    ensures KeysApart(Dequeued(v, j, p))
    ensures Meaning(Dequeued(v, j, p)) == DropBlocked(Meaning(v), v.keys[j].value, p)
  {
    hide RemoveFirst;
    MeaningIs(Dequeued(v, j, p), Meaning(v)[v.keys[j].value := RemoveFirst(v.procs[j], p)]);
  }

  lemma ReleaseMeaning(v: View, j: Id, p: Id)
    requires KeysApart(v) && v.keys[j].Some? && RemoveFirst(v.procs[j], p) == []
    ensures KeysApart(Released(Dequeued(v, j, p), j))
    ensures Meaning(Released(Dequeued(v, j, p), j)) == DropBlocked(Meaning(v), v.keys[j].value, p)
  {
    hide RemoveFirst;
    var w := Released(Dequeued(v, j, p), j);
    var m := Meaning(v) - {v.keys[j].value};
    forall x | x in m
      ensures exists i: Id :: w.keys[i] == Some(x)
    {
      var i: Id :| v.keys[i] == Some(x);
      assert w.keys[i] == Some(x);
    }
    MeaningIs(w, m);
  }

  // ---------------------------------------------------------------- the operations in full

  /** `insertBlocked` on the map: it fails for a new key when all descriptors are in use, and
      otherwise makes `p` the last of the queue of `k`. */
  ghost predicate Inserted(m: map<Sem, seq<Id>>, n: map<Sem, seq<Id>>, k: Sem, p: Id, failed: bool) {
    && (failed <==> k !in m && |m| >= MAXPROC)
    && n == if failed then m else m[k := Queue(m, k) + [p]]
  }

  lemma InsertKnownEffect(v: View, j: Id, p: Id, k: Sem)
    requires Good(v) && v.keys[j] == Some(k) && Unqueued(v, p)
    ensures var w := Enqueued(v, j, p);
            Good(w) && Inserted(Meaning(v), Meaning(w), k, p, false)
  {
    EnqueueGood(v, j, p);
    EnqueueMeaning(v, j, p);
  }

  lemma InsertNewEffect(v: View, k: Sem, p: Id)
    requires Good(v) && (forall j: Id :: v.keys[j] != Some(k)) && v.spare != [] && Unqueued(v, p)
    ensures var w := Enqueued(Taken(v, k), v.spare[0], p);
            Good(w) && Inserted(Meaning(v), Meaning(w), k, p, false)
  {
    hide Partition, QueuesApart, KeysApart;
    TakeGood(v, k, p);
    TakeMeaning(v, k, p);
    KeysInUse(v);
    var e: seq<Id> := [];
    assert e + [p] == [p];
  }

  lemma InsertFullEffect(v: View, k: Sem, p: Id)
    requires Good(v) && (forall j: Id :: v.keys[j] != Some(k)) && v.spare == []
    ensures Inserted(Meaning(v), Meaning(v), k, p, true)
  {
    KeysInUse(v);
  }

  /** `p` leaves the queue of descriptor `j`, which is released when that empties it. */
  function Left(v: View, j: Id, p: Id): View {
    var w := Dequeued(v, j, p);
    if w.procs[j] == [] then Released(w, j) else w
  }

  lemma LeaveEffect(v: View, j: Id, p: Id, k: Sem)
    requires Good(v) && v.keys[j] == Some(k) && p in v.procs[j]
    ensures var w := Left(v, j, p);
            Good(w) && Meaning(w) == DropBlocked(Meaning(v), k, p)
  {
    hide Partition, QueuesApart, KeysApart, RemoveFirst;
    if RemoveFirst(v.procs[j], p) == [] {
      ReleaseGood(v, j, p);
      ReleaseMeaning(v, j, p);
    } else {
      DequeueGood(v, j, p);
      DequeueMeaning(v, j, p);
    }
  }

  /** The queue of an address, which may be null. */
  ghost function KeyQueue(v: View, k: Option<Sem>): seq<Id>
    requires Good(v)
  {
    if k.None? then [] else Queue(Meaning(v), k.value)
  }

  lemma QueueOf(v: View, k: Sem)
    requires Good(v)
    ensures forall j: Id :: v.keys[j] == Some(k) ==> KeyQueue(v, Some(k)) == v.procs[j] != []
    ensures (forall j: Id :: v.keys[j] != Some(k)) ==> KeyQueue(v, Some(k)) == []
  {
  }

  // ---------------------------------------------------------------- what the Nucleus model assumes

  /** The map the linked structure means changes exactly as `InsertBlocked` of the Nucleus says. */
  lemma InsertIsNucleus(s: State, k: Sem, p: Id, n: map<Sem, seq<Id>>, failed: bool)
    requires Inserted(s.asl, n, k, p, failed)
    ensures InsertBlocked(s, k, p) == s.(asl := n)
  {
    assert k !in s.asl ==> Queue(s.asl, k) + [p] == [p];
  }
}
