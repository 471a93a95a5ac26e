/** Process queues as values: what the pointer code of phase 1 refines and what the
    Nucleus model computes with. A PCB is named by its index in the PCB table. */
module Queues {

  const MAXPROC: nat := 20

  type Id = n: nat | n < MAXPROC

  datatype Option<+T> = None | Some(value: T)

  /** How often `p` occurs in `q`. */
  ghost function Count(q: seq<Id>, p: Id): nat {
    multiset(q)[p]
  }

  lemma CountSplit(a: seq<Id>, b: seq<Id>, p: Id)
    ensures Count(a + b, p) == Count(a, p) + Count(b, p)
  {
  }

  lemma CountOne(y: Id, p: Id)
    ensures Count([y], p) == (if y == p then 1 else 0)
  {
  }

  lemma CountHead(q: seq<Id>, p: Id)
    requires q != []
    ensures Count(q, p) == (if q[0] == p then 1 else 0) + Count(q[1..], p)
  {
    assert q == [q[0]] + q[1..];
  }

  lemma CountIn(q: seq<Id>, p: Id)
    ensures Count(q, p) > 0 <==> p in q
  {
  }

  // ---------------------------------------------------------------- priority insertion

  /** The first position of `q` whose priority is below `prio`, or the end of the queue. */
  function Slot(q: seq<Id>, prio: int, pr: seq<int>): (k: nat)
    requires |pr| == MAXPROC
    ensures k <= |q|
    ensures forall i :: 0 <= i < k ==> pr[q[i]] >= prio
    ensures k < |q| ==> pr[q[k]] < prio
  {
    if q == [] || pr[q[0]] < prio then 0 else
      var k := Slot(q[1..], prio, pr);
      assert forall i :: 0 < i < 1 + k ==> q[i] == q[1..][i - 1];
      1 + k
  }

  /** Insertion of `p` in front of the first process of strictly lower priority. */
  function InsertByPrio(q: seq<Id>, p: Id, pr: seq<int>): (r: seq<Id>)
    requires |pr| == MAXPROC
  {
    var k := Slot(q, pr[p], pr);
    q[..k] + [p] + q[k..]
  }

  lemma SlotUnique(q: seq<Id>, prio: int, pr: seq<int>, k: nat)
    requires |pr| == MAXPROC && k <= |q|
    requires forall i :: 0 <= i < k ==> pr[q[i]] >= prio
    requires k < |q| ==> pr[q[k]] < prio
    ensures k == Slot(q, prio, pr)
  {
    var j := Slot(q, prio, pr);
    assert !(j < k) && !(k < j);
  }

  lemma InsertCount(q: seq<Id>, p: Id, pr: seq<int>, x: Id)
    requires |pr| == MAXPROC
    ensures Count(InsertByPrio(q, p, pr), x) == Count(q, x) + (if x == p then 1 else 0)
  {
    var k := Slot(q, pr[p], pr);
    assert q == q[..k] + q[k..];
  }

  ghost predicate SortedByPrio(q: seq<Id>, pr: seq<int>)
    requires |pr| == MAXPROC
  {
    forall i, j :: 0 <= i < j < |q| ==> pr[q[i]] >= pr[q[j]]
  }

  /** Stable priority insertion: the queue stays sorted, keeps its members in their relative
      order, and the newcomer stands behind every process of its own priority. */
  lemma InsertSorted(q: seq<Id>, p: Id, pr: seq<int>)
    requires |pr| == MAXPROC && SortedByPrio(q, pr)
    ensures SortedByPrio(InsertByPrio(q, p, pr), pr)
    ensures exists k :: 0 <= k <= |q| && InsertByPrio(q, p, pr) == q[..k] + [p] + q[k..]
                        && forall i :: 0 <= i < |q| ==> (i < k <==> pr[q[i]] >= pr[p])
  {
    var k := Slot(q, pr[p], pr);
    var r := InsertByPrio(q, p, pr);
    forall i, j | 0 <= i < j < |r|
      ensures pr[r[i]] >= pr[r[j]]
    {
      var a := if i < k then q[i] else if i == k then p else q[i - 1];
      var b := if j < k then q[j] else if j == k then p else q[j - 1];
      assert r[i] == a && r[j] == b;
    }
    forall i | 0 <= i < |q|
      ensures i < k <==> pr[q[i]] >= pr[p]
    {
    }
  }

  /** Appending, the way the terminal transmitter wakes a process, keeps the order in exactly
      one case. */
  lemma AppendSorted(q: seq<Id>, p: Id, pr: seq<int>)
    requires |pr| == MAXPROC
    ensures SortedByPrio(q + [p], pr)
       <==> SortedByPrio(q, pr) && (q == [] || pr[q[|q| - 1]] >= pr[p])
  {
    var r := q + [p];
    if SortedByPrio(r, pr) {
      forall i, j | 0 <= i < j < |q|
        ensures pr[q[i]] >= pr[q[j]]
      {
        assert r[i] == q[i] && r[j] == q[j];
      }
      if q != [] { assert r[|q| - 1] == q[|q| - 1] && r[|q|] == p; }
    }
  }

  // ---------------------------------------------------------------- removal

  /** `q` without its first occurrence of `p`. */
  function RemoveFirst(q: seq<Id>, p: Id): (r: seq<Id>)
    ensures p !in q ==> r == q
    ensures p in q ==> |r| == |q| - 1
  {
    if q == [] then [] else if q[0] == p then q[1..] else [q[0]] + RemoveFirst(q[1..], p)
  }

  lemma {:induction false} RemoveFirstAt(q: seq<Id>, p: Id, k: nat)
    requires k < |q| && q[k] == p && p !in q[..k]
    ensures RemoveFirst(q, p) == q[..k] + q[k + 1..]
  {
    if k > 0 {
      assert q[..k][0] == q[0];
      assert q[1..][..k - 1] == q[..k][1..];
      RemoveFirstAt(q[1..], p, k - 1);
      assert q[..k] + q[k + 1..] == [q[0]] + (q[1..][..k - 1] + q[1..][k..]);
    }
  }

  lemma {:induction false} RemoveFirstCount(q: seq<Id>, p: Id, x: Id)
    ensures Count(RemoveFirst(q, p), x) == Count(q, x) - (if x == p && p in q then 1 else 0)
  {
    if q != [] {
      CountHead(q, x);
      RemoveFirstCount(q[1..], p, x);
      if q[0] != p {
        CountSplit([q[0]], RemoveFirst(q[1..], p), x);
      }
    }
  }

  /** The members of `q` outside `d`, in their order. */
  ghost function Without(q: seq<Id>, d: set<Id>): (r: seq<Id>) {
    if q == [] then [] else (if q[0] in d then [] else [q[0]]) + Without(q[1..], d)
  }

  lemma {:induction false} WithoutOther(q: seq<Id>, d: set<Id>)
    requires forall x :: x in q ==> x !in d
    ensures Without(q, d) == q
  {
    if q != [] {
      WithoutOther(q[1..], d);
      assert q == [q[0]] + q[1..];
    }
  }

  lemma {:induction false} WithoutTwice(q: seq<Id>, d: set<Id>, e: set<Id>)
    ensures Without(Without(q, d), e) == Without(q, d + e)
  {
    if q != [] {
      WithoutTwice(q[1..], d, e);
      if q[0] !in d {
        assert ([q[0]] + Without(q[1..], d))[1..] == Without(q[1..], d);
      } else {
        assert [] + Without(q[1..], d) == Without(q[1..], d);
      }
    }
  }

  lemma {:induction false} WithoutOne(q: seq<Id>, p: Id)
    requires Count(q, p) <= 1
    ensures Without(q, {p}) == RemoveFirst(q, p)
  {
    if q != [] {
      CountHead(q, p);
      if q[0] == p {
        CountIn(q[1..], p);
        WithoutOther(q[1..], {p});
      } else {
        WithoutOne(q[1..], p);
      }
    }
  }

  lemma {:induction false} WithoutSorted(q: seq<Id>, d: set<Id>, pr: seq<int>)
    requires |pr| == MAXPROC && SortedByPrio(q, pr)
    ensures SortedByPrio(Without(q, d), pr)
    ensures forall x :: x in Without(q, d) <==> x in q && x !in d
  {
    if q != [] {
      WithoutSorted(q[1..], d, pr);
      var r := Without(q, d);
      if q[0] !in d {
        forall i, j | 0 <= i < j < |r|
          ensures pr[r[i]] >= pr[r[j]]
        {
          assert r[j] == Without(q[1..], d)[j - 1];
          if i == 0 {
            assert r[j] in q[1..];
          } else {
            assert r[i] == Without(q[1..], d)[i - 1];
          }
        }
      }
      assert q == [q[0]] + q[1..];
    }
  }

  lemma FirstIn(q: seq<Id>)
    ensures q == [] || q[0] in q
  {
  }

  /** A duplicate-free sequence of table indices is no longer than the table. */
  lemma {:induction false} DistinctLength(q: seq<Id>, bound: nat)
    requires bound <= MAXPROC
    requires forall p: Id :: Count(q, p) <= 1
    requires forall p :: p in q ==> p < bound
    ensures |q| <= bound
    decreases bound
  {
    if bound == 0 {
      FirstIn(q);
    } else {
      var last: Id := bound - 1;
      var r := RemoveFirst(q, last);
      forall p: Id
        ensures Count(r, p) <= 1 && (p == last ==> Count(r, p) == 0)
      {
        RemoveFirstCount(q, last, p);
        CountIn(q, last);
        assert Count(q, p) <= 1;
      }
      forall p: Id | p in r
        ensures p < last
      {
        RemoveFirstCount(q, last, p);
        CountIn(q, p);
        CountIn(r, p);
        assert Count(q, p) <= 1;
      }
      DistinctLength(r, last);
    }
  }
}
