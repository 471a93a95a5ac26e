/** The intrusive circular doubly linked lists under every queue. */
module Lists {
  import opened Queues

  /** What a node is: the head of the ready queue or of the free PCBs, of a semaphore queue, of a
      list of children or of a list of descriptors, or a link field of a PCB or a descriptor. */
  datatype Kind = Anchor | SemaphoreAnchor | ChildAnchor | DescriptorAnchor
                | ProcessLink | SiblingLink | DescriptorLink

  /** `kind` and `owner` stand for the address of the node inside its table: they are what
      `container_of` computes with. */
  class ListHead {
    const kind: Kind
    const owner: Id
    var next: ListHead
    var prev: ListHead

    constructor (kind: Kind, owner: Id)
      ensures this.kind == kind && this.owner == owner && next == this && prev == this
    {
      this.kind := kind;
      this.owner := owner;
      next := this;
      prev := this;
    }

    /** `INIT_LIST_HEAD`. */
    method Init()
      modifies this
      ensures next == this && prev == this
    {
      next := this;
      prev := this;
    }
  }

  /** Element `i` of the ring, where both ends are the head. */
  function At(h: ListHead, s: seq<ListHead>, i: int): ListHead {
    if 0 <= i < |s| then s[i] else h
  }

  ghost predicate Distinct(h: ListHead, s: seq<ListHead>) {
    && (forall i :: 0 <= i < |s| ==> s[i] != h)
    && (forall i, j :: 0 <= i < j < |s| ==> s[i] != s[j])
  }

  ghost predicate Linked(h: ListHead, s: seq<ListHead>)
    reads h, s
  {
    && h.next == At(h, s, 0) && h.prev == At(h, s, |s| - 1)
    && (forall i {:trigger s[i].next} :: 0 <= i < |s| ==> s[i].next == At(h, s, i + 1))
    && (forall i {:trigger s[i].prev} :: 0 <= i < |s| ==> s[i].prev == At(h, s, i - 1))
  }

  /** The list anchored at `h` holds exactly the nodes `s`, in this order, linked both ways. */
  ghost predicate Ring(h: ListHead, s: seq<ListHead>)
    reads h, s
  {
    Distinct(h, s) && Linked(h, s)
  }

  /** The contents of a list are determined by its links. */
  lemma RingUnique(h: ListHead, s: seq<ListHead>, t: seq<ListHead>)
    requires Ring(h, s) && Ring(h, t)
    ensures s == t
  {
    if |s| <= |t| { RingPrefix(h, s, t, |s|); } else { RingPrefix(h, t, s, |t|); }
  }

  lemma {:induction false} RingPrefix(h: ListHead, s: seq<ListHead>, t: seq<ListHead>, n: nat)
    requires Ring(h, s) && Ring(h, t) && n <= |s| <= |t|
    ensures s[..n] == t[..n] && (n == |s| ==> s == t)
  {
    if n > 0 {
      RingPrefix(h, s, t, n - 1);
      if n > 1 { assert s[n - 2] == t[n - 2] by { assert s[..n - 1][n - 2] == t[..n - 1][n - 2]; } }
      assert s[n - 1] == (if n == 1 then h.next else s[n - 2].next);
      assert t[n - 1] == (if n == 1 then h.next else t[n - 2].next);
      assert s[..n] == s[..n - 1] + [s[n - 1]];
    }
    if n == |s| && n > 0 {
      assert s[..n][n - 1] == t[..n][n - 1];
    }
  }

  /** What a walk along a list sees: the successor, and whether the list is at its end. */
  lemma Walk(h: ListHead, s: seq<ListHead>, k: nat)
    requires Ring(h, s) && k <= |s|
    ensures At(h, s, k) == h <==> k == |s|
    ensures k < |s| ==> s[k].next == At(h, s, k + 1)
    ensures h.next == At(h, s, 0)
  {
  }

  /** `__list_add`. */
  method AddBetween(n: ListHead, prev: ListHead, next: ListHead)
    modifies n, prev, next
    ensures n != prev && n != next ==>
              n.next == next && n.prev == prev && next.prev == n && prev.next == n
              && (prev != next ==> next.next == old(next.next) && prev.prev == old(prev.prev))
  {
    next.prev := n;
    n.next := next;
    n.prev := prev;
    prev.next := n;
  }

  /** Links that are those of `s` but for a detour over `n` before position `k`. */
  lemma Detour(h: ListHead, s: seq<ListHead>, n: ListHead, k: nat)
    requires Distinct(h, s) && n != h && n !in s && k <= |s|
    requires k != 0 ==> h.next == At(h, s, 0)
    requires k != |s| ==> h.prev == At(h, s, |s| - 1)
    requires forall i {:trigger s[i].next} :: 0 <= i < |s| && i != k - 1 ==> s[i].next == At(h, s, i + 1)
    requires forall i {:trigger s[i].prev} :: 0 <= i < |s| && i != k ==> s[i].prev == At(h, s, i - 1)
    requires At(h, s, k - 1).next == n && n.next == At(h, s, k) && n.prev == At(h, s, k - 1) && At(h, s, k).prev == n
    ensures Ring(h, s[..k] + [n] + s[k..])
  {
    var r := s[..k] + [n] + s[k..];
    assert forall i :: 0 <= i < |r| ==> r[i] == if i < k then s[i] else if i == k then n else s[i - 1];
    assert Distinct(h, r);
    assert forall i {:trigger r[i].next} :: 0 <= i < |r| ==> r[i].next == At(h, r, i + 1);
    assert forall i {:trigger r[i].prev} :: 0 <= i < |r| ==> r[i].prev == At(h, r, i - 1);
  }

  /** Links that are those of `s` but for a shortcut past position `k`. */
  lemma Shortcut(h: ListHead, s: seq<ListHead>, k: nat)
    requires Distinct(h, s) && k < |s|
    requires k != 0 ==> h.next == At(h, s, 0)
    requires k != |s| - 1 ==> h.prev == At(h, s, |s| - 1)
    requires forall i {:trigger s[i].next} :: 0 <= i < |s| && i != k && i != k - 1 ==> s[i].next == At(h, s, i + 1)
    requires forall i {:trigger s[i].prev} :: 0 <= i < |s| && i != k && i != k + 1 ==> s[i].prev == At(h, s, i - 1)
    requires At(h, s, k - 1).next == At(h, s, k + 1) && At(h, s, k + 1).prev == At(h, s, k - 1)
    ensures Ring(h, s[..k] + s[k + 1..])
  {
    var r := s[..k] + s[k + 1..];
    assert forall i :: 0 <= i < |r| ==> r[i] == if i < k then s[i] else s[i + 1];
    assert Distinct(h, r);
    assert forall i {:trigger r[i].next} :: 0 <= i < |r| ==> r[i].next == At(h, r, i + 1);
    assert forall i {:trigger r[i].prev} :: 0 <= i < |r| ==> r[i].prev == At(h, r, i - 1);
  }

  /** `__list_add` in front of the node at position `k`. */
  method InsertBefore(n: ListHead, pos: ListHead, ghost h: ListHead, ghost s: seq<ListHead>, ghost k: nat)
    requires Ring(h, s) && k <= |s| && pos == At(h, s, k) && n != h && n !in s
    modifies n, pos, pos.prev
    ensures Ring(h, s[..k] + [n] + s[k..])
  {
    assert pos.prev == At(h, s, k - 1);
    AddBetween(n, pos.prev, pos);
    Detour(h, s, n, k);
  }

  /** The same, framed by the whole list. */
  method Insert(n: ListHead, pos: ListHead, ghost h: ListHead, ghost s: seq<ListHead>, ghost k: nat)
    requires Ring(h, s) && k <= |s| && pos == At(h, s, k) && n != h && n !in s
    modifies n, h, s
    ensures Ring(h, s[..k] + [n] + s[k..])
  {
    InsertBefore(n, pos, h, s, k);
  }

  /** `list_add_tail`. */
  method AddTail(n: ListHead, h: ListHead, ghost s: seq<ListHead>)
    requires Ring(h, s) && n != h && n !in s
    modifies n, h, s
    ensures Ring(h, s + [n])
  {
    Insert(n, h, h, s, |s|);
    assert s[..|s|] + [n] + s[|s|..] == s + [n];
  }

  /** `list_del`: the node leaves the list and becomes a list of its own. */
  method Delete(n: ListHead, ghost h: ListHead, ghost s: seq<ListHead>, ghost k: nat)
    requires Ring(h, s) && k < |s| && n == s[k]
    modifies n, n.prev, n.next
    ensures Ring(h, s[..k] + s[k + 1..]) && Ring(n, [])
  {
    assert n.next == At(h, s, k + 1) && n.prev == At(h, s, k - 1);
    n.next.prev := n.prev;
    n.prev.next := n.next;
    n.next := n;
    n.prev := n;
    Shortcut(h, s, k);
  }

  /** The same, framed by the whole list. */
  method Remove(n: ListHead, ghost h: ListHead, ghost s: seq<ListHead>, ghost k: nat)
    requires Ring(h, s) && k < |s| && n == s[k]
    modifies h, s
    ensures Ring(h, s[..k] + s[k + 1..]) && Ring(n, [])
  {
    Delete(n, h, s, k);
  }

  /** `list_del` and then `INIT_LIST_HEAD` on the same node. */
  method DeleteInit(n: ListHead, ghost h: ListHead, ghost s: seq<ListHead>, ghost k: nat)
    requires Ring(h, s) && k < |s| && n == s[k]
    modifies h, s
    ensures Ring(h, s[..k] + s[k + 1..]) && Ring(n, [])
  {
    hide Linked;
    Remove(n, h, s, k);
    n.Init();
    Alone(n);
    assert n !in s[..k] + s[k + 1..] && n != h;
  }

  lemma Alone(n: ListHead)
    requires n.next == n && n.prev == n
    ensures Ring(n, [])
  {
  }

  /** `list_empty`. */
  method IsEmpty(h: ListHead, ghost s: seq<ListHead>) returns (b: bool)
    requires Ring(h, s)
    ensures b <==> s == []
  {
    b := h.next == h;
  }
}
