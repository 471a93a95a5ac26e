/** The Support Level's memory management as it runs: one pager or one termination from end to
    end, with the swap pool to itself, updating the tables in place. */
module SupportCode {
  import opened Queues
  import opened Vm
  import opened EntryHi

  // ---------------------------------------------------------------- what the routines amount to

  /** `flashOperation` with the outcome `ready`. */
  function FlashEffect(s: State, op: Op, v: Vpage, i: Frame, ready: bool): State {
    var s1 := s.(flashMutex := s.flashMutex[v.asid := MutexOf(s, v.asid)]);
    if !ready then s1
    else if op == Write then s1.(flash := s.flash[v := s.frames[i]])
    else s1.(frames := s.frames[i := BlockOf(s, v)])
  }

  /** The victim of a frame in use; the process number of a free one is not looked at. */
  function Victim(d: Slot, a: Asid): Vpage {
    Vpage(if 1 <= d.asid <= 8 then d.asid else a, d.page)
  }

  /** The frame choice and, for a frame in use, the eviction. */
  function EvictEffect(s: State, a: Asid, wrote: bool): State {
    var i: Frame := s.fifoNext % SWAP_POOL_SIZE;
    var s1 := s.(fifoNext := (s.fifoNext + 1) % SWAP_POOL_SIZE, choices := s.choices + 1);
    if s.swap[i].asid == SWAP_FRAME_FREE then s1
    else FlashEffect(MarkNotValid(s1, s.swap[i].pte), Write, Victim(s.swap[i], a), i, wrote)
  }

  function LoadEffect(s: State, a: Asid, p: Page, i: Frame, read: bool): State {
    var s1 := FlashEffect(s, Read, Vpage(a, p), i, read);
    if !read then Goto(s1, a, TermP)
    else Goto(MarkPresent(s1.(swap := s1.swap[i := Slot(a, p, Vpage(a, p))]), Vpage(a, p), i), a, User)
  }

  /** A whole run of `pager` for U-proc `a`. */
  function PagerEffect(s: State, a: Asid, page: Option<Page>, wrote: bool, read: bool): State {
    if page.None? then Goto(s, a, TermP) else
      var i: Frame := s.fifoNext % SWAP_POOL_SIZE;
      var s1 := EvictEffect(s, a, wrote);
      if s.swap[i].asid != SWAP_FRAME_FREE && !wrote then Goto(s1, a, TermP) else LoadEffect(s1, a, page.value, i, read)
  }

  /** The swap pool after `supTerminate` has looked at the first `n` frames. */
  function FreedUpTo(t: Pool, a: Asid, n: nat): (r: Pool)
    requires n <= SWAP_POOL_SIZE
    ensures forall i: Frame :: r[i] == if i < n && t[i].asid == a then t[i].(asid := SWAP_FRAME_FREE) else t[i]
  {
    seq(SWAP_POOL_SIZE, i requires 0 <= i < SWAP_POOL_SIZE =>
          if i < n && t[i].asid == a then t[i].(asid := SWAP_FRAME_FREE) else t[i])
  }

  /** The value of the semaphore meanwhile has no influence. */
  lemma EvictSem(s: State, x: int, a: Asid, wrote: bool)
    ensures EvictEffect(s.(swapPoolSem := x), a, wrote) == EvictEffect(s, a, wrote).(swapPoolSem := x)
    ensures EvictEffect(s, a, wrote).swapPoolSem == s.swapPoolSem
  {
    hide FlashEffect, Victim, PteOf;
    var i: Frame := s.fifoNext % SWAP_POOL_SIZE;
    var s1 := MarkNotValid(s.(fifoNext := (s.fifoNext + 1) % SWAP_POOL_SIZE, choices := s.choices + 1), s.swap[i].pte);
    SamePte(s, s1, x);
    FlashSem(s1, x, Write, Victim(s.swap[i], a), i, wrote);
  }

  lemma SamePte(s: State, r: State, x: int)
    ensures forall v :: PteOf(s.(swapPoolSem := x, fifoNext := r.fifoNext, choices := r.choices), v) == PteOf(s, v)
    ensures forall v :: PteOf(s.(fifoNext := r.fifoNext, choices := r.choices), v) == PteOf(s, v)
  {
  }

  lemma FlashSem(s: State, x: int, op: Op, v: Vpage, i: Frame, ready: bool)
    ensures FlashEffect(s.(swapPoolSem := x), op, v, i, ready) == FlashEffect(s, op, v, i, ready).(swapPoolSem := x)
    ensures FlashEffect(s, op, v, i, ready).swapPoolSem == s.swapPoolSem
  {
    hide PteOf;
  }

  lemma LoadSem(s: State, x: int, a: Asid, p: Page, i: Frame, read: bool)
    ensures LoadEffect(s.(swapPoolSem := x), a, p, i, read) == LoadEffect(s, a, p, i, read).(swapPoolSem := x)
    ensures LoadEffect(s, a, p, i, read).swapPoolSem == s.swapPoolSem
  {
  }

  // ---------------------------------------------------------------- the code

  class SupportLevel {
    const frames: array<Content>
    const swapPool: array<Slot>
    var flash: map<Vpage, Content>
    var ptes: map<Vpage, Pte>
    var tlb: map<Vpage, Pte>
    var fifoNext: int
    var swapPoolSem: int
    var flashMutex: map<Asid, int>
    ghost var rest: State

    ghost predicate Valid() {
      frames.Length == SWAP_POOL_SIZE && swapPool.Length == SWAP_POOL_SIZE
    }

    /** The machine's state; `rest` holds what no routine below has a variable for. */
    ghost function St(): State
      requires Valid()
      reads this, frames, swapPool
    {
      rest.(frames := frames[..], swap := swapPool[..], flash := flash, ptes := ptes, tlb := tlb,
            fifoNext := fifoNext, swapPoolSem := swapPoolSem, flashMutex := flashMutex)
    }

    method InitSwapStructs()
      requires Valid()
      modifies this`swapPoolSem, this`fifoNext, swapPool
      ensures Valid() && swapPoolSem == 1 && fifoNext == 0
      ensures forall i :: 0 <= i < SWAP_POOL_SIZE ==> swapPool[i] == old(swapPool[i]).(asid := SWAP_FRAME_FREE)
    {
      swapPoolSem := 1;
      fifoNext := 0;
      for i := 0 to SWAP_POOL_SIZE
        invariant forall j :: 0 <= j < i ==> swapPool[j] == old(swapPool[j]).(asid := SWAP_FRAME_FREE)
        invariant forall j :: i <= j < SWAP_POOL_SIZE ==> swapPool[j] == old(swapPool[j])
        modifies swapPool
      {
        swapPool[i] := swapPool[i].(asid := SWAP_FRAME_FREE);
      }
    }

    /** The page table words of a U-proc: every page named, none present. */
    static method InitUprocPageTable(asid: Asid, hi: array<Word>, lo: array<Word>)
      requires hi.Length == lo.Length == 32 && hi != lo
      modifies hi, lo
      ensures forall i: Page :: hi[i] == PageEntryHi(asid, i) && lo[i] == DIRTYON && !IsValid(lo[i])
    {
      for i := 0 to UPROC_TEXTPAGES
        invariant forall j: Page :: j < i ==> hi[j] == PageEntryHi(asid, j) && lo[j] == DIRTYON
      {
        hi[i] := (KUSEG_VPN_START + i) * PAGESIZE + asid * ASIDUNIT;
        lo[i] := DIRTYON;
      }
      hi[UPROC_STACKPAGE] := KUSEG_STACK_VPN * PAGESIZE + asid * ASIDUNIT;
      lo[UPROC_STACKPAGE] := DIRTYON;
    }

    method MarkPageNotValid(v: Vpage)
      requires Valid()
      modifies this`ptes, this`tlb
      ensures Valid() && St() == MarkNotValid(old(St()), v)
    {
      ptes := ptes[v := (if v in ptes then ptes[v] else NOT_PRESENT).(valid := false)];
      tlb := map[];
    }

    method MarkPagePresent(v: Vpage, i: Frame)
      requires Valid()
      modifies this`ptes, this`tlb
      ensures Valid() && St() == MarkPresent(old(St()), v, i)
    {
      ptes := ptes[v := Pte(true, i)];
      tlb := map[];
      tlb := tlb[v := Pte(true, i)];
    }

    /** The device moves a block. */
    method MoveBlock(v: Vpage, i: Frame, op: Op)
      requires Valid()
      modifies this`flash, frames
      ensures Valid()
      ensures St() == if op == Write then old(St()).(flash := old(flash)[v := old(frames[i])])
                      else old(St()).(frames := old(frames[..])[i := BlockOf(old(St()), v)])
    {
      if op == Write {
        flash := flash[v := frames[i]];
      } else {
        frames[i] := if v in flash then flash[v] else Blank();
        assert frames[..] == old(frames[..])[i := frames[i]];
      }
    }

    /** P on the device's mutex, the device's work, V. */
    method FlashOperation(v: Vpage, i: Frame, op: Op, ready: bool) returns (status: bool)
      requires Valid()
      modifies this`flashMutex, this`flash, frames
      ensures Valid() && status == ready && St() == FlashEffect(old(St()), op, v, i, ready)
    {
      var m := if v.asid in flashMutex then flashMutex[v.asid] else 1;
      flashMutex := flashMutex[v.asid := m - 1];
      if ready {
        MoveBlock(v, i, op);
      }
      flashMutex := flashMutex[v.asid := flashMutex[v.asid] + 1];
      assert flashMutex == old(flashMutex)[v.asid := m];
      status := ready;
    }

    /** The first half of `pager`: choose a frame, evict the page that inhabits it. */
    method ChooseFrame(a: Asid, wrote: bool) returns (i: Frame, ok: bool)
      requires Valid()
      modifies this, frames
      ensures Valid() && i == old(fifoNext) % SWAP_POOL_SIZE && St() == EvictEffect(old(St()), a, wrote)
      ensures ok == (wrote || old(swapPool[i].asid) == SWAP_FRAME_FREE) && swapPoolSem == old(swapPoolSem)
    {
      hide FlashEffect, MarkNotValid;
      i := fifoNext % SWAP_POOL_SIZE;
      fifoNext := (fifoNext + 1) % SWAP_POOL_SIZE;
      rest := rest.(choices := rest.choices + 1);
      ok := true;
      if swapPool[i].asid != SWAP_FRAME_FREE {
        var d := swapPool[i];
        MarkPageNotValid(d.pte);
        ok := FlashOperation(Victim(d, a), i, Write, wrote);
      }
    }

    /** The second half: read the page, enter it in the swap pool, publish it. */
    method LoadPage(a: Asid, p: Page, i: Frame, read: bool)
      requires Valid()
      modifies this, frames, swapPool
      ensures Valid() && St() == LoadEffect(old(St()), a, p, i, read) && swapPoolSem == old(swapPoolSem)
    {
      hide FlashEffect, MarkPresent;
      var ok := FlashOperation(Vpage(a, p), i, Read, read);
      if !ok {
        rest := Goto(rest, a, TermP);
        return;
      }
      label loaded:
      swapPool[i] := Slot(a, p, Vpage(a, p));
      assert swapPool[..] == old@loaded(swapPool[..])[i := swapPool[i]];
      MarkPagePresent(Vpage(a, p), i);
      rest := Goto(rest, a, User);
    }

    /** `pager`, for a page fault on `page` (`None` outside the logical address space), with the
        outcomes `wrote` and `read` of the flash operations it may need. */
    method Pager(a: Asid, page: Option<Page>, wrote: bool, read: bool)
      requires Valid() && swapPoolSem == 1
      modifies this, frames, swapPool
      ensures Valid() && St() == PagerEffect(old(St()), a, page, wrote, read)
    {
      hide EvictEffect, LoadEffect;
      EvictSem(St(), swapPoolSem - 1, a, wrote);
      swapPoolSem := swapPoolSem - 1;
      if page.None? {
        swapPoolSem := swapPoolSem + 1;
        rest := Goto(rest, a, TermP);
        return;
      }
      var i, ok := ChooseFrame(a, wrote);
      if !ok {
        rest := Goto(rest, a, TermP);
        swapPoolSem := swapPoolSem + 1;
        return;
      }
      LoadSem(EvictEffect(old(St()), a, wrote), swapPoolSem, a, page.value, i, read);
      LoadPage(a, page.value, i, read);
      swapPoolSem := swapPoolSem + 1;
    }

    /** The loop of `supTerminate`. */
    method FreeFrames(a: Asid)
      requires Valid()
      modifies swapPool
      ensures Valid() && St() == old(St()).(swap := FreedUpTo(old(swapPool[..]), a, SWAP_POOL_SIZE))
    {
      for i := 0 to SWAP_POOL_SIZE
        invariant swapPool[..] == FreedUpTo(old(swapPool[..]), a, i)
      {
        if swapPool[i].asid == a {
          swapPool[i] := swapPool[i].(asid := SWAP_FRAME_FREE);
        }
      }
    }
  }
}
