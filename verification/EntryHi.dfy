/** The arithmetic of page table entries: virtual page numbers, ASIDs, frames and the valid bit
    inside 32-bit words. */
module EntryHi {
  import opened Queues
  import opened Vm

  const KUSEG_VPN_START := 0x80000
  const KUSEG_STACK_VPN := 0xBFFFF
  const UPROC_TEXTPAGES := 31
  const UPROC_STACKPAGE := 31
  const PAGESIZE := 4096
  const ASIDUNIT := 64
  const VALIDON := 0x200
  const DIRTYON := 0x400
  const SWAP_POOL_START := 0x20020000

  type Word = w: int | 0 <= w < 0x1_0000_0000

  /** Bits 12 to 31. */
  function VpnOf(hi: Word): int {
    hi / PAGESIZE % 0x100000
  }

  /** Bits 6 to 11. */
  function AsidOf(hi: Word): int {
    hi / ASIDUNIT % 64
  }

  /** `vpnToIndex`, -1 for a page outside the logical address space. */
  function VpnToIndex(hi: Word): int {
    var vpn := VpnOf(hi);
    if vpn == KUSEG_STACK_VPN then UPROC_STACKPAGE
    else if KUSEG_VPN_START <= vpn < KUSEG_VPN_START + UPROC_TEXTPAGES then vpn - KUSEG_VPN_START
    else -1
  }

  /** The index the TLB-refill handler computes, without a range check. */
  function RefillIndex(hi: Word): int {
    if VpnOf(hi) == KUSEG_STACK_VPN then UPROC_STACKPAGE else VpnOf(hi) - KUSEG_VPN_START
  }

  /** The EntryHI of page `i` in the page table of `asid`, as `initUprocPageTable` fills it in. */
  function PageEntryHi(asid: Asid, i: Page): (hi: Word) {
    (if i == UPROC_STACKPAGE then KUSEG_STACK_VPN else KUSEG_VPN_START + i) * PAGESIZE + asid * ASIDUNIT
  }

  /** Decoding a filled-in entry gives the page and the ASID back. */
  lemma EntryRoundTrip(asid: Asid, i: Page)
    ensures VpnToIndex(PageEntryHi(asid, i)) == RefillIndex(PageEntryHi(asid, i)) == i
    ensures AsidOf(PageEntryHi(asid, i)) == asid
  {
    var vpn := if i == UPROC_STACKPAGE then KUSEG_STACK_VPN else KUSEG_VPN_START + i;
    Fields(vpn, asid);
  }

  lemma Fields(vpn: int, asid: Asid)
    requires 0 <= vpn < 0x100000
    ensures (vpn * PAGESIZE + asid * ASIDUNIT) / PAGESIZE % 0x100000 == vpn
    ensures (vpn * PAGESIZE + asid * ASIDUNIT) / ASIDUNIT % 64 == asid
  {
  }

  /** Different pages have different entries, so the TLB tells them apart. */
  lemma EntryInjective(v: Vpage, w: Vpage)
    requires PageEntryHi(v.asid, v.page) == PageEntryHi(w.asid, w.page)
    ensures v == w
  {
    EntryRoundTrip(v.asid, v.page);
    EntryRoundTrip(w.asid, w.page);
  }

  /** For every EntryHI inside the logical address space the pager and the refill handler agree,
      on a page whose entry names the same virtual page. */
  lemma PagerAndRefillAgree(hi: Word, asid: Asid)
    requires VpnToIndex(hi) >= 0
    ensures VpnToIndex(hi) < 32 && RefillIndex(hi) == VpnToIndex(hi)
    ensures VpnOf(PageEntryHi(asid, VpnToIndex(hi))) == VpnOf(hi)
  {
    Fields(VpnOf(hi), asid);
  }

  /** The refill handler stays inside the page table for exactly these addresses: the pages of
      the logical address space, and the one page behind the text, which it takes for the stack. */
  lemma RefillInRange(hi: Word)
    ensures 0 <= RefillIndex(hi) < 32 <==> VpnToIndex(hi) >= 0 || VpnOf(hi) == KUSEG_VPN_START + UPROC_TEXTPAGES
  {
  }

  // ---------------------------------------------------------------- EntryLO

  function FrameAddr(i: Frame): int {
    SWAP_POOL_START + i * PAGESIZE
  }

  /** The word `markPagePresent` stores: the bits below the frame address are free. */
  function PresentLo(i: Frame): (lo: Word) {
    FrameAddr(i) + DIRTYON + VALIDON
  }

  predicate IsValid(lo: Word) {
    lo / VALIDON % 2 == 1
  }

  /** What `markPageNotValid` leaves: the valid bit is cleared and nothing else. */
  function NotValidLo(lo: Word): (r: Word) {
    if IsValid(lo) then lo - VALIDON else lo
  }

  function FrameNo(lo: Word): int {
    (lo - lo % PAGESIZE - SWAP_POOL_START) / PAGESIZE
  }

  /** A stored entry reads back as present in its frame; cleared, as not present, with the frame
      and the dirty bit still there. */
  lemma LoRoundTrip(i: Frame)
    ensures IsValid(PresentLo(i)) && FrameNo(PresentLo(i)) == i
    ensures var lo := NotValidLo(PresentLo(i));
            !IsValid(lo) && FrameNo(lo) == i && lo / DIRTYON % 2 == 1 && NotValidLo(lo) == lo
    ensures !IsValid(DIRTYON)
  {
  }
}
