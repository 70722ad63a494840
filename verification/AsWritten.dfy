/** What the memory and the MMU do as they are written where the model repairs them, and exactly when that is right. */
module AsWritten {
  import opened Processes
  import opened Clock
  import opened Paging
  import opened PagingProcess
  import opened Tables

  /** memory/src/utils.c:111-118: the hand wraps at the frames of the whole memory. */
  function IncrementClockHand(hand: nat, framesInMemory: nat): nat
    requires framesInMemory > 0
  {
    if hand + 1 >= framesInMemory then (hand + 1) % framesInMemory else hand + 1
  }

  /** The hand stays inside the frames of the process exactly when the memory has no more frames than one process. */
  lemma HandStaysInside(n: nat, framesInMemory: nat)
    requires n > 0 && framesInMemory > 0
    ensures (forall hand: nat :: hand < n ==> IncrementClockHand(hand, framesInMemory) < n) <==> framesInMemory <= n
  {
    if framesInMemory > n { assert IncrementClockHand(n - 1, framesInMemory) == n; }
  }

  /** memory/src/utils.c:65-74: a slot counts as taken when it has a frame at all. */
  function HeldSlots(slots: seq<Slot>): nat {
    if slots == [] then 0 else (if slots[0].frame != -1 then 1 else 0) + HeldSlots(slots[1..])
  }

  predicate HasFreeFrame(slots: seq<Slot>, framesPerProcess: nat) { HeldSlots(slots) < framesPerProcess }

  lemma {:induction false} AllAreHeld(slots: seq<Slot>)
    requires forall i :: 0 <= i < |slots| ==> slots[i].frame >= 0
    ensures HeldSlots(slots) == |slots|
  {
    if slots != [] { AllAreHeld(slots[1..]); }
  }

  /** So a process that has its frames is never found to have a free one: the answer is right exactly when there is
      none. Otherwise the clock looks into a slot whose page_data is NULL. */
  lemma FreeFramesAreNotFound(g: Geometry, p: Process)
    requires |p.slots| == g.framesPerProcess && Resident(p)
    ensures !HasFreeFrame(p.slots, g.framesPerProcess)
    ensures var free := FirstFree(p.slots, 0);
            (HasFreeFrame(p.slots, g.framesPerProcess) <==> free < |p.slots|) <==> free == |p.slots|
  {
    AllAreHeld(p.slots);
  }

  /** memory/src/page_table.c:33: every level-2 table numbers its pages from 0, and the number is the page's slot in
      swap. */
  function SwapSlot(page: nat, entriesPerTable: nat): nat
    requires entriesPerTable > 0
  {
    page % entriesPerTable
  }

  /** The pages of a process have slots of their own exactly when they fit one table. */
  lemma SlotsCollide(pages: nat, entriesPerTable: nat)
    requires entriesPerTable > 0
    ensures (forall k: nat, l: nat :: k < l < pages ==> SwapSlot(k, entriesPerTable) != SwapSlot(l, entriesPerTable))
            <==> pages <= entriesPerTable
  {
    if pages > entriesPerTable {
      assert SwapSlot(0, entriesPerTable) == 0;
      assert SwapSlot(entriesPerTable, entriesPerTable) == 0;
    }
  }

  /** memory/src/swap.c:22-33 with the file opened for appending: what is written comes at the end. */
  function AppendPage(file: seq<byte>, page: Page): seq<byte> { file + page }

  /** A page written over one the file already has is lost: it reads back as it was before, which is right only if that
      was the same. */
  lemma AppendedPageIsLost(file: seq<byte>, size: nat, k: nat, page: Page)
    requires |page| == size && Start(k, size) + size <= |file|
    ensures Chunk(AppendPage(file, page), size, k) == Chunk(file, size, k)
    ensures Chunk(AppendPage(file, page), size, k) == page <==> Chunk(file, size, k) == page
  {
  }

  /** cpu/src/cpu.c:470: the offset is added to the number of the frame. */
  function PhysicalAddress(frame: nat, offset: nat): nat { frame + offset }

  /** Right for every offset exactly in frame 0, or where a page is a byte. */
  lemma PhysicalAddressIsRight(frame: nat, offset: nat, pageSize: nat)
    ensures PhysicalAddress(frame, offset) == Number(frame, offset, pageSize) <==> frame == 0 || pageSize == 1
  {
    if frame > 0 && pageSize != 1 {
      if pageSize > 1 { Monotone(2, pageSize, frame); }
      assert frame * pageSize != frame;
    }
  }

  /** memory/src/memory.c:330 and 359: a request for address 0 gets no answer, and the CPU waits for it for ever. */
  predicate Answers(address: nat) { address != 0 }

  /** Of the addresses of words in memory, exactly the first of frame 0 is refused. */
  lemma OneAddressIsRefused(frame: nat, offset: nat, pageSize: nat)
    requires offset < pageSize
    ensures !Answers(Number(frame, offset, pageSize)) <==> frame == 0 && offset == 0
  {
    if frame > 0 { Monotone(1, frame, pageSize); }
  }

  /** memory/src/memory.c:342 and 371: nothing ever marks a page used or modified. Then both policies take whatever the
      hand points at: replacement is first in, first out. */
  lemma ClockIsFirstInFirstOut(clockM: bool, bits: seq<Bits>, hand: nat)
    requires hand < |bits| && forall i :: 0 <= i < |bits| ==> !bits[i].used && !bits[i].modified
    ensures Replacement(clockM, bits, hand) == Outcome(hand, bits, Advance(hand, |bits|))
  {
    LeastIsUnique(clockM, bits, hand, 0);
  }

  // ---- COPY ---------------------------------------------------------------------------

  /** cpu/src/cpu.c:306-309: both addresses are translated before either is used. The first page is still where it was
      unless the second is absent, no slot is free, and the clock comes to its slot. */
  lemma SecondTranslationMayEvict(g: Geometry, p: Process, bitmap: seq<bool>, ram: seq<Page>, k: nat, l: nat)
    requires ProcOk(g, p, bitmap, ram) && RamOk(g, ram) && |ram| == |bitmap| && Resident(p) && Fits(p, ram)
    requires k < |p.swap| && l < |p.swap| && p.pages[k].present
    ensures Translated(g, p, ram, l).p.pages[k].present
       <==> p.pages[l].present || FirstFree(p.slots, 0) < |p.slots|
            || p.slots[Replacement(g.clockM, BitsOf(p), p.hand).victim].page != k
  {
    hide Replacement, PageOk, SlotOk;
    if !p.pages[l].present && FirstFree(p.slots, 0) == |p.slots| {
      var o := Replacement(g.clockM, BitsOf(p), p.hand);
      WithUsedChangesPages(p, o.bits);
    }
  }

  /** With one frame for each process, a COPY between two pages always loses the first before it is used. */
  lemma OneFrameCannotCopy(g: Geometry, p: Process, bitmap: seq<bool>, ram: seq<Page>, k: nat, l: nat)
    requires ProcOk(g, p, bitmap, ram) && RamOk(g, ram) && |ram| == |bitmap| && Resident(p) && Fits(p, ram)
    requires g.framesPerProcess == 1 && k < |p.swap| && l < |p.swap| && p.pages[k].present && k != l
    ensures !Translated(g, p, ram, l).p.pages[k].present
    ensures Translated(g, p, ram, l).p.pages[l].frame == p.pages[k].frame
  {
    hide Replacement;
    PresentIsInASlot(g, p, bitmap, ram, k);
    assert SlotOf(p.slots, k) == 0;
    if p.pages[l].present { PresentIsInASlot(g, p, bitmap, ram, l); }
    SecondTranslationMayEvict(g, p, bitmap, ram, k, l);
    FaultedFrame(g, p, ram, l);
  }
}
