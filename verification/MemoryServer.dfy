/** The memory server of memory/src: its lists, its bitmap and its bytes change in place; each operation is proved to do
    to the processes it serves what Paging says. */
module MemoryServer {
  import opened Processes
  import opened Clock
  import opened Paging
  import opened PagingFrames
  import opened PagingProcess
  import opened Tables
  import opened MemoryStore
  import PagingRefinement
  import PagingRuns

  class Server {
    const g: Geometry
    var level1Tables: seq<seq<nat>>
    var level2Tables: Level2
    var processesFrames: seq<ProcessFrames>
    var swap: map<nat, seq<byte>>
    const bitmap: array<bool>
    const memory: array<byte>

    /** memory_init: no process, no frame assigned, every byte zero. */
    constructor (g: Geometry, memorySize: nat)
      requires GeometryOk(g) && g.framesInMemory == memorySize / g.pageSize
      ensures this.g == g && fresh(bitmap) && fresh(memory)
      ensures Valid() && clients == map[] && Abs() == PagingRuns.Initial(g).m
    {
      this.g := g;
      level1Tables, level2Tables, processesFrames, swap, clients := [], [], [], map[], map[];
      bitmap := new bool[g.framesInMemory](i => false);
      memory := new byte[memorySize](i => 0);
      new;
      PagesFitTheFile(g, memory[..]);
      hide Start;
      forall f: nat | f < g.framesInMemory ensures Ram()[f] == Zeros(g.pageSize) {
        PieceFits(f, g.framesInMemory, g.pageSize);
      }
      assert Ram() == PagingRuns.Initial(g).m.ram;
    }

    ghost function Lists(): Directory
      reads this
    {
      Directory(level1Tables, level2Tables, processesFrames, swap)
    }

    ghost predicate Sized()
      reads this
    {
      GeometryOk(g) && bitmap.Length == g.framesInMemory && g.framesInMemory * g.pageSize <= memory.Length
    }

    /** The memory, frame by frame. */
    ghost function Ram(): (r: seq<Page>)
      requires Sized()
      reads this, memory
      ensures |r| == g.framesInMemory
    {
      Chunks(memory[..], g.pageSize, g.framesInMemory)
    }

    /** The process a PCB's indexes lead to. */
    ghost predicate Has(h: Handle, pid: nat)
      reads this
    {
      Sized() && Linked(g, Lists(), h, pid)
    }

    ghost function Process(h: Handle, pid: nat): Process
      requires Has(h, pid)
      reads this
    {
      ProcessOf(g, Lists(), h, pid)
    }

    ghost function View(h: Handle, pid: nat): Core
      requires Has(h, pid)
      reads this, memory
    {
      Core(Process(h, pid), Ram())
    }

    /** Only this process has changed. */
    twostate predicate Only(h: Handle, pid: nat)
      reads this
    {
      && old(Has(h, pid)) && Has(h, pid) && Private(old(Lists()), Lists(), h, pid)
    }

    // ---- Frames and swap --------------------------------------------------------------

    /** save_swap: the frame goes to its page of the swap file, in place. The source opens the file for appending, see
        AsWritten.AppendedPageIsLost. */
    method SaveSwap(frame: nat, page: nat, pid: nat, ghost h: Handle)
      requires Has(h, pid) && frame < g.framesInMemory && page < |Process(h, pid).swap|
      modifies this`swap
      ensures Only(h, pid)
      ensures Process(h, pid) == old(Process(h, pid)).(swap := old(Process(h, pid)).swap[page := Ram()[frame]])
    {
      var size := g.pageSize;
      PieceFits(frame, g.framesInMemory, size);
      PieceFits(page, PageCount(g, swap[pid]), size);
      PagesFitTheFile(g, swap[pid]);
      var value := memory[Start(frame, size)..Start(frame, size) + size];
      var file := swap[pid];
      var to := Start(page, size);
      SwapChanges(g, Lists(), h, pid, page, value, file[..to] + value + file[to + size..]);
      swap := swap[pid := file[..to] + value + file[to + size..]];
    }

    /** get_swap: the page comes from the swap file into the frame. */
    method GetSwap(frame: nat, page: nat, pid: nat, ghost h: Handle)
      requires Has(h, pid) && frame < g.framesInMemory && page < |Process(h, pid).swap|
      modifies memory
      ensures Ram() == old(Ram())[frame := Process(h, pid).swap[page]]
    {
      var size := g.pageSize;
      PieceFits(frame, g.framesInMemory, size);
      PieceFits(page, PageCount(g, swap[pid]), size);
      PagesFitTheFile(g, swap[pid]);
      var value := swap[pid][Start(page, size)..Start(page, size) + size];
      var to := Start(frame, size);
      ghost var before := memory[..];
      forall i | 0 <= i < size { memory[to + i] := value[i]; }
      assert memory[..] == before[..to] + value + before[to + size..];
      WriteChunk(before, memory[..], size, g.framesInMemory, frame, value);
    }

    // ---- Page entries and slots -------------------------------------------------------

    function EntryOf(r: PageRef): PageEntry
      requires InStore(Lists(), r)
      reads this
    {
      level2Tables[r.table][r.entry]
    }

    method SetEntry(r: PageRef, e: PageEntry, ghost pid: nat, ghost h: Handle)
      requires Has(h, pid) && r.Ref? && PointsInto(r, level1Tables[h.pt], g.entriesPerTable) && InStore(Lists(), r)
      requires e.page == EntryOf(r).page < |Process(h, pid).pages|
      modifies this`level2Tables
      ensures Only(h, pid)
      ensures Process(h, pid) == old(Process(h, pid)).(pages := old(Process(h, pid)).pages[e.page := ToEntry(e)])
      ensures InStore(Lists(), r) && EntryOf(r) == e
      ensures forall q :: InStore(old(Lists()), q) ==> InStore(Lists(), q) && EntryOf(q).page == old(EntryOf(q)).page
      ensures forall q :: InStore(old(Lists()), q) && q != r ==> EntryOf(q) == old(EntryOf(q))
    {
      EntryChanges(g, Lists(), h, pid, r, e);
      level2Tables := Set(level2Tables, r, e);
    }

    method SetPageData(fi: nat, i: nat, r: PageRef, ghost pid: nat, ghost h: Handle)
      requires Has(h, pid) && fi == h.fi && i < |processesFrames[fi].frames|
      requires PointsInto(r, level1Tables[h.pt], g.entriesPerTable)
      modifies this`processesFrames
      ensures Only(h, pid)
      ensures var p := old(Process(h, pid));
              Process(h, pid) == p.(slots := p.slots[i := p.slots[i].(page := NumberOf(r, level2Tables))])
    {
      SlotChanges(g, Lists(), h, pid, i, r);
      processesFrames := processesFrames[fi := processesFrames[fi].(frames :=
                           processesFrames[fi].frames[i := processesFrames[fi].frames[i].(pageData := r)])];
    }

    method IncrementClockHand(fi: nat, ghost pid: nat, ghost h: Handle)
      requires Has(h, pid) && fi == h.fi
      modifies this`processesFrames
      ensures Only(h, pid)
      ensures Process(h, pid)
          == old(Process(h, pid)).(hand := Advance(old(Process(h, pid)).hand, |old(Process(h, pid)).slots|))
      ensures processesFrames[fi].frames == old(processesFrames[fi].frames)
    {
      var hand := processesFrames[fi].clockHand + 1;
      if hand >= |processesFrames[fi].frames| { hand := 0; }
      HandChanges(g, Lists(), h, pid, hand);
      processesFrames := processesFrames[fi := processesFrames[fi].(clockHand := hand)];
    }

    /** A slot of the process and the page entry it points at. */
    lemma SlotInTables(i: nat, h: Handle, pid: nat)
      requires Has(h, pid) && i < |Process(h, pid).slots|
      ensures |processesFrames[h.fi].frames| == |Process(h, pid).slots|
      ensures processesFrames[h.fi].clockHand == Process(h, pid).hand
      ensures var s := processesFrames[h.fi].frames[i];
              && s.frame == Process(h, pid).slots[i].frame
              && (Process(h, pid).slots[i].page >= 0 ==>
                    && s.pageData.Ref? && PointsInto(s.pageData, level1Tables[h.pt], g.entriesPerTable)
                    && InStore(Lists(), s.pageData)
                    && EntryOf(s.pageData).page == Process(h, pid).slots[i].page < |Process(h, pid).pages|
                    && ToEntry(EntryOf(s.pageData)) == Process(h, pid).pages[Process(h, pid).slots[i].page])
    {
      var s := processesFrames[h.fi].frames[i];
      if s.pageData.Ref? { RefIsInStore(g, Lists(), h, pid, s.pageData); }
    }

    lemma RefHasAPage(i: nat, h: Handle, pid: nat)
      requires Has(h, pid) && i < |processesFrames[h.fi].frames| && processesFrames[h.fi].frames[i].pageData.Ref?
      ensures i < |Process(h, pid).slots| && Process(h, pid).slots[i].page >= 0
    {
      RefIsInStore(g, Lists(), h, pid, processesFrames[h.fi].frames[i].pageData);
    }

    // ---- Replacement ------------------------------------------------------------------

    /** The first half of _replace; page_data is left to the second half. */
    method Evict(fi: nat, i: nat, pid: nat, ghost h: Handle)
      requires Has(h, pid) && fi == h.fi && Fits(Process(h, pid), Ram())
      requires i < |processesFrames[fi].frames| && processesFrames[fi].frames[i].pageData.Ref?
      modifies this`level2Tables, this`swap
      ensures Only(h, pid)
      ensures old(Process(h, pid)).slots[i].page >= 0
      ensures Process(h, pid) == Evicted(old(Process(h, pid)), old(Ram()), i).(slots := old(Process(h, pid)).slots)
      ensures forall q :: InStore(old(Lists()), q) ==> InStore(Lists(), q) && EntryOf(q).page == old(EntryOf(q)).page
    {
      hide Wired, ProcessOf, Private, Chunks;
      ghost var lists := Lists();
      PrivateIsReflexive(lists, h, pid);
      RefHasAPage(i, h, pid);
      SlotInTables(i, h, pid);
      var slot := processesFrames[fi].frames[i];
      var page := EntryOf(slot.pageData);
      if page.present && page.modified {
        SaveSwap(slot.frame, page.page, pid, h);
        ghost var saved := Lists();
        SetEntry(slot.pageData, page.(modified := false), pid, h);
        PrivateIsTransitive(lists, saved, Lists(), h, pid);
      }
      ghost var between := Lists();
      SetEntry(slot.pageData, EntryOf(slot.pageData).(present := false), pid, h);
      PrivateIsTransitive(lists, between, Lists(), h, pid);
    }

    /** The second half of _replace, and the whole of a load into a free slot. */
    method Load(fi: nat, i: nat, incoming: PageRef, pid: nat, ghost h: Handle)
      requires Has(h, pid) && fi == h.fi && Fits(Process(h, pid), Ram()) && i < |processesFrames[fi].frames|
      requires incoming.Ref? && PointsInto(incoming, level1Tables[h.pt], g.entriesPerTable)
      requires InStore(Lists(), incoming)
      requires EntryOf(incoming).page < |Process(h, pid).swap|
      modifies this`level2Tables, this`processesFrames, memory
      ensures Only(h, pid)
      ensures View(h, pid) == Loaded(old(Process(h, pid)), old(Ram()), i, old(EntryOf(incoming)).page)
    {
      var frame := processesFrames[fi].frames[i].frame;
      assert Process(h, pid).slots[i].frame == frame;
      RefIsInStore(g, Lists(), h, pid, incoming);
      GetSwap(frame, EntryOf(incoming).page, pid, h);
      SetEntry(incoming, EntryOf(incoming).(present := true, frame := frame), pid, h);
      SetPageData(fi, i, incoming, pid, h);
    }

    /** _replace. */
    method Replace(fi: nat, i: nat, incoming: PageRef, pid: nat, ghost h: Handle)
      requires Has(h, pid) && fi == h.fi && Fits(Process(h, pid), Ram())
      requires i < |processesFrames[fi].frames| && processesFrames[fi].frames[i].pageData.Ref?
      requires incoming.Ref? && PointsInto(incoming, level1Tables[h.pt], g.entriesPerTable)
      requires InStore(Lists(), incoming)
      requires EntryOf(incoming).page < |Process(h, pid).swap|
      modifies this`level2Tables, this`processesFrames, this`swap, memory
      ensures Only(h, pid)
      ensures old(Process(h, pid)).slots[i].page >= 0
      ensures var p, ram := old(Process(h, pid)), old(Ram());
              Fits(Evicted(p, ram, i), ram)
                  && View(h, pid) == Loaded(Evicted(p, ram, i), ram, i, old(EntryOf(incoming)).page)
    {
      ghost var p, ram := Process(h, pid), Ram();
      Evict(fi, i, pid, h);
      LoadOverwrites(p, ram, i, EntryOf(incoming).page);
      Load(fi, i, incoming, pid, h);
    }

    /** The bits of a process when turn j comes to distance k. */
    ghost predicate Scanning(p: Process, clockM: bool, j: nat, k: nat, h: Handle, pid: nat)
      requires Occupied(p) && p.hand < |p.slots| && k <= |p.slots|
      reads this
    {
      && Has(h, pid)
      && Process(h, pid)
          == WithUsed(p,
              Cleared(BitsOf(p), p.hand, PassedSoFar(clockM, j, k, |p.slots|))).(hand := Spot(p.hand, k, |p.slots|))
    }

    /** What the turn sees at distance k. */
    lemma Sees(p: Process, clockM: bool, j: nat, k: nat, h: Handle, pid: nat)
      requires Occupied(p) && p.hand < |p.slots| && k < |p.slots| && j < 2 && Scanning(p, clockM, j, k, h, pid)
      ensures Process(h, pid).hand < |p.slots| == |Process(h, pid).slots| && Process(h, pid).slots == p.slots
      ensures var at, q := Process(h, pid).hand, Process(h, pid);
              && at == Spot(p.hand, k, |p.slots|)
              && q.pages[p.slots[at].page].modified == BitsOf(p)[at].modified
              && q.pages[p.slots[at].page].used == (BitsOf(p)[at].used && !(j == 1 && !clockM))
    {
      var c := Cleared(BitsOf(p), p.hand, PassedSoFar(clockM, j, k, |p.slots|));
      LooksAt(clockM, BitsOf(p), p.hand, j, k);
      SlotOfItsPage(p, Spot(p.hand, k, |p.slots|));
    }

    /** The replacement and the step of the hand, at the frame where a turn stops. */
    method ReplaceAt(fi: nat, at: nat, incoming: PageRef, pid: nat, ghost h: Handle, ghost p: Process,
            ghost bits: seq<Bits>)
      requires Has(h, pid) && fi == h.fi && Fits(p, Ram()) && at < |p.slots| == |bits| && p.slots[at].page >= 0
      requires Process(h, pid) == WithUsed(p, bits).(hand := at)
      requires incoming.Ref? && PointsInto(incoming, level1Tables[h.pt], g.entriesPerTable)
      requires InStore(Lists(), incoming)
      requires EntryOf(incoming).page < |p.swap|
      modifies this`level2Tables, this`processesFrames, this`swap, memory
      ensures Only(h, pid)
      ensures View(h, pid)
          == Replaced(p, old(Ram()), Outcome(at, bits, Advance(at, |p.slots|)), old(EntryOf(incoming)).page)
    {
      hide Wired, ProcessOf, Private, Loaded, Evicted, Slots, Pages;
      ghost var ram, before, number := Ram(), Lists(), EntryOf(incoming).page;
      WithUsedFits(p, ram, bits, at);
      HandCommutes(WithUsed(p, bits).(hand := at), ram, at, number, Advance(at, |p.slots|));
      SlotInTables(at, h, pid);
      Replace(fi, at, incoming, pid, h);
      ghost var between := Lists();
      IncrementClockHand(fi, pid, h);
      PrivateIsTransitive(before, between, Lists(), h, pid);
    }

    /** The frame at the hand is passed by: its used bit may be cleared, and the hand moves on. */
    method PassBy(fi: nat, clear: bool, incoming: PageRef, pid: nat, ghost h: Handle)
      requires Has(h, pid) && fi == h.fi && Occupied(Process(h, pid)) && Process(h, pid).hand < |Process(h, pid).slots|
      requires InStore(Lists(), incoming)
      modifies this`level2Tables, this`processesFrames
      ensures Only(h, pid) && processesFrames[fi].frames == old(processesFrames[fi].frames)
      ensures InStore(Lists(), incoming) && EntryOf(incoming).page == old(EntryOf(incoming)).page
      ensures var p := old(Process(h, pid));
              var k := p.slots[p.hand].page;
              && |Process(h, pid).pages| == |p.pages|
              && Process(h, pid) == p.(hand := Advance(p.hand, |p.slots|),
                                       pages := if clear then p.pages[k := p.pages[k].(used := false)] else p.pages)
    {
      hide Wired, ProcessOf, Private, Slots, Pages;
      ghost var before := Lists();
      SlotInTables(Process(h, pid).hand, h, pid);
      if clear {
        var at := processesFrames[fi].frames[processesFrames[fi].clockHand].pageData;
        SetEntry(at, EntryOf(at).(used := false), pid, h);
        ghost var between := Lists();
        IncrementClockHand(fi, pid, h);
        PrivateIsTransitive(before, between, Lists(), h, pid);
      } else {
        IncrementClockHand(fi, pid, h);
      }
    }

    /** The body of the turns: the frame at the hand is replaced, or it loses its used bit, or the hand just moves
        on. */
    method Look(fi: nat, checkModified: bool, j: nat, incoming: PageRef, pid: nat, ghost h: Handle, ghost p: Process,
            ghost k: nat)
      returns (frame: int)
      requires Occupied(p) && p.hand < |p.slots| && k < |p.slots| && j < 2
      requires Scanning(p, checkModified, j, k, h, pid) && Seen(checkModified, BitsOf(p), p.hand, j, k)
      requires fi == h.fi && Fits(p, Ram())
      requires incoming.Ref? && PointsInto(incoming, level1Tables[h.pt], g.entriesPerTable)
      requires InStore(Lists(), incoming)
      requires EntryOf(incoming).page < |p.swap|
      modifies this`level2Tables, this`processesFrames, this`swap, memory
      ensures Only(h, pid)
      ensures frame == -1 ==>
                && Scanning(p, checkModified, j, k + 1, h, pid) && Seen(checkModified, BitsOf(p), p.hand, j, k + 1)
                && Ram() == old(Ram()) && swap == old(swap)
                && processesFrames[fi].frames == old(processesFrames[fi].frames)
                && InStore(Lists(), incoming) && EntryOf(incoming).page == old(EntryOf(incoming)).page
      ensures frame != -1 ==>
                && Finds(checkModified, BitsOf(p), p.hand)
                && Probes(checkModified, BitsOf(p), p.hand) == j * |p.slots| + k + 1
                && var o := Replacement(checkModified, BitsOf(p), p.hand);
                   frame == p.slots[o.victim].frame
                       && View(h, pid) == Replaced(p, old(Ram()), o, old(EntryOf(incoming)).page)
    {
      hide Wired, ProcessOf, Private, Loaded, Evicted, Slots, Pages, Replaced, WithUsed, Cleared, Seen, Finds, Probes,
           Replacement, PassedSoFar, BitsOf, PointsInto, Chunks;
      ghost var c := Cleared(BitsOf(p), p.hand, PassedSoFar(checkModified, j, k, |p.slots|));
      Sees(p, checkModified, j, k, h, pid);
      SlotInTables(Process(h, pid).hand, h, pid);
      var at := processesFrames[fi].clockHand;
      var slot := processesFrames[fi].frames[at];
      var page := EntryOf(slot.pageData);
      Decides(p, checkModified, j, k, at, page.used, page.modified);
      if !page.used && (!checkModified || !page.modified || j == 1) {
        ReplaceAt(fi, at, incoming, pid, h, p, c);
        return slot.frame;
      }
      PassedBy(p, c, at, page.used && (!checkModified || j == 1), Advance(at, |p.slots|));
      PassBy(fi, page.used && (!checkModified || j == 1), incoming, pid, h);
      frame := -1;
    }

    /** two_clock_turns: the slots of a process that holds no free one are looked at from the hand on, twice at most.
        probes counts them. */
    method TwoClockTurns(fi: nat, checkModified: bool, incoming: PageRef, pid: nat, ghost h: Handle)
      returns (frame: int, ghost probes: nat)
      requires Has(h, pid) && fi == h.fi && Fits(Process(h, pid), Ram()) && Occupied(Process(h, pid))
      requires |Process(h, pid).slots| == g.framesPerProcess
      requires incoming.Ref? && PointsInto(incoming, level1Tables[h.pt], g.entriesPerTable)
      requires InStore(Lists(), incoming)
      requires EntryOf(incoming).page < |Process(h, pid).swap|
      modifies this`level2Tables, this`processesFrames, this`swap, memory
      ensures Only(h, pid)
      ensures var p := old(Process(h, pid));
              && (frame == -1 <==> !Finds(checkModified, BitsOf(p), p.hand))
              && (frame == -1 ==> Ram() == old(Ram()) && swap == old(swap)
                                  && Process(h, pid) == WithUsed(p, Cleared(BitsOf(p), p.hand, |p.slots|))
                                  && processesFrames[fi].frames == old(processesFrames[fi].frames)
                                  && InStore(Lists(), incoming)
                                  && EntryOf(incoming).page == old(EntryOf(incoming)).page)
              && (frame != -1 ==> var o := Replacement(checkModified, BitsOf(p), p.hand);
                                  && frame == p.slots[o.victim].frame
                                  && View(h, pid) == Replaced(p, old(Ram()), o, old(EntryOf(incoming)).page))
              && probes == Probes(checkModified, BitsOf(p), p.hand)
    {
      hide Wired, ProcessOf, Private, Loaded, Evicted, Slots, Pages, Replaced, WithUsed, Cleared, Finds, Probes,
           Replacement, BitsOf, PointsInto, Chunks, RankAt;
      ghost var p, ram, number, lists := Process(h, pid), Ram(), EntryOf(incoming).page, Lists();
      ghost var frames := processesFrames[fi].frames;
      TurnsBegin(p, checkModified);
      PrivateIsReflexive(lists, h, pid);
      frame := -1;
      probes := 0;
      var j := 0;
      while j < 2
        invariant 0 <= j <= 2
        invariant Scanning(p, checkModified, j, 0, h, pid) && Seen(checkModified, BitsOf(p), p.hand, j, 0)
        invariant Private(lists, Lists(), h, pid)
        invariant Ram() == ram && swap == old(swap) && processesFrames[fi].frames == frames
        invariant InStore(Lists(), incoming) && EntryOf(incoming).page == number
        invariant probes == j * |p.slots| && frame == -1
      {
        var k := 0;
        while k < g.framesPerProcess
          invariant 0 <= k <= g.framesPerProcess
          invariant Scanning(p, checkModified, j, k, h, pid) && Seen(checkModified, BitsOf(p), p.hand, j, k)
          invariant Private(lists, Lists(), h, pid)
          invariant Ram() == ram && swap == old(swap) && processesFrames[fi].frames == frames
          invariant InStore(Lists(), incoming) && EntryOf(incoming).page == number
          invariant probes == j * |p.slots| + k && frame == -1
        {
          ghost var before := Lists();
          frame := Look(fi, checkModified, j, incoming, pid, h, p, k);
          probes := probes + 1;
          PrivateIsTransitive(lists, before, Lists(), h, pid);
          if frame != -1 { return; }
          k := k + 1;
        }
        TurnEnds(p, checkModified, j);
        j := j + 1;
      }
      TurnsEnd(p, checkModified);
    }

    /** replace_algorithm: one call under CLOCK, at most two under CLOCK-M. */
    method ReplaceAlgorithm(fi: nat, incoming: PageRef, pid: nat, ghost h: Handle)
      returns (frame: int, ghost probes: nat)
      requires Has(h, pid) && fi == h.fi && Fits(Process(h, pid), Ram()) && Occupied(Process(h, pid))
      requires |Process(h, pid).slots| == g.framesPerProcess
      requires incoming.Ref? && PointsInto(incoming, level1Tables[h.pt], g.entriesPerTable)
      requires InStore(Lists(), incoming)
      requires EntryOf(incoming).page < |Process(h, pid).swap|
      modifies this`level2Tables, this`processesFrames, this`swap, memory
      ensures Only(h, pid)
      ensures var p := old(Process(h, pid));
              var o := Replacement(g.clockM, BitsOf(p), p.hand);
              && frame == p.slots[o.victim].frame
              && View(h, pid) == Replaced(p, old(Ram()), o, old(EntryOf(incoming)).page)
              && probes <= if g.clockM then 3 * |p.slots| + 1 else |p.slots| + 1
    {
      hide Wired, ProcessOf, Private, Slots, Pages, Replaced, WithUsed, Cleared, Finds, Probes, Replacement, BitsOf,
           Chunks;
      ghost var p, ram, number, lists := Process(h, pid), Ram(), EntryOf(incoming).page, Lists();
      frame, probes := TwoClockTurns(fi, g.clockM, incoming, pid, h);
      ClockProbes(BitsOf(p), p.hand);
      if frame == -1 {
        SecondCall(p, ram, number);
        ghost var more, between := 0, Lists();
        frame, more := TwoClockTurns(fi, g.clockM, incoming, pid, h);
        PrivateIsTransitive(lists, between, Lists(), h, pid);
        probes := probes + more;
      } else if g.clockM {
        OneCallIsEnough(p);
      }
    }

    /** A slot is free when its page_data is NULL. */
    lemma NullIsFree(i: nat, h: Handle, pid: nat)
      requires Has(h, pid) && i < |processesFrames[h.fi].frames|
      ensures processesFrames[h.fi].frames[i].pageData.Null? <==> Process(h, pid).slots[i].page == -1
    {
      var s := processesFrames[h.fi].frames[i];
      if s.pageData.Ref? { RefIsInStore(g, Lists(), h, pid, s.pageData); }
    }

    /** has_free_frame. */
    method HasFreeFrame(fi: nat, ghost pid: nat, ghost h: Handle) returns (free: bool)
      requires Has(h, pid) && fi == h.fi && |Process(h, pid).slots| == g.framesPerProcess
      ensures free <==> FirstFree(Process(h, pid).slots, 0) < |Process(h, pid).slots|
    {
      hide Wired;
      var present := 0;
      for i := 0 to |processesFrames[fi].frames|
        invariant present <= i
        invariant present == i <==> forall l :: 0 <= l < i ==> Process(h, pid).slots[l].page != -1
      {
        NullIsFree(i, h, pid);
        if processesFrames[fi].frames[i].pageData != Null { present := present + 1; }
      }
      free := present < g.framesPerProcess;
    }

    /** find_first_free_frame, of a process that has one. */
    method FindFirstFreeFrame(fi: nat, ghost pid: nat, ghost h: Handle) returns (i: nat)
      requires Has(h, pid) && fi == h.fi && FirstFree(Process(h, pid).slots, 0) < |Process(h, pid).slots|
      ensures i == FirstFree(Process(h, pid).slots, 0)
    {
      hide Wired;
      i := 0;
      NullIsFree(i, h, pid);
      while processesFrames[fi].frames[i].pageData != Null
        invariant i < |processesFrames[fi].frames|
        invariant processesFrames[fi].frames[i].pageData.Null? <==> Process(h, pid).slots[i].page == -1
        invariant forall l :: 0 <= l < i ==> Process(h, pid).slots[l].page != -1
        decreases |processesFrames[fi].frames| - i
      {
        i := i + 1;
        NullIsFree(i, h, pid);
      }
    }

    /** get_frame_number: the frame of a page, which is brought into memory where it is not there. */
    method GetFrameNumber(pt2: nat, entry: nat, pid: nat, fi: nat, ghost h: Handle) returns (frame: int)
      requires Has(h, pid) && fi == h.fi && pt2 in level1Tables[h.pt] && entry < g.entriesPerTable
      requires ProcOk(g, Process(h, pid), bitmap[..], Ram()) && Resident(Process(h, pid))
      requires InStore(Lists(), Ref(pt2, entry)) && EntryOf(Ref(pt2, entry)).page < |Process(h, pid).swap|
      modifies this`level2Tables, this`processesFrames, this`swap, memory
      ensures Only(h, pid)
      ensures var p, k := old(Process(h, pid)), old(EntryOf(Ref(pt2, entry))).page;
              && Fits(p, old(Ram())) && k < |p.swap|
              && View(h, pid) == Translated(g, p, old(Ram()), k) && k < |View(h, pid).p.pages|
              && frame == View(h, pid).p.pages[k].frame
    {
      hide Wired, Private, ProcessOf, Replaced, Replacement, BitsOf, Chunks, Occupied, ProcOk, Faulted, Fits;
      ghost var p, ram := Process(h, pid), Ram();
      OkFits(g, p, bitmap[..], ram);
      RefIsInStore(g, Lists(), h, pid, Ref(pt2, entry));
      var page := EntryOf(Ref(pt2, entry));
      if page.present {
        frame := page.frame;
        PrivateIsReflexive(Lists(), h, pid);
      } else {
        FaultedFrame(g, p, ram, page.page);
        FaultedIs(g, p, ram, page.page);
        var free := HasFreeFrame(fi, pid, h);
        if free {
          var i := FindFirstFreeFrame(fi, pid, h);
          SlotInTables(i, h, pid);
          frame := processesFrames[fi].frames[i].frame;
          Load(fi, i, Ref(pt2, entry), pid, h);
        } else {
          FullIsOccupied(g, p, bitmap[..], ram);
          ghost var probes;
          frame, probes := ReplaceAlgorithm(fi, Ref(pt2, entry), pid, h);
        }
      }
    }

    // ---- Frames of the memory ---------------------------------------------------------

    /** find_first_unassigned_frame. */
    method FindFirstUnassignedFrame() returns (i: int)
      requires Sized()
      ensures i == if LowestFree(bitmap[..], 0) < bitmap.Length then LowestFree(bitmap[..], 0) else -1
    {
      for l := 0 to g.framesInMemory
        invariant LowestFree(bitmap[..], 0) >= l
      {
        if !bitmap[l] { return l; }
      }
      i := -1;
    }

    /** The loop of assign_process_frames: the first free frames are marked and listed. */
    method TakeFrames() returns (frames: seq<FrameEntry>)
      requires Sized()
      modifies bitmap
      ensures bitmap[..] == Assign(old(bitmap[..]), g.framesPerProcess).bitmap
      ensures frames == EmptyFrames(Assign(old(bitmap[..]), g.framesPerProcess).frames)
    {
      hide Assign, LowestFree, EmptyFrames;
      ghost var all := Assign(bitmap[..], g.framesPerProcess);
      ghost var taken: seq<nat> := [];
      frames := [];
      for i := 0 to g.framesPerProcess
        invariant frames == EmptyFrames(taken)
        invariant all.frames == taken + Assign(bitmap[..], g.framesPerProcess - i).frames
        invariant all.bitmap == Assign(bitmap[..], g.framesPerProcess - i).bitmap
      {
        ghost var before := bitmap[..];
        AssignOnce(before, g.framesPerProcess - i);
        var frame := FindFirstUnassignedFrame();
        if frame != -1 {
          OneMoreFrame(taken, frame);
          bitmap[frame] := true;
          assert bitmap[..] == before[frame := true];
          frames := frames + [FrameEntry(frame, Null)];
          taken := taken + [frame];
        }
      }
      NoFrames(bitmap[..]);
      assert taken + [] == taken;
    }

    /** assign_process_frames. */
    method AssignProcessFrames() returns (fi: nat)
      requires Sized()
      modifies bitmap, this`processesFrames
      ensures bitmap[..] == Assign(old(bitmap[..]), g.framesPerProcess).bitmap
      ensures fi == |old(processesFrames)|
      ensures processesFrames
           == old(processesFrames) + [ProcessFrames(EmptyFrames(Assign(old(bitmap[..]), g.framesPerProcess).frames), 0)]
    {
      var frames := TakeFrames();
      fi := |processesFrames|;
      processesFrames := processesFrames + [ProcessFrames(frames, 0)];
    }

    /** The loop of unassign_process_frames. */
    method ClearFrames(frames: seq<FrameEntry>) returns (bare: seq<FrameEntry>)
      requires Sized() && forall i :: 0 <= i < |frames| ==> 0 <= frames[i].frame < bitmap.Length
      modifies bitmap
      ensures bare == seq(|frames|, l => FrameEntry(-1, Null))
      ensures forall f :: 0 <= f < bitmap.Length ==>
                (bitmap[f] <==> old(bitmap[f]) && forall l :: 0 <= l < |frames| ==> frames[l].frame != f)
    {
      bare := [];
      for i := 0 to |frames|
        invariant bare == seq(i, l => FrameEntry(-1, Null))
        invariant forall f :: 0 <= f < bitmap.Length ==>
            (bitmap[f] <==> old(bitmap[f]) && forall l :: 0 <= l < i ==> frames[l].frame != f)
      {
        bitmap[frames[i].frame] := false;
        bare := bare + [FrameEntry(-1, Null)];
      }
    }

    /** unassign_process_frames, of a process that holds frames. */
    method UnassignProcessFrames(fi: nat, ghost pid: nat, ghost h: Handle)
      requires Has(h, pid) && fi == h.fi
      requires forall i :: 0 <= i < |Process(h, pid).slots| ==> 0 <= Process(h, pid).slots[i].frame < bitmap.Length
      modifies bitmap, this`processesFrames
      ensures Only(h, pid)
      ensures bitmap[..] == Released(old(bitmap[..]), old(Process(h, pid)).slots)
      ensures Process(h, pid) == old(Process(h, pid)).(slots := seq(|old(Process(h, pid)).slots|, i => Slot(-1, -1)))
      ensures IsBare(processesFrames[fi].frames)
    {
      hide Wired, Pages, Released, Chunks;
      ghost var slots, before := Process(h, pid).slots, bitmap[..];
      var frames := processesFrames[fi].frames;
      assert forall i :: 0 <= i < |frames| ==> frames[i].frame == slots[i].frame;
      var bare := ClearFrames(frames);
      forall f | 0 <= f < bitmap.Length ensures bitmap[f] == Released(before, slots)[f] {
        ReleasedBits(before, slots, f);
      }
      assert bitmap[..] == Released(before, slots);
      FramesChange(g, Lists(), h, pid, bare);
      processesFrames := processesFrames[fi := processesFrames[fi].(frames := bare)];
    }

    // ---- Page tables ------------------------------------------------------------------

    /** page_table_init: one level-1 table, and as many whole level-2 tables as the pages of the process need. */
    method PageTableInit(processSize: nat) returns (pt: nat)
      requires Sized()
      modifies this`level1Tables, this`level2Tables
      ensures var n := CeilDiv(PagesOf(g, processSize), g.entriesPerTable);
              && pt == |old(level1Tables)|
              && level1Tables == old(level1Tables) + [Numbers(|old(level2Tables)|, n)]
              && level2Tables == old(level2Tables) + FreshTables(n, g.entriesPerTable)
    {
      pt := |level1Tables|;
      level1Tables := level1Tables + [[]];
      var pagesRequired := processSize / g.pageSize;
      var tables := pagesRequired / g.entriesPerTable + if pagesRequired % g.entriesPerTable != 0 then 1 else 0;
      for i := 0 to tables
        invariant level1Tables == old(level1Tables) + [Numbers(|old(level2Tables)|, i)]
        invariant level2Tables == old(level2Tables) + FreshTables(i, g.entriesPerTable)
      {
        var entries: seq<PageEntry> := [];
        for j := 0 to g.entriesPerTable
          invariant entries == FreshTable(i, g.entriesPerTable)[..j]
        {
          entries := entries + [PageEntry(-1, false, false, false, Number(i, j, g.entriesPerTable))];
        }
        assert entries == FreshTable(i, g.entriesPerTable);
        OneMoreTable(|old(level2Tables)|, i, g.entriesPerTable);
        var level2Index := |level2Tables|;
        level2Tables := level2Tables + [entries];
        level1Tables := level1Tables[pt := level1Tables[pt] + [level2Index]];
      }
    }

    /** get_page_table2_index: the first step of a walk. */
    method GetPageTable2Index(pt: nat, entry: nat) returns (pt2: nat)
      requires pt < |level1Tables| && entry < |level1Tables[pt]|
      ensures pt2 == level1Tables[pt][entry]
    {
      pt2 := level1Tables[pt][entry];
    }

    // ---- Suspension -------------------------------------------------------------------

    /** SaveAndDrop does to page entry r what process_suspend does to each: it goes to swap if it was modified, and it
        is not present any more. */
    method SaveAndDrop(r: PageRef, pid: nat, ghost h: Handle)
      requires Has(h, pid) && r.Ref? && PointsInto(r, level1Tables[h.pt], g.entriesPerTable) && InStore(Lists(), r)
      requires EntryOf(r).page < |Process(h, pid).pages|
      requires EntryOf(r).present ==>
          0 <= EntryOf(r).frame < g.framesInMemory && EntryOf(r).page < |Process(h, pid).swap|
      modifies this`level2Tables, this`swap
      ensures Only(h, pid)
      ensures var p, e, k := old(Process(h, pid)), old(EntryOf(r)), old(EntryOf(r)).page;
              && Process(h, pid).pages == p.pages[k := Gone(ToEntry(e))] && Process(h, pid).slots == p.slots
              && Process(h, pid).hand == p.hand
              && Process(h, pid).swap == if e.present && e.modified then p.swap[k := Ram()[e.frame]] else p.swap
      ensures |level2Tables| == |old(level2Tables)| && forall q :: InStore(old(Lists()), q) ==>
                InStore(Lists(), q) && EntryOf(q).page == old(EntryOf(q)).page
                    && (q != r ==> EntryOf(q) == old(EntryOf(q)))
    {
      hide Wired, ProcessOf, Private, Chunks;
      ghost var lists := Lists();
      var entry := EntryOf(r);
      RefIsInStore(g, Lists(), h, pid, r);
      PrivateIsReflexive(lists, h, pid);
      if entry.present && entry.modified {
        SaveSwap(entry.frame, entry.page, pid, h);
        entry := entry.(modified := false);
      }
      ghost var between := Lists();
      SetEntry(r, entry.(present := false, frame := -1), pid, h);
      PrivateIsTransitive(lists, between, Lists(), h, pid);
    }

    /** Entry j of the i-th table of a process is its page number i * size + j. */
    lemma EntryInTables(i: nat, j: nat, h: Handle, pid: nat)
      requires Has(h, pid) && i < |level1Tables[h.pt]| && j < g.entriesPerTable
      ensures var r, k := Ref(level1Tables[h.pt][i], j), Number(i, j, g.entriesPerTable);
              && PointsInto(r, level1Tables[h.pt], g.entriesPerTable) && InStore(Lists(), r)
              && |level2Tables[r.table]| == g.entriesPerTable
              && EntryOf(r).page == k < |Process(h, pid).pages| && ToEntry(EntryOf(r)) == Process(h, pid).pages[k]
    {
      PageOfEntry(level1Tables[h.pt], level2Tables, g.entriesPerTable, i, j);
    }

    lemma TablesOfProcess(h: Handle, pid: nat)
      requires Has(h, pid)
      ensures |Process(h, pid).pages| == Number(|level1Tables[h.pt]|, 0, g.entriesPerTable)
      ensures forall i :: 0 <= i < |level1Tables[h.pt]| ==>
                level1Tables[h.pt][i] < |level2Tables| && |level2Tables[level1Tables[h.pt][i]]| == g.entriesPerTable
    {
    }

    /** The loops of process_suspend over the tables of a process. */
    method SaveAll(pt: nat, pid: nat, ghost h: Handle)
      requires Has(h, pid) && pt == h.pt && ProcOk(g, Process(h, pid), bitmap[..], Ram())
      modifies this`level2Tables, this`swap
      ensures Only(h, pid)
      ensures |old(Process(h, pid)).swap| <= |old(Process(h, pid)).pages|
      ensures Process(h, pid) == HalfSuspended(old(Process(h, pid)), Ram(), |old(Process(h, pid)).pages|)
    {
      hide Wired, ProcessOf, Private, Chunks, ProcOk, HalfSuspended, Number;
      ghost var p, ram, lists, size := Process(h, pid), Ram(), Lists(), g.entriesPerTable;
      SwapIsCovered(g, p, bitmap[..], ram);
      SuspensionBegins(p, ram);
      PrivateIsReflexive(lists, h, pid);
      NumberOfFirst(size);
      TablesOfProcess(h, pid);
      for i := 0 to |level1Tables[pt]|
        invariant Has(h, pid) && Private(lists, Lists(), h, pid) && level1Tables == old(level1Tables)
        invariant Process(h, pid) == HalfSuspended(p, ram, Number(i, 0, size))
      {
        var pt2 := level1Tables[pt][i];
        TablesOfProcess(h, pid);
        for j := 0 to |level2Tables[pt2]|
          invariant Has(h, pid) && Private(lists, Lists(), h, pid) && level1Tables == old(level1Tables)
          invariant j <= size && pt2 < |level2Tables| && |level2Tables[pt2]| == size
          invariant Process(h, pid) == HalfSuspended(p, ram, Number(i, j, size))
        {
          EntryInTables(i, j, h, pid);
          HalfIsAsLong(p, ram, Number(i, j, size));
          SuspensionGoesOn(g, p, bitmap[..], ram, Number(i, j, size));
          ghost var between := Lists();
          SaveAndDrop(Ref(pt2, j), pid, h);
          PrivateIsTransitive(lists, between, Lists(), h, pid);
          NextNumber(i, j, size);
          TablesOfProcess(h, pid);
        }
        NextTable(i, size);
      }
    }

    // ---- The whole server -------------------------------------------------------------

    /** The PCBs the kernel holds for live processes. */
    ghost var clients: map<nat, Handle>

    ghost predicate Valid()
      reads this
    {
      Sized() && AllLinked(g, Lists(), clients)
    }

    /** The memory the server stands for. */
    ghost function Abs(): (m: Memory)
      requires Valid()
      reads this, bitmap, memory
    {
      Memory(ProcessesOf(g, Lists(), clients), bitmap[..], Ram())
    }

    lemma ClientIsOk(pid: nat)
      requires Valid() && Inv(g, Abs()) && pid in clients
      ensures Has(clients[pid], pid) && Abs().procs[pid] == Process(clients[pid], pid)
      ensures ProcOk(g, Process(clients[pid], pid), bitmap[..], Ram())
    {
      assert pid in Abs().procs;
    }

    /** access_lvl2_table: the translation of Paging. */
    method AccessLvl2Table(pid: nat, pt2: nat, entry: nat, fi: nat) returns (frame: int)
      requires Valid() && Inv(g, Abs()) && pid in clients && fi == clients[pid].fi
      requires pt2 in level1Tables[clients[pid].pt] && entry < g.entriesPerTable && Resident(Abs().procs[pid])
      requires InStore(Lists(), Ref(pt2, entry)) && EntryOf(Ref(pt2, entry)).page < |Abs().procs[pid].swap|
      modifies this`level2Tables, this`processesFrames, this`swap, memory
      ensures Valid() && clients == old(clients)
      ensures var k := old(EntryOf(Ref(pt2, entry))).page;
              && PagingRefinement.Live(g, old(Abs()), pid) && k < |old(Abs()).procs[pid].swap|
              && var s := PagingRefinement.TranslateStep(g, old(Abs()), pid, k);
                 Abs() == s.m && s.t == At(pid, k, frame)
    {
      hide Wired, ProcessOf, Private, ProcOk, Translated, AllLinked, Chunks;
      ghost var lists := Lists();
      ClientIsOk(pid);
      frame := GetFrameNumber(pt2, entry, pid, fi, clients[pid]);
      OthersKept(g, lists, Lists(), clients, pid);
    }

    /** process_new: page tables, frames and a swap file. */
    method ProcessNew(pid: nat, processSize: nat) returns (pt: nat, fi: nat)
      requires Valid() && pid !in clients
      modifies this, bitmap
      ensures Valid() && clients == old(clients)[pid := Handle(pt, fi)]
      ensures Abs() == PagingRefinement.NewStep(g, old(Abs()), pid, processSize)
    {
      hide Wired, ProcessOf, Strangers, Chunks, Assign, Created, Numbers, FreshTables, CeilDiv, AllLinked, Grown;
      ghost var lists, frames := Lists(), Assign(bitmap[..], g.framesPerProcess).frames;
      pt := PageTableInit(processSize);
      fi := AssignProcessFrames();
      swap := swap[pid := ZeroFile(processSize)];
      NewIsLinked(g, lists, pid, processSize, frames);
      NewcomerJoins(g, lists, Lists(), clients, pid, CeilDiv(PagesOf(g, processSize), g.entriesPerTable));
      clients := clients[pid := Handle(pt, fi)];
    }

    lemma FramesAreReal(pid: nat)
      requires Valid() && Inv(g, Abs()) && pid in clients && Resident(Abs().procs[pid])
      ensures forall i :: 0 <= i < |Process(clients[pid], pid).slots| ==>
          0 <= Process(clients[pid], pid).slots[i].frame < bitmap.Length
    {
      ClientIsOk(pid);
      OkFits(g, Process(clients[pid], pid), bitmap[..], Ram());
    }

    /** process_suspend: modified pages go to swap, and the frames are released once, after the loops. The source
        releases them for every page. */
    method ProcessSuspend(pid: nat, pt: nat, fi: nat)
      requires Valid() && Inv(g, Abs()) && pid in clients && clients[pid] == Handle(pt, fi)
      requires Resident(Abs().procs[pid])
      modifies this`level2Tables, this`processesFrames, this`swap, bitmap
      ensures Valid() && clients == old(clients)
      ensures |old(Abs()).procs[pid].swap| <= |old(Abs()).procs[pid].pages|
      ensures Abs() == PagingRefinement.SuspendStep(old(Abs()), pid)
    {
      hide Wired, ProcessOf, Private, ProcOk, Strangers, Chunks, HalfSuspended, Suspended, Released;
      ghost var lists, h := Lists(), clients[pid];
      ClientIsOk(pid);
      FramesAreReal(pid);
      ghost var p, ram := Process(h, pid), Ram();
      SaveAll(pt, pid, h);
      SuspensionBegins(p, ram);
      HalfKeepsSlots(p, ram, |p.pages|);
      ghost var between := Lists();
      UnassignProcessFrames(fi, pid, h);
      PrivateIsTransitive(lists, between, Lists(), h, pid);
      OthersKept(g, lists, Lists(), clients, pid);
    }

    /** process_exit: the frames and the swap file go; the page tables stay behind, unreachable. */
    method ProcessExit(pid: nat, pt: nat, fi: nat)
      requires Valid() && Inv(g, Abs()) && pid in clients && clients[pid] == Handle(pt, fi)
      requires Resident(Abs().procs[pid])
      modifies this, bitmap
      ensures Valid() && clients == old(clients) - {pid}
      ensures Abs() == PagingRefinement.ExitStep(old(Abs()), pid)
    {
      hide Wired, ProcessOf, ProcOk, Strangers, Chunks, Released;
      ghost var lists := Lists();
      FramesAreReal(pid);
      UnassignProcessFrames(fi, pid, clients[pid]);
      OthersKept(g, lists, Lists(), clients, pid);
      ProcessLeaves(g, Lists(), clients, pid);
      swap := swap - {pid};
      clients := clients - {pid};
    }

    /** The missing step of a resumption: a suspended process is given frames again, in the list it had. */
    method ProcessResume(pid: nat, fi: nat)
      requires Valid() && pid in clients && clients[pid].fi == fi
      modifies this`processesFrames, bitmap
      ensures Valid() && clients == old(clients)
      ensures Abs() == PagingRefinement.ResumeStep(g, old(Abs()), pid)
    {
      hide Wired, ProcessOf, Private, Strangers, Chunks, Assign;
      ghost var lists := Lists();
      var frames := TakeFrames();
      FramesChange(g, Lists(), clients[pid], pid, frames);
      processesFrames := processesFrames[fi := processesFrames[fi].(frames := frames)];
      assert Process(clients[pid], pid).slots == EmptySlots(Assign(old(bitmap[..]), g.framesPerProcess).frames);
      OthersKept(g, lists, Lists(), clients, pid);
    }

    // ---- Accesses ---------------------------------------------------------------------

    predicate Points(f: nat, i: nat, frame: nat, r: PageRef)
      reads this
    {
      f < |processesFrames| && i < |processesFrames[f].frames| && processesFrames[f].frames[i] == FrameEntry(frame, r)
    }

    /** The page that is in a frame, found through the slots of all processes. */
    method FindPage(frame: nat) returns (r: PageRef)
      ensures r.Ref? ==> exists f: nat, i: nat :: Points(f, i, frame, r)
      ensures r.Null? ==> forall f: nat, i: nat, q: PageRef :: Points(f, i, frame, q) ==> q.Null?
    {
      for f := 0 to |processesFrames|
        invariant forall l: nat, i: nat, q: PageRef :: l < f && Points(l, i, frame, q) ==> q.Null?
      {
        for i := 0 to |processesFrames[f].frames|
          invariant forall l: nat, m: nat, q: PageRef :: (l < f || (l == f && m < i)) && Points(l, m, frame, q) ==>
              q.Null?
        {
          var entry := processesFrames[f].frames[i];
          if entry.frame == frame && entry.pageData.Ref? {
            r := entry.pageData;
            assert Points(f, i, frame, r);
            return;
          }
        }
      }
      r := Null;
    }

    /** A page that is present is the one found in its frame. */
    lemma FoundIsThePage(pid: nat, k: nat, f: nat, i: nat, r: PageRef)
      requires Valid() && Inv(g, Abs()) && pid in clients && k < |Abs().procs[pid].pages|
      requires Abs().procs[pid].pages[k].present
      requires 0 <= Abs().procs[pid].pages[k].frame && Points(f, i, Abs().procs[pid].pages[k].frame, r) && r.Ref?
      ensures PointsInto(r, level1Tables[clients[pid].pt], g.entriesPerTable) && InStore(Lists(), r)
      ensures EntryOf(r).page == k && ToEntry(EntryOf(r)) == Abs().procs[pid].pages[k]
    {
      hide Wired, ProcessOf, Chunks, ProcOk, Covered, Counted;
      ClientIsOk(pid);
      PresentIsInASlot(g, Process(clients[pid], pid), bitmap[..], Ram(), k);
      assert !IsBare(processesFrames[f].frames);
      var q :| q in clients && clients[q].fi == f;
      assert q in Abs().procs && pid in Abs().procs;
      ClientIsOk(q);
      SlotsOfFrames(q, i);
      SlotInTables(i, clients[q], q);
      FrameIsOfItsPage(g, Process(clients[pid], pid), bitmap[..], Ram(), i, k);
    }

    lemma SlotsOfFrames(q: nat, i: nat)
      requires Valid() && q in clients && i < |processesFrames[clients[q].fi].frames|
      ensures i < |Process(clients[q], q).slots|
    {
    }

    lemma PresentIsFound(pid: nat, k: nat)
      requires Valid() && Inv(g, Abs()) && pid in clients && k < |Abs().procs[pid].pages|
      requires Abs().procs[pid].pages[k].present
      ensures 0 <= Abs().procs[pid].pages[k].frame < g.framesInMemory && k < |Abs().procs[pid].swap|
      ensures exists f: nat, i: nat, r: PageRef :: Points(f, i, Abs().procs[pid].pages[k].frame, r) && r.Ref?
    {
      hide Wired, ProcessOf, Chunks, ProcOk, Covered, Counted;
      ClientIsOk(pid);
      PresentIsInASlot(g, Process(clients[pid], pid), bitmap[..], Ram(), k);
      var i := SlotOf(Process(clients[pid], pid).slots, k);
      SlotInTables(i, clients[pid], pid);
      assert Points(clients[pid].fi, i, Abs().procs[pid].pages[k].frame,
          processesFrames[clients[pid].fi].frames[i].pageData);
    }

    /** A read marks the page used, a write also modified; the source leaves both to be done. */
    method Touch(frame: nat, write: bool, ghost pid: nat, ghost k: nat)
      requires Valid() && Inv(g, Abs()) && pid in clients && k < |Abs().procs[pid].pages|
      requires Abs().procs[pid].pages[k].present
      requires Abs().procs[pid].pages[k].frame == frame
      modifies this`level2Tables
      ensures Valid()
      ensures Abs() == old(Abs()).(procs := old(Abs()).procs[pid := Touched(old(Abs()).procs[pid], k, write)])
    {
      hide Wired, ProcessOf, Private, Chunks, ProcOk, AllLinked, Inv;
      ghost var lists := Lists();
      PresentIsFound(pid, k);
      ghost var f0: nat, i0: nat, r0: PageRef :| Points(f0, i0, frame, r0) && r0.Ref?;
      var r := FindPage(frame);
      assert Points(f0, i0, frame, r0);
      ghost var f: nat, i: nat :| Points(f, i, frame, r);
      FoundIsThePage(pid, k, f, i, r);
      ClientIsOk(pid);
      var e := EntryOf(r);
      SetEntry(r, e.(used := true, modified := e.modified || write), pid, clients[pid]);
      OthersKept(g, lists, Lists(), clients, pid);
    }

    /** memory_read, at the physical address of an offset in the frame of a page. Address 0 is one like any other. */
    method MemoryRead(address: nat, ghost pid: nat, ghost k: nat, ghost o: nat) returns (value: seq<byte>)
      requires Valid() && Inv(g, Abs()) && pid in clients && k < |Abs().procs[pid].pages|
      requires Abs().procs[pid].pages[k].present
      requires Abs().procs[pid].pages[k].frame >= 0 && o + 4 <= g.pageSize
      requires address == Number(Abs().procs[pid].pages[k].frame, o, g.pageSize)
      modifies this`level2Tables
      ensures Valid()
      ensures var p := old(Abs()).procs[pid];
              && p.pages[k].frame < |old(Abs()).ram| && |old(Abs()).ram[p.pages[k].frame]| == g.pageSize
              && value == old(Abs()).ram[p.pages[k].frame][o..o + 4]
              && Abs() == old(Abs()).(procs := old(Abs()).procs[pid := Touched(p, k, false)])
      ensures Abs().procs[pid].pages[k] == old(Abs()).procs[pid].pages[k].(used := true)
    {
      hide AllLinked, ProcOk, AllOk, Apart, Covered, Counted, ProcessOf;
      PresentIsFound(pid, k);
      ghost var f := Abs().procs[pid].pages[k].frame;
      Splits(f, o, g.pageSize);
      PieceFits(f, g.framesInMemory, g.pageSize);
      value := memory[address..address + 4];
      Touch(address / g.pageSize, false, pid, k);
    }

    /** memory_write. */
    method MemoryWrite(address: nat, value: seq<byte>, ghost pid: nat, ghost k: nat, ghost o: nat)
      requires Valid() && Inv(g, Abs()) && pid in clients && k < |Abs().procs[pid].pages|
      requires Abs().procs[pid].pages[k].present
      requires Abs().procs[pid].pages[k].frame >= 0 && |value| == 4 && o + 4 <= g.pageSize
      requires address == Number(Abs().procs[pid].pages[k].frame, o, g.pageSize)
      modifies this`level2Tables, memory
      ensures Valid()
      ensures var m := old(Abs());
              var p, f := m.procs[pid], m.procs[pid].pages[k].frame;
              && f < |m.ram| && |m.ram[f]| == g.pageSize
              && Abs()
                  == Memory(m.procs[pid := Touched(p, k, true)], m.bitmap, m.ram[f := Overwrite(m.ram[f], o, value)])
      ensures Abs().procs[pid].pages[k] == old(Abs()).procs[pid].pages[k].(used := true, modified := true)
    {
      hide AllLinked, ProcOk, AllOk, Apart, Covered, Counted, ProcessOf;
      PresentIsFound(pid, k);
      ghost var f := Abs().procs[pid].pages[k].frame;
      Splits(f, o, g.pageSize);
      PieceFits(f, g.framesInMemory, g.pageSize);
      Touch(address / g.pageSize, true, pid, k);
      ghost var before := memory[..];
      forall i | 0 <= i < 4 { memory[address + i] := value[i]; }
      assert memory[..] == before[..Start(f, g.pageSize) + o] + value + before[Start(f, g.pageSize) + o + 4..];
      WriteWord(before, memory[..], g.pageSize, g.framesInMemory, f, o, value);
    }
  }
}
