/** What faults, evictions and accesses keep of one process: page entries, slots and frames stay consistent, and no
    page changes its contents by moving between memory and swap. */
module PagingProcess {
  import opened Processes
  import opened Clock
  import opened Paging

  /** The contents of a page, wherever it is. */
  function PageView(p: Process, ram: seq<Page>, k: nat): Page
    requires k < |p.swap| <= |p.pages|
  {
    if p.pages[k].present && 0 <= p.pages[k].frame < |ram| then ram[p.pages[k].frame] else p.swap[k]
  }

  ghost predicate SameView(p: Process, ram: seq<Page>, q: Process, ram': seq<Page>)
    requires |p.swap| <= |p.pages| && |q.swap| <= |q.pages|
  {
    |p.swap| == |q.swap| && forall k :: 0 <= k < |p.swap| ==> PageView(p, ram, k) == PageView(q, ram', k)
  }

  ghost predicate SameFrames(p: Process, q: Process) {
    |p.slots| == |q.slots| && forall i :: 0 <= i < |p.slots| ==> p.slots[i].frame == q.slots[i].frame
  }

  /** Frames the process does not own are as they were. */
  ghost predicate OthersAlone(p: Process, ram: seq<Page>, ram': seq<Page>) {
    |ram| == |ram'| && forall f: nat :: f < |ram| && !Owns(p, f) ==> ram[f] == ram'[f]
  }

  lemma SameFramesOwn(p: Process, q: Process, f: nat)
    requires SameFrames(p, q)
    ensures Owns(p, f) == Owns(q, f)
  {
  }

  lemma PresentIsInASlot(g: Geometry, p: Process, bitmap: seq<bool>, ram: seq<Page>, k: nat)
    requires ProcOk(g, p, bitmap, ram) && k < |p.pages| && p.pages[k].present
    ensures var i := SlotOf(p.slots, k);
            && i < |p.slots| && p.slots[i].page == k && p.slots[i].frame == p.pages[k].frame
            && 0 <= p.pages[k].frame < |bitmap| && k < |p.swap| && Owns(p, p.pages[k].frame)
  {
    assert PageOk(p, ram, k);
    assert SlotOk(p, bitmap, SlotOf(p.slots, k));
  }

  /** Only the page of a slot has the frame of the slot. */
  lemma FrameIsOfItsPage(g: Geometry, p: Process, bitmap: seq<bool>, ram: seq<Page>, i: nat, k: nat)
    requires ProcOk(g, p, bitmap, ram) && i < |p.slots| && k < |p.pages| && p.pages[k].present
    requires p.pages[k].frame == p.slots[i].frame
    ensures p.slots[i].page == k
  {
    PresentIsInASlot(g, p, bitmap, ram, k);
    var j := SlotOf(p.slots, k);
    assert i <= j || j <= i;
  }

  lemma OkFits(g: Geometry, p: Process, bitmap: seq<bool>, ram: seq<Page>)
    requires ProcOk(g, p, bitmap, ram) && Resident(p) && |ram| == |bitmap|
    ensures Fits(p, ram) && |p.slots| == g.framesPerProcess
  {
    forall i | 0 <= i < |p.slots| ensures 0 <= p.slots[i].frame < |ram| && -1 <= p.slots[i].page < |p.swap| {
      assert SlotOk(p, bitmap, i);
    }
  }

  // ---- Loading ------------------------------------------------------------------------

  lemma LoadedSlots(g: Geometry, p: Process, bitmap: seq<bool>, ram: seq<Page>, i: nat, k: nat, j: nat)
    requires ProcOk(g, p, bitmap, ram) && Resident(p) && Fits(p, ram)
    requires i < |p.slots| && p.slots[i].page == -1 && k < |p.swap| && !p.pages[k].present && j < |p.slots|
    ensures SlotOk(Loaded(p, ram, i, k).p, bitmap, j)
  {
    assert SlotOk(p, bitmap, j) && SlotOk(p, bitmap, i);
  }

  lemma LoadedPages(g: Geometry, p: Process, bitmap: seq<bool>, ram: seq<Page>, i: nat, k: nat, j: nat)
    requires ProcOk(g, p, bitmap, ram) && Fits(p, ram) && |ram| == |bitmap|
    requires i < |p.slots| && p.slots[i].page == -1 && k < |p.swap| && !p.pages[k].present && j < |p.pages|
    ensures var c := Loaded(p, ram, i, k);
            PageOk(c.p, c.ram, j) && (j < |p.swap| ==> PageView(p, ram, j) == PageView(c.p, c.ram, j))
  {
    var c := Loaded(p, ram, i, k);
    assert PageOk(p, ram, j);
    assert c.p.slots[i].page == k;
    if j != k && p.pages[j].present {
      PresentIsInASlot(g, p, bitmap, ram, j);
      assert c.p.slots[SlotOf(p.slots, j)].page == j;
      if p.pages[j].frame == p.slots[i].frame { FrameIsOfItsPage(g, p, bitmap, ram, i, j); }
    }
  }

  lemma LoadedOk(g: Geometry, p: Process, bitmap: seq<bool>, ram: seq<Page>, i: nat, k: nat)
    requires ProcOk(g, p, bitmap, ram) && Resident(p) && Fits(p, ram) && |ram| == |bitmap|
    requires i < |p.slots| && p.slots[i].page == -1 && k < |p.swap| && !p.pages[k].present
    ensures var c := Loaded(p, ram, i, k);
            && ProcOk(g, c.p, bitmap, c.ram) && SameFrames(p, c.p) && SameView(p, ram, c.p, c.ram)
            && OthersAlone(p, ram, c.ram) && c.p.pages[k].present && Resident(c.p)
  {
    var c := Loaded(p, ram, i, k);
    forall j | 0 <= j < |p.slots| ensures SlotOk(c.p, bitmap, j) { LoadedSlots(g, p, bitmap, ram, i, k, j); }
    forall j | 0 <= j < |p.pages|
      ensures PageOk(c.p, c.ram, j) && (j < |p.swap| ==> PageView(p, ram, j) == PageView(c.p, c.ram, j))
    {
      LoadedPages(g, p, bitmap, ram, i, k, j);
    }
    assert Owns(p, p.slots[i].frame);
  }

  // ---- Evicting -----------------------------------------------------------------------

  lemma EvictedSlots(g: Geometry, p: Process, bitmap: seq<bool>, ram: seq<Page>, i: nat, j: nat)
    requires ProcOk(g, p, bitmap, ram) && Fits(p, ram) && i < |p.slots| && p.slots[i].page >= 0 && j < |p.slots|
    ensures SlotOk(Evicted(p, ram, i), bitmap, j)
  {
    assert SlotOk(p, bitmap, j) && SlotOk(p, bitmap, i);
  }

  lemma EvictedPages(g: Geometry, p: Process, bitmap: seq<bool>, ram: seq<Page>, i: nat, k: nat)
    requires ProcOk(g, p, bitmap, ram) && Fits(p, ram) && i < |p.slots| && p.slots[i].page >= 0 && k < |p.pages|
    ensures var q := Evicted(p, ram, i);
            PageOk(q, ram, k) && (k < |p.swap| ==> PageView(p, ram, k) == PageView(q, ram, k))
  {
    var q := Evicted(p, ram, i);
    assert PageOk(p, ram, k) && SlotOk(p, bitmap, i);
    if k != p.slots[i].page && p.pages[k].present {
      PresentIsInASlot(g, p, bitmap, ram, k);
      assert q.slots[SlotOf(p.slots, k)].page == k;
    }
  }

  lemma EvictedOk(g: Geometry, p: Process, bitmap: seq<bool>, ram: seq<Page>, i: nat)
    requires ProcOk(g, p, bitmap, ram) && RamOk(g, ram) && Resident(p) && Fits(p, ram) && i < |p.slots|
    requires p.slots[i].page >= 0
    ensures var q := Evicted(p, ram, i);
            && ProcOk(g, q, bitmap, ram) && SameFrames(p, q) && SameView(p, ram, q, ram) && Resident(q)
            && q.slots[i].page == -1 && (forall k :: 0 <= k < |p.pages| && q.pages[k].present ==> p.pages[k].present)
  {
    var q := Evicted(p, ram, i);
    forall j | 0 <= j < |p.slots| ensures SlotOk(q, bitmap, j) { EvictedSlots(g, p, bitmap, ram, i, j); }
    forall k | 0 <= k < |p.pages|
      ensures PageOk(q, ram, k) && (k < |p.swap| ==> PageView(p, ram, k) == PageView(q, ram, k))
    {
      EvictedPages(g, p, bitmap, ram, i, k);
    }
  }

  // ---- Bits ---------------------------------------------------------------------------

  /** Processes that differ in used bits and the hand alone. */
  ghost predicate SameButUsed(p: Process, q: Process) {
    && q.slots == p.slots && q.swap == p.swap && |q.pages| == |p.pages|
    && forall k :: 0 <= k < |p.pages| ==> q.pages[k] == p.pages[k].(used := q.pages[k].used)
  }

  lemma UsedIsFree(g: Geometry, p: Process, q: Process, bitmap: seq<bool>, ram: seq<Page>)
    requires ProcOk(g, p, bitmap, ram) && SameButUsed(p, q) && q.hand < |q.slots|
    ensures ProcOk(g, q, bitmap, ram) && SameView(p, ram, q, ram)
  {
    forall i | 0 <= i < |q.slots| ensures SlotOk(q, bitmap, i) { assert SlotOk(p, bitmap, i); }
    forall k | 0 <= k < |q.pages| ensures PageOk(q, ram, k) { assert PageOk(p, ram, k); }
  }

  lemma UsedChanges(p: Process, bits: seq<Bits>, hand: nat)
    requires |bits| == |p.slots|
    ensures SameButUsed(p, WithUsed(p, bits).(hand := hand))
  {
  }

  // ---- Faults -------------------------------------------------------------------------

  lemma VacatedOk(g: Geometry, p: Process, bitmap: seq<bool>, ram: seq<Page>)
    requires ProcOk(g, p, bitmap, ram) && RamOk(g, ram) && |ram| == |bitmap| && Resident(p) && Fits(p, ram)
    requires FirstFree(p.slots, 0) == |p.slots|
    ensures var o := Replacement(g.clockM, BitsOf(p), p.hand);
            var q, v := Vacated(p, ram, o), o.victim;
            && ProcOk(g, q, bitmap, ram) && SameFrames(p, q) && SameView(p, ram, q, ram) && Resident(q)
            && q.slots[v].page == -1 && (forall k :: 0 <= k < |p.pages| && q.pages[k].present ==> p.pages[k].present)
  {
    hide ProcOk, WithUsed, Replacement, RamOk, Evicted;
    var o := Replacement(g.clockM, BitsOf(p), p.hand);
    var q := WithUsed(p, o.bits).(hand := o.hand);
    UsedChanges(p, o.bits, o.hand);
    UsedIsFree(g, p, q, bitmap, ram);
    EvictedOk(g, q, bitmap, ram, o.victim);
  }

  /** A translation leaves the page present, keeps the process consistent, changes the contents of no page and touches
      no frame of anybody else. */
  lemma TranslatedOk(g: Geometry, p: Process, bitmap: seq<bool>, ram: seq<Page>, k: nat)
    requires ProcOk(g, p, bitmap, ram) && RamOk(g, ram) && |ram| == |bitmap| && Resident(p) && Fits(p, ram)
    requires k < |p.swap|
    ensures var c := Translated(g, p, ram, k);
            && ProcOk(g, c.p, bitmap, c.ram) && SameFrames(p, c.p) && SameView(p, ram, c.p, c.ram)
            && OthersAlone(p, ram, c.ram) && c.p.pages[k].present && Resident(c.p)
  {
    hide ProcOk, Loaded, Vacated, Replacement, RamOk;
    if !p.pages[k].present {
      var i := FirstFree(p.slots, 0);
      if i < |p.slots| {
        LoadedOk(g, p, bitmap, ram, i, k);
      } else {
        VacatedOk(g, p, bitmap, ram);
        var o := Replacement(g.clockM, BitsOf(p), p.hand);
        var q := Vacated(p, ram, o);
        OkFits(g, q, bitmap, ram);
        LoadedOk(g, q, bitmap, ram, o.victim, k);
        var c := Translated(g, p, ram, k);
        forall f: nat | f < |ram| && !Owns(p, f) ensures ram[f] == c.ram[f] { SameFramesOwn(p, q, f); }
      }
    }
  }

  // ---- Accesses -----------------------------------------------------------------------

  lemma ReadOk(g: Geometry, p: Process, bitmap: seq<bool>, ram: seq<Page>, k: nat)
    requires ProcOk(g, p, bitmap, ram) && k < |p.pages|
    ensures var q := Touched(p, k, false); ProcOk(g, q, bitmap, ram) && SameView(p, ram, q, ram)
  {
    UsedIsFree(g, p, Touched(p, k, false), bitmap, ram);
  }

  lemma WrittenPage(g: Geometry, p: Process, bitmap: seq<bool>, ram: seq<Page>, k: nat, page: Page, j: nat)
    requires ProcOk(g, p, bitmap, ram) && |ram| == |bitmap|
    requires k < |p.pages| && p.pages[k].present && 0 <= p.pages[k].frame < |ram| && j < |p.pages|
    ensures var q, ram' := Touched(p, k, true), ram[p.pages[k].frame := page];
            && PageOk(q, ram', j)
            && (j < |p.swap| ==> PageView(q, ram', j) == if j == k then page else PageView(p, ram, j))
  {
    assert PageOk(p, ram, j);
    PresentIsInASlot(g, p, bitmap, ram, k);
    if j != k && p.pages[j].present {
      PresentIsInASlot(g, p, bitmap, ram, j);
      if p.pages[j].frame == p.pages[k].frame { FrameIsOfItsPage(g, p, bitmap, ram, SlotOf(p.slots, k), j); }
    }
  }

  /** A write through a translation changes that page and no other. */
  lemma WrittenOk(g: Geometry, p: Process, bitmap: seq<bool>, ram: seq<Page>, k: nat, page: Page)
    requires ProcOk(g, p, bitmap, ram) && |ram| == |bitmap|
    requires k < |p.swap| && p.pages[k].present && 0 <= p.pages[k].frame < |ram|
    ensures var q, ram' := Touched(p, k, true), ram[p.pages[k].frame := page];
            && ProcOk(g, q, bitmap, ram') && SameFrames(p, q) && OthersAlone(p, ram, ram')
            && (forall j :: 0 <= j < |p.swap| ==> PageView(q, ram', j) == if j == k then page else PageView(p, ram, j))
  {
    var q, ram' := Touched(p, k, true), ram[p.pages[k].frame := page];
    PresentIsInASlot(g, p, bitmap, ram, k);
    forall j | 0 <= j < |p.pages|
      ensures PageOk(q, ram', j)
          && (j < |p.swap| ==> PageView(q, ram', j) == if j == k then page else PageView(p, ram, j))
    {
      WrittenPage(g, p, bitmap, ram, k, page, j);
    }
    forall i | 0 <= i < |q.slots| ensures SlotOk(q, bitmap, i) { assert SlotOk(p, bitmap, i); }
  }

  /** What others write, and what others take from or give back to the bitmap, does not touch a process. */
  lemma Undisturbed(g: Geometry, p: Process, bitmap: seq<bool>, ram: seq<Page>, bitmap': seq<bool>, ram': seq<Page>)
    requires ProcOk(g, p, bitmap, ram) && |ram| == |ram'| == |bitmap| == |bitmap'|
    requires forall f: nat :: f < |ram| && Owns(p, f) ==> ram[f] == ram'[f] && bitmap[f] == bitmap'[f]
    ensures ProcOk(g, p, bitmap', ram') && SameView(p, ram, p, ram')
  {
    forall i | 0 <= i < |p.slots| ensures SlotOk(p, bitmap', i) {
      assert SlotOk(p, bitmap, i);
      if p.slots[i].frame >= 0 { assert Owns(p, p.slots[i].frame); }
    }
    forall k | 0 <= k < |p.pages| ensures PageOk(p, ram', k)
        && (k < |p.swap| ==> PageView(p, ram, k) == PageView(p, ram', k)) {
      assert PageOk(p, ram, k);
      if p.pages[k].present { PresentIsInASlot(g, p, bitmap, ram, k); }
    }
  }

  // ---- Suspension and creation --------------------------------------------------------

  lemma SavedPages(g: Geometry, p: Process, bitmap: seq<bool>, ram: seq<Page>, k: nat)
    requires ProcOk(g, p, bitmap, ram) && RamOk(g, ram) && |ram| == |bitmap| && k < |p.swap|
    ensures SavedPage(p, ram, k) == PageView(p, ram, k) && |SavedPage(p, ram, k)| == g.pageSize
  {
    assert PageOk(p, ram, k);
  }

  lemma SuspendedOk(g: Geometry, p: Process, bitmap: seq<bool>, ram: seq<Page>, bitmap': seq<bool>)
    requires ProcOk(g, p, bitmap, ram) && RamOk(g, ram) && |ram| == |bitmap|
    ensures var q := Suspended(p, ram);
            && ProcOk(g, q, bitmap', ram) && SameView(p, ram, q, ram) && forall i :: 0 <= i < |q.slots| ==>
                q.slots[i].frame == -1
  {
    var q := Suspended(p, ram);
    forall k | 0 <= k < |p.pages| ensures PageOk(q, ram, k) { assert PageOk(p, ram, k); }
    forall k | 0 <= k < |p.swap| ensures PageView(p, ram, k) == PageView(q, ram, k) && |q.swap[k]| == g.pageSize {
      SavedPages(g, p, bitmap, ram, k);
    }
    forall i | 0 <= i < |q.slots| ensures SlotOk(q, bitmap', i) {}
  }

  predicate DistinctFrames(frames: seq<nat>) { forall i, j :: 0 <= i < j < |frames| ==> frames[i] != frames[j] }

  /** A process without present pages can take any frames that are marked as assigned. */
  lemma FramesGranted(g: Geometry, p: Process, bitmap: seq<bool>, ram: seq<Page>, frames: seq<nat>)
    requires |p.swap| <= |p.pages| && p.hand < g.framesPerProcess == |frames|
    requires forall k :: 0 <= k < |p.swap| ==> |p.swap[k]| == g.pageSize
    requires forall k :: 0 <= k < |p.pages| ==> !p.pages[k].present && !p.pages[k].modified
    requires DistinctFrames(frames) && forall i :: 0 <= i < |frames| ==> frames[i] < |bitmap| && bitmap[frames[i]]
    ensures ProcOk(g, p.(slots := EmptySlots(frames)), bitmap, ram) && Resident(p.(slots := EmptySlots(frames)))
  {
  }

  // ---- Used bits, on the pages and as the clock sees them -----------------------------

  /** No page is in two slots, and every slot holds one. */
  predicate Occupied(p: Process) {
    && (forall i :: 0 <= i < |p.slots| ==> 0 <= p.slots[i].page < |p.pages|)
    && (forall i, j :: 0 <= i < j < |p.slots| ==> p.slots[i].page != p.slots[j].page)
  }

  lemma SlotOfItsPage(p: Process, i: nat)
    requires Occupied(p) && i < |p.slots|
    ensures SlotOf(p.slots, p.slots[i].page) == i
  {
    var j := SlotOf(p.slots, p.slots[i].page);
    assert j <= i;
  }

  /** Bits that differ from those of p in used alone are the bits of the pages that got them. */
  lemma BitsOfWithUsed(p: Process, bits: seq<Bits>)
    requires Occupied(p) && |bits| == |p.slots|
    requires forall i :: 0 <= i < |bits| ==> bits[i].modified == p.pages[p.slots[i].page].modified
    ensures Occupied(WithUsed(p, bits)) && BitsOf(WithUsed(p, bits)) == bits
  {
    forall i | 0 <= i < |bits| ensures BitsOf(WithUsed(p, bits))[i] == bits[i] { SlotOfItsPage(p, i); }
  }

  lemma WithItsOwnBits(p: Process)
    requires Occupied(p)
    ensures WithUsed(p, BitsOf(p)) == p
  {
  }

  lemma WithUsedTwice(p: Process, bits: seq<Bits>, bits': seq<Bits>)
    requires |bits| == |bits'| == |p.slots|
    ensures WithUsed(WithUsed(p, bits), bits') == WithUsed(p, bits')
  {
  }

  /** Clearing the used bit of a page in its table clears it for the clock. */
  lemma ClearOne(p: Process, bits: seq<Bits>, i: nat)
    requires Occupied(p) && |bits| == |p.slots| && i < |bits|
    ensures var q, k := WithUsed(p, bits), p.slots[i].page;
            q.pages[k := q.pages[k].(used := false)] == WithUsed(p, bits[i := bits[i].(used := false)]).pages
  {
    var q, k := WithUsed(p, bits), p.slots[i].page;
    SlotOfItsPage(p, i);
    var r := WithUsed(p, bits[i := bits[i].(used := false)]);
    forall l | 0 <= l < |p.pages| ensures q.pages[k := q.pages[k].(used := false)][l] == r.pages[l] {
      if l != k { assert SlotOf(p.slots, l) < |p.slots| ==> SlotOf(p.slots, l) != i; }
    }
  }

  lemma {:induction false} ClearedKeepsModified(bits: seq<Bits>, hand: nat, d: nat)
    requires hand < |bits| && d <= |bits|
    ensures forall i :: 0 <= i < |bits| ==> Cleared(bits, hand, d)[i].modified == bits[i].modified
  {
    forall i | 0 <= i < |bits| ensures Cleared(bits, hand, d)[i].modified == bits[i].modified {
      ClearedAt(bits, hand, d, i);
    }
  }

  /** A load into a slot does not depend on the page the slot held before. */
  lemma LoadOverwrites(p: Process, ram: seq<Page>, i: nat, k: nat)
    requires Fits(p, ram) && i < |p.slots| && p.slots[i].page >= 0 && k < |p.swap|
    ensures var q := Evicted(p, ram, i).(slots := p.slots);
            Fits(q, ram) && Fits(Evicted(p, ram, i), ram)
                && Loaded(q, ram, i, k) == Loaded(Evicted(p, ram, i), ram, i, k)
  {
  }

  /** Whether the hand moves before or after the replacement makes no difference. */
  lemma HandCommutes(p: Process, ram: seq<Page>, i: nat, k: nat, hand: nat)
    requires Fits(p, ram) && i < |p.slots| && p.slots[i].page >= 0 && k < |p.swap| && hand < |p.slots|
    ensures var q := p.(hand := hand);
            && Fits(q, ram) && Fits(Evicted(q, ram, i), ram) && Fits(Evicted(p, ram, i), ram)
            && var c := Loaded(Evicted(p, ram, i), ram, i, k);
               && Loaded(Evicted(q, ram, i), ram, i, k) == Core(c.p.(hand := hand), c.ram)
               && c.p.hand == p.hand && |c.p.slots| == |p.slots|
  {
  }

  lemma WithUsedFits(p: Process, ram: seq<Page>, bits: seq<Bits>, hand: nat)
    requires Fits(p, ram) && |bits| == |p.slots| && hand < |p.slots|
    ensures Fits(WithUsed(p, bits).(hand := hand), ram)
  {
  }

  /** A frame passed by, on the pages and for the clock. */
  lemma PassedBy(p: Process, bits: seq<Bits>, at: nat, clear: bool, hand: nat)
    requires Occupied(p) && |bits| == |p.slots| && at < |bits|
    ensures var q := WithUsed(p, bits).(hand := at);
            var k := p.slots[at].page;
            && Occupied(q) && q.slots == p.slots && q.swap == p.swap && |q.pages| == |p.pages|
            && q.(hand := hand, pages := if clear then q.pages[k := q.pages[k].(used := false)] else q.pages)
               == WithUsed(p, if clear then bits[at := bits[at].(used := false)] else bits).(hand := hand)
  {
    ClearOne(p, bits, at);
  }

  /** What a turn does at a frame, given the bits it finds there. */
  lemma Decides(p: Process, clockM: bool, j: nat, k: nat, at: nat, used: bool, modified: bool)
    requires Occupied(p) && p.hand < |p.slots| && k < |p.slots| && j < 2 && Seen(clockM, BitsOf(p), p.hand, j, k)
    requires at == Spot(p.hand, k, |p.slots|) < |p.slots| && modified == BitsOf(p)[at].modified
    requires used == (BitsOf(p)[at].used && !(j == 1 && !clockM))
    ensures var n, c := |p.slots|, Cleared(BitsOf(p), p.hand, PassedSoFar(clockM, j, k, |p.slots|));
            if !used && (!clockM || !modified || j == 1) then
              && Finds(clockM, BitsOf(p), p.hand) && Probes(clockM, BitsOf(p), p.hand) == j * n + k + 1
              && Replacement(clockM, BitsOf(p), p.hand) == Outcome(at, c, Advance(at, n))
            else
              && Seen(clockM, BitsOf(p), p.hand, j, k + 1) && Advance(at, n) == Spot(p.hand, k + 1, n)
              && Cleared(BitsOf(p), p.hand, PassedSoFar(clockM, j, k + 1, n))
                 == if used && (!clockM || j == 1) then c[at := c[at].(used := false)] else c
  {
    hide Passed, Finds, Probes, Least, Cleared;
    LooksAt(clockM, BitsOf(p), p.hand, j, k);
    if !used && (!clockM || !modified || j == 1) {
      FoundThere(clockM, BitsOf(p), p.hand, j, k);
    } else {
      NextBits(clockM, BitsOf(p), p.hand, j, k);
    }
  }

  lemma TurnsBegin(p: Process, clockM: bool)
    requires Occupied(p) && p.hand < |p.slots|
    ensures Seen(clockM, BitsOf(p), p.hand, 0, 0)
    ensures var r := WithUsed(p, Cleared(BitsOf(p), p.hand, PassedSoFar(clockM, 0, 0, |p.slots|)));
            r.(hand := Spot(p.hand, 0, |p.slots|)) == p
  {
    WithItsOwnBits(p);
  }

  /** The end of a turn is the beginning of the next one. */
  lemma TurnEnds(p: Process, clockM: bool, j: nat)
    requires Occupied(p) && p.hand < |p.slots| && j < 2 && Seen(clockM, BitsOf(p), p.hand, j, |p.slots|)
    ensures Seen(clockM, BitsOf(p), p.hand, j + 1, 0)
    ensures PassedSoFar(clockM, j + 1, 0, |p.slots|) == PassedSoFar(clockM, j, |p.slots|, |p.slots|)
    ensures Spot(p.hand, |p.slots|, |p.slots|) == Spot(p.hand, 0, |p.slots|)
  {
  }

  lemma TurnsEnd(p: Process, clockM: bool)
    requires Occupied(p) && p.hand < |p.slots| && Seen(clockM, BitsOf(p), p.hand, 2, 0)
    ensures clockM && !Finds(clockM, BitsOf(p), p.hand) && Probes(clockM, BitsOf(p), p.hand) == 2 * |p.slots|
    ensures var q := WithUsed(p, Cleared(BitsOf(p), p.hand, |p.slots|));
            var r := WithUsed(p, Cleared(BitsOf(p), p.hand, PassedSoFar(clockM, 2, 0, |p.slots|)));
            r.(hand := Spot(p.hand, 0, |p.slots|)) == q
  {
    FoundNowhere(BitsOf(p), p.hand);
  }

  /** CLOCK-M's second call, after the first has cleared every used bit, comes to the outcome specified for both. */
  lemma SecondCall(p: Process, ram: seq<Page>, k: nat)
    requires Fits(p, ram) && Occupied(p) && k < |p.swap| && !Finds(true, BitsOf(p), p.hand)
    ensures var q := WithUsed(p, Cleared(BitsOf(p), p.hand, |p.slots|));
            && Occupied(q) && Fits(q, ram) && q.hand == p.hand && q.slots == p.slots && q.swap == p.swap
            && Finds(true, BitsOf(q), q.hand)
            && Replacement(true, BitsOf(q), q.hand) == Replacement(true, BitsOf(p), p.hand)
            && Replaced(q, ram, Replacement(true, BitsOf(q), q.hand), k)
                == Replaced(p, ram, Replacement(true, BitsOf(p), p.hand), k)
            && Probes(true, BitsOf(p), p.hand) + Probes(true, BitsOf(q), q.hand) <= 3 * |p.slots| + 1
  {
    hide Cleared, Evicted, Loaded, Least, Probes;
    var c := Cleared(BitsOf(p), p.hand, |p.slots|);
    ClearedKeepsModified(BitsOf(p), p.hand, |p.slots|);
    BitsOfWithUsed(p, c);
    SecondCallFinds(BitsOf(p), p.hand);
    WithUsedFits(p, ram, c, p.hand);
    WithUsedTwice(p, c, c);
  }

  /** A consistent process without a free slot. */
  lemma FullIsOccupied(g: Geometry, p: Process, bitmap: seq<bool>, ram: seq<Page>)
    requires ProcOk(g, p, bitmap, ram) && FirstFree(p.slots, 0) == |p.slots|
    ensures Occupied(p)
  {
    forall i | 0 <= i < |p.slots| ensures 0 <= p.slots[i].page < |p.pages| { assert SlotOk(p, bitmap, i); }
    forall i, j | 0 <= i < j < |p.slots| ensures p.slots[i].page != p.slots[j].page {
      assert SlotOk(p, bitmap, i) && SlotOk(p, bitmap, j);
    }
  }

  lemma OneCallIsEnough(p: Process)
    requires Occupied(p) && p.hand < |p.slots| && Finds(true, BitsOf(p), p.hand)
    ensures Probes(true, BitsOf(p), p.hand) <= 2 * |p.slots|
  {
  }

  /** The frame of a page that has just been loaded. */
  lemma FaultedFrame(g: Geometry, p: Process, ram: seq<Page>, k: nat)
    requires Fits(p, ram) && k < |p.swap|
    ensures var q, i := Faulted(g, p, ram, k).p, FirstFree(p.slots, 0);
            && k < |q.pages|
            && q.pages[k].frame == if i < |p.slots| then p.slots[i].frame
                                   else p.slots[Replacement(g.clockM, BitsOf(p), p.hand).victim].frame
  {
    hide WithUsed;
    if FirstFree(p.slots, 0) == |p.slots| {
      WithUsedChangesPages(p, Replacement(g.clockM, BitsOf(p), p.hand).bits);
    }
  }

  lemma WithUsedChangesPages(p: Process, bits: seq<Bits>)
    requires |bits| == |p.slots|
    ensures WithUsed(p, bits) == p.(pages := WithUsed(p, bits).pages) && |WithUsed(p, bits).pages| == |p.pages|
  {
  }

  lemma FaultedIs(g: Geometry, p: Process, ram: seq<Page>, k: nat)
    requires Fits(p, ram) && k < |p.swap|
    ensures var i := FirstFree(p.slots, 0);
            Faulted(g, p, ram, k) == if i < |p.slots| then Loaded(p, ram, i, k)
                                     else Replaced(p, ram, Replacement(g.clockM, BitsOf(p), p.hand), k)
  {
  }

  // ---- Suspension, page by page -------------------------------------------------------

  /** The process when process_suspend has come to page n. */
  function HalfSuspended(p: Process, ram: seq<Page>, n: nat): Process
    requires |p.swap| <= |p.pages|
  {
    Process(seq(|p.pages|, k requires 0 <= k < |p.pages| => if k < n then Gone(p.pages[k]) else p.pages[k]),
            p.slots, p.hand,
            seq(|p.swap|, k requires 0 <= k < |p.swap| => if k < n then SavedPage(p, ram, k) else p.swap[k]))
  }

  lemma SuspensionBegins(p: Process, ram: seq<Page>)
    requires |p.swap| <= |p.pages|
    ensures HalfSuspended(p, ram, 0) == p
    ensures Suspended(p, ram) == HalfSuspended(p, ram, |p.pages|).(slots := seq(|p.slots|, i => Slot(-1, -1)))
  {
  }

  lemma SuspensionGoesOn(g: Geometry, p: Process, bitmap: seq<bool>, ram: seq<Page>, k: nat)
    requires ProcOk(g, p, bitmap, ram) && |ram| == |bitmap| && k < |p.pages|
    ensures p.pages[k].present ==> k < |p.swap| && 0 <= p.pages[k].frame < |ram|
    ensures var h, e := HalfSuspended(p, ram, k), p.pages[k];
            && |h.pages| == |p.pages| && |h.swap| == |p.swap| && h.pages[k] == e
            && HalfSuspended(p, ram, k + 1)
               == h.(pages := h.pages[k := Gone(e)],
                     swap := if e.present && e.modified then h.swap[k := ram[e.frame]] else h.swap)
  {
    if p.pages[k].present { PresentIsInASlot(g, p, bitmap, ram, k); }
    var h, e := HalfSuspended(p, ram, k), p.pages[k];
    assert HalfSuspended(p, ram, k + 1).pages == h.pages[k := Gone(e)];
    assert HalfSuspended(p, ram, k + 1).swap == if e.present && e.modified then h.swap[k := ram[e.frame]] else h.swap;
  }

  lemma SwapIsCovered(g: Geometry, p: Process, bitmap: seq<bool>, ram: seq<Page>)
    requires ProcOk(g, p, bitmap, ram)
    ensures |p.swap| <= |p.pages|
  {
  }

  lemma HalfIsAsLong(p: Process, ram: seq<Page>, n: nat)
    requires |p.swap| <= |p.pages|
    ensures |HalfSuspended(p, ram, n).pages| == |p.pages| && |HalfSuspended(p, ram, n).swap| == |p.swap|
  {
  }

  lemma HalfKeepsSlots(p: Process, ram: seq<Page>, n: nat)
    requires |p.swap| <= |p.pages|
    ensures HalfSuspended(p, ram, n).slots == p.slots
  {
  }
}
