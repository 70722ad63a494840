/** The memory of memory/src/page_table.c, utils.c and swap.c, process by process: page entries, frame slots, the
    clock hand, the swap pages, and the frames of the whole memory. MemoryServer ties the tables and arrays of the
    program to it. */
module Paging {
  import opened Processes
  import opened Clock

  type Page = seq<byte>

  datatype Geometry = Geometry(
    pageSize: nat,
    framesInMemory: nat,
    framesPerProcess: nat,
    entriesPerTable: nat,
    clockM: bool)

  /** t_page_entry; its page number is its position. */
  datatype Entry = Entry(frame: int, present: bool, modified: bool, used: bool)

  /** t_frame_entry; page is -1 where page_data is NULL, frame is -1 once it is released. */
  datatype Slot = Slot(frame: int, page: int)

  datatype Process = Process(pages: seq<Entry>, slots: seq<Slot>, hand: nat, swap: seq<Page>)

  datatype Memory = Memory(procs: map<nat, Process>, bitmap: seq<bool>, ram: seq<Page>)

  /** One process and the frames of the memory. */
  datatype Core = Core(p: Process, ram: seq<Page>)

  predicate GeometryOk(g: Geometry) { g.framesPerProcess >= 1 && g.entriesPerTable >= 1 && g.pageSize >= 1 }

  // ---- Frames of the memory -----------------------------------------------------------

  /** find_first_unassigned_frame, the length of the bitmap standing for -1. */
  function LowestFree(bitmap: seq<bool>, i: nat): (r: nat)
    requires i <= |bitmap|
    ensures i <= r <= |bitmap|
    ensures r < |bitmap| ==> !bitmap[r]
    ensures forall f :: i <= f < r ==> bitmap[f]
    decreases |bitmap| - i
  {
    if i == |bitmap| || !bitmap[i] then i else LowestFree(bitmap, i + 1)
  }

  datatype Grant = Grant(frames: seq<nat>, bitmap: seq<bool>)

  /** assign_process_frames: n times the lowest free frame, as long as there is one. */
  function Assign(bitmap: seq<bool>, n: nat): (r: Grant)
    ensures |r.bitmap| == |bitmap| && |r.frames| <= n
    ensures forall f :: f in r.frames ==> f < |bitmap|
    decreases n
  {
    var i := LowestFree(bitmap, 0);
    if n == 0 || i == |bitmap| then Grant([], bitmap)
    else
      var r := Assign(bitmap[i := true], n - 1);
      Grant([i] + r.frames, r.bitmap)
  }

  function FreeCount(bitmap: seq<bool>): nat {
    if bitmap == [] then 0 else (if bitmap[0] then 0 else 1) + FreeCount(bitmap[1..])
  }

  /** unassign_process_frames, on the bitmap. */
  function Released(bitmap: seq<bool>, slots: seq<Slot>): (r: seq<bool>)
    ensures |r| == |bitmap|
  {
    if slots == [] then bitmap
    else
      var r := Released(bitmap, slots[1..]);
      if 0 <= slots[0].frame < |bitmap| then r[slots[0].frame := false] else r
  }

  // ---- One process --------------------------------------------------------------------

  /** What the operations on pages rely on. */
  ghost predicate Fits(p: Process, ram: seq<Page>) {
    && p.hand < |p.slots|
    && |p.swap| <= |p.pages|
    && (forall i :: 0 <= i < |p.slots| ==> 0 <= p.slots[i].frame < |ram| && -1 <= p.slots[i].page < |p.swap|)
  }

  /** find_first_free_frame: a slot is free when it holds no page. The source looks at frame != -1 instead. */
  function FirstFree(slots: seq<Slot>, i: nat): (r: nat)
    requires i <= |slots|
    ensures i <= r <= |slots|
    ensures r < |slots| ==> slots[r].page == -1
    ensures forall j :: i <= j < r ==> slots[j].page != -1
    decreases |slots| - i
  {
    if i == |slots| || slots[i].page == -1 then i else FirstFree(slots, i + 1)
  }

  /** The slot that holds page k. */
  function SlotOf(slots: seq<Slot>, k: int): (r: nat)
    ensures r <= |slots|
    ensures r < |slots| ==> slots[r].page == k
    ensures forall j :: 0 <= j < r ==> slots[j].page != k
  {
    if slots == [] || slots[0].page == k then 0 else 1 + SlotOf(slots[1..], k)
  }

  function BitsOf(p: Process): (bits: seq<Bits>)
    requires forall i :: 0 <= i < |p.slots| ==> 0 <= p.slots[i].page < |p.pages|
    ensures |bits| == |p.slots|
  {
    seq(|p.slots|, i requires 0 <= i < |p.slots| =>
        Bits(p.pages[p.slots[i].page].used, p.pages[p.slots[i].page].modified))
  }

  function UsedAs(p: Process, bits: seq<Bits>, k: nat): (e: Entry)
    requires |bits| == |p.slots| && k < |p.pages|
    ensures e.frame == p.pages[k].frame && e.present == p.pages[k].present && e.modified == p.pages[k].modified
  {
    var i := SlotOf(p.slots, k);
    if i < |p.slots| then p.pages[k].(used := bits[i].used) else p.pages[k]
  }

  /** The used bits of the pages in the slots become those of bits. */
  function WithUsed(p: Process, bits: seq<Bits>): Process
    requires |bits| == |p.slots|
  {
    p.(pages := seq(|p.pages|, k requires 0 <= k < |p.pages| => UsedAs(p, bits, k)))
  }

  /** The first half of _replace: the page in slot i goes, by way of swap if it was modified. */
  function Evicted(p: Process, ram: seq<Page>, i: nat): Process
    requires Fits(p, ram) && i < |p.slots| && p.slots[i].page >= 0
  {
    var j := p.slots[i].page;
    var e := p.pages[j];
    Process(p.pages[j := e.(present := false, modified := e.modified && !e.present)],
            p.slots[i := p.slots[i].(page := -1)],
            p.hand,
            if e.present && e.modified then p.swap[j := ram[p.slots[i].frame]] else p.swap)
  }

  /** The second half: page k comes from swap into the frame of slot i. */
  function Loaded(p: Process, ram: seq<Page>, i: nat, k: nat): Core
    requires Fits(p, ram) && i < |p.slots| && k < |p.swap|
  {
    var f := p.slots[i].frame;
    Core(p.(pages := p.pages[k := p.pages[k].(present := true, frame := f)],
            slots := p.slots[i := p.slots[i].(page := k)]),
         ram[f := p.swap[k]])
  }

  /** The process after the clock has come to an outcome and the victim has gone. */
  function Vacated(p: Process, ram: seq<Page>, o: Outcome): Process
    requires Fits(p, ram) && |o.bits| == |p.slots| && o.victim < |p.slots| && o.hand < |p.slots|
    requires p.slots[o.victim].page >= 0
  {
    Evicted(WithUsed(p, o.bits).(hand := o.hand), ram, o.victim)
  }

  /** replace_algorithm with its outcome. */
  function Replaced(p: Process, ram: seq<Page>, o: Outcome, k: nat): Core
    requires Fits(p, ram) && k < |p.swap|
    requires |o.bits| == |p.slots| && o.victim < |p.slots| && o.hand < |p.slots| && p.slots[o.victim].page >= 0
  {
    Loaded(Vacated(p, ram, o), ram, o.victim, k)
  }

  /** get_frame_number, where the page is absent. */
  function Faulted(g: Geometry, p: Process, ram: seq<Page>, k: nat): Core
    requires Fits(p, ram) && k < |p.swap|
  {
    var i := FirstFree(p.slots, 0);
    if i < |p.slots| then Loaded(p, ram, i, k)
    else Replaced(p, ram, Replacement(g.clockM, BitsOf(p), p.hand), k)
  }

  /** get_frame_number; the frame is that of page k afterwards. */
  function Translated(g: Geometry, p: Process, ram: seq<Page>, k: nat): Core
    requires Fits(p, ram) && k < |p.swap|
  {
    if p.pages[k].present then Core(p, ram) else Faulted(g, p, ram, k)
  }

  /** The bits of the page in a frame: a read marks it used, a write also modified. */
  function Touched(p: Process, k: nat, write: bool): Process
    requires k < |p.pages|
  {
    p.(pages := p.pages[k := p.pages[k].(used := true, modified := p.pages[k].modified || write)])
  }

  function SavedPage(p: Process, ram: seq<Page>, k: nat): Page
    requires k < |p.swap| <= |p.pages|
  {
    if p.pages[k].present && p.pages[k].modified && 0 <= p.pages[k].frame < |ram| then ram[p.pages[k].frame]
        else p.swap[k]
  }

  function Gone(e: Entry): Entry { Entry(-1, false, e.modified && !e.present, e.used) }

  /** process_suspend: modified pages go to swap and every frame is given up. */
  function Suspended(p: Process, ram: seq<Page>): Process
    requires |p.swap| <= |p.pages|
  {
    Process(seq(|p.pages|, k requires 0 <= k < |p.pages| => Gone(p.pages[k])),
            seq(|p.slots|, i => Slot(-1, -1)),
            p.hand,
            seq(|p.swap|, k requires 0 <= k < |p.swap| => SavedPage(p, ram, k)))
  }

  function Zeros(n: nat): Page { seq(n, i => 0) }

  function EmptySlots(frames: seq<nat>): seq<Slot> {
    seq(|frames|, i requires 0 <= i < |frames| => Slot(frames[i], -1))
  }

  /** ceil_div of memory/src/utils.c:26, for the positive numbers it is called with. */
  function CeilDiv(a: nat, b: nat): nat
    requires b > 0
  {
    a / b + if a % b != 0 then 1 else 0
  }

  function PagesOf(g: Geometry, size: nat): nat
    requires GeometryOk(g)
  {
    size / g.pageSize
  }

  /** page_table_init: whole level-2 tables, so possibly a few entries more than pages. */
  function EntriesOf(g: Geometry, size: nat): nat
    requires GeometryOk(g)
  {
    CeilDiv(PagesOf(g, size), g.entriesPerTable) * g.entriesPerTable
  }

  function Fresh(): Entry { Entry(-1, false, false, false) }

  function Created(g: Geometry, size: nat, frames: seq<nat>): Process
    requires GeometryOk(g)
  {
    Process(seq(EntriesOf(g, size), k => Fresh()), EmptySlots(frames), 0, seq(PagesOf(g, size), k => Zeros(g.pageSize)))
  }

  // ---- The memory ---------------------------------------------------------------------

  function Resident(p: Process): bool { forall i :: 0 <= i < |p.slots| ==> p.slots[i].frame >= 0 }

  /** The processes that hold frames. */
  function Residents(m: Memory): set<nat> { set pid | pid in m.procs && Resident(m.procs[pid]) }

  /** What the CPU got from the memory for its last logical address. */
  datatype Translation = Nowhere | At(pid: nat, page: nat, frame: int)

  datatype System = System(m: Memory, t: Translation)

  /** Requests of the kernel and of the CPU, in the order the memory serves them. A word access is the translation of
      its page and then a read or write at the physical address; anything may come in between. */
  datatype Event =
    | New(pid: nat, size: nat)
    | Suspend(pid: nat)
    | Resume(pid: nat)
    | Exit(pid: nat)
    | Translate(pid: nat, page: nat)
    | Load(offset: nat)
    | Store(offset: nat, word: seq<byte>)

  function Forget(t: Translation, pid: nat): Translation { if t.At? && t.pid == pid then Nowhere else t }

  ghost predicate Enabled(g: Geometry, s: System, e: Event) {
    match e
    case New(pid, _) => pid !in s.m.procs && FreeCount(s.m.bitmap) >= g.framesPerProcess
    case Suspend(pid) => pid in s.m.procs && Resident(s.m.procs[pid])
    case Resume(pid) => pid in s.m.procs && !Resident(s.m.procs[pid]) && FreeCount(s.m.bitmap) >= g.framesPerProcess
    case Exit(pid) => pid in s.m.procs && Resident(s.m.procs[pid])
    case Translate(pid, k) => pid in s.m.procs && Resident(s.m.procs[pid]) && k < |s.m.procs[pid].swap|
    case Load(o) => s.t.At? && o + 4 <= g.pageSize
    case Store(o, word) => s.t.At? && o + 4 <= g.pageSize && |word| == 4
  }

  /** The four bytes of a word at an offset of a page. */
  function Overwrite(page: Page, o: nat, word: seq<byte>): Page
    requires o + |word| <= |page|
  {
    page[..o] + word + page[o + |word|..]
  }

  // ---- The invariant ------------------------------------------------------------------

  /** A slot and the page it holds point at each other, with the same frame. */
  ghost predicate SlotOk(p: Process, bitmap: seq<bool>, i: nat)
    requires i < |p.slots| && |p.swap| <= |p.pages|
  {
    var s := p.slots[i];
    && -1 <= s.frame < |bitmap|
    && (s.frame >= 0 ==> bitmap[s.frame])
    && -1 <= s.page < |p.swap|
    && (s.page >= 0 ==> s.frame >= 0 && p.pages[s.page].present && p.pages[s.page].frame == s.frame)
  }

  /** A present page has a slot, and its swap page is up to date unless it is modified. */
  ghost predicate PageOk(p: Process, ram: seq<Page>, k: nat)
    requires k < |p.pages|
  {
    var e := p.pages[k];
    && (e.modified ==> e.present)
    && (e.present ==> SlotOf(p.slots, k) < |p.slots|)
    && (e.present && !e.modified ==> 0 <= e.frame < |ram| && k < |p.swap| && ram[e.frame] == p.swap[k])
  }

  ghost predicate ProcOk(g: Geometry, p: Process, bitmap: seq<bool>, ram: seq<Page>) {
    && |p.slots| == g.framesPerProcess && p.hand < |p.slots| && |p.swap| <= |p.pages|
    && (forall k :: 0 <= k < |p.swap| ==> |p.swap[k]| == g.pageSize)
    && (Resident(p) || forall i :: 0 <= i < |p.slots| ==> p.slots[i].frame == -1)
    && (forall i :: 0 <= i < |p.slots| ==> SlotOk(p, bitmap, i))
    && (forall i, j :: 0 <= i < j < |p.slots| && p.slots[i].frame >= 0 ==> p.slots[i].frame != p.slots[j].frame)
    && (forall k :: 0 <= k < |p.pages| ==> PageOk(p, ram, k))
  }

  predicate Owns(p: Process, f: nat) { exists i :: 0 <= i < |p.slots| && p.slots[i].frame == f }

  ghost predicate RamOk(g: Geometry, ram: seq<Page>) {
    |ram| == g.framesInMemory && forall f :: 0 <= f < |ram| ==> |ram[f]| == g.pageSize
  }

  ghost predicate AllOk(g: Geometry, m: Memory) {
    forall pid :: pid in m.procs ==> ProcOk(g, m.procs[pid], m.bitmap, m.ram)
  }

  /** No frame has two owners. */
  predicate Apart(m: Memory) {
    forall a, b :: a in m.procs && b in m.procs && a != b ==> Disjoint(m.procs[a], m.procs[b])
  }

  predicate Disjoint(p: Process, q: Process) {
    forall i, j :: 0 <= i < |p.slots| && 0 <= j < |q.slots| && p.slots[i].frame >= 0 ==>
        p.slots[i].frame != q.slots[j].frame
  }

  /** An assigned frame has an owner. */
  ghost predicate Covered(m: Memory) {
    forall f :: 0 <= f < |m.bitmap| && m.bitmap[f] ==> exists pid :: pid in m.procs && Owns(m.procs[pid], f)
  }

  /** Free frames and owned frames are all there are. */
  predicate Counted(g: Geometry, m: Memory) {
    FreeCount(m.bitmap) + g.framesPerProcess * |Residents(m)| == g.framesInMemory
  }

  ghost predicate Inv(g: Geometry, m: Memory) {
    && GeometryOk(g) && RamOk(g, m.ram) && |m.bitmap| == g.framesInMemory
    && AllOk(g, m) && Apart(m) && Covered(m) && Counted(g, m)
  }

  /** The last translation of the CPU is still the truth. */
  ghost predicate Sound(g: Geometry, s: System) {
    && Inv(g, s.m)
    && (s.t.At? ==>
          && s.t.pid in s.m.procs && s.t.page < |s.m.procs[s.t.pid].swap|
          && s.m.procs[s.t.pid].pages[s.t.page].present && s.m.procs[s.t.pid].pages[s.t.page].frame == s.t.frame)
  }
}
