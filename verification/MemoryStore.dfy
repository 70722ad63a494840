/** The lists of the memory server as one value, the process each PCB's indexes stand for, and what a change to the
    tables and frames of one process means for it and for the others. */
module MemoryStore {
  import opened Processes
  import opened Clock
  import opened Paging
  import opened Tables
  import PagingRuns

  /** level1_tables, level2_tables, processes_frames and the swap files. */
  datatype Directory = Directory(level1: seq<seq<nat>>, level2: Level2, frames: seq<ProcessFrames>, swap: map<nat,
          seq<byte>>)

  function PageCount(g: Geometry, file: seq<byte>): nat
    requires GeometryOk(g)
  {
    |file| / g.pageSize
  }

  lemma PagesFitTheFile(g: Geometry, file: seq<byte>)
    requires GeometryOk(g)
    ensures PageCount(g, file) * g.pageSize <= |file|
  {
  }

  ghost function SwapPages(g: Geometry, file: seq<byte>): (r: seq<Page>)
    requires GeometryOk(g)
    ensures |r| == PageCount(g, file)
  {
    PagesFitTheFile(g, file);
    Chunks(file, g.pageSize, PageCount(g, file))
  }

  /** The tables of a process are its own, in order, and the pointers of its frames stay in them. */
  ghost predicate Wired(g: Geometry, st: Directory, h: Handle, pid: nat)
    requires GeometryOk(g) && h.pt < |st.level1| && h.fi < |st.frames| && pid in st.swap
  {
    && Rooted(st.level1[h.pt], st.level2, g.entriesPerTable)
    && (forall i :: 0 <= i < |st.frames[h.fi].frames| ==>
          PointsInto(st.frames[h.fi].frames[i].pageData, st.level1[h.pt], g.entriesPerTable))
    && PageCount(g, st.swap[pid]) <= |st.level1[h.pt]| * g.entriesPerTable
  }

  /** The indexes of a PCB lead to a process. */
  ghost predicate Linked(g: Geometry, st: Directory, h: Handle, pid: nat) {
    GeometryOk(g) && h.pt < |st.level1| && h.fi < |st.frames| && pid in st.swap && Wired(g, st, h, pid)
  }

  ghost function ProcessOf(g: Geometry, st: Directory, h: Handle, pid: nat): Process
    requires Linked(g, st, h, pid)
  {
    Process(Pages(st.level1[h.pt], st.level2, g.entriesPerTable),
            Slots(st.frames[h.fi].frames, st.level2),
            st.frames[h.fi].clockHand,
            SwapPages(g, st.swap[pid]))
  }

  /** Two processes share no table and no list of frames. */
  ghost predicate Strangers(st: Directory, h: Handle, h': Handle)
    requires h.pt < |st.level1| && h'.pt < |st.level1|
  {
    h.fi != h'.fi && h.pt != h'.pt && forall t :: t in st.level1[h.pt] ==> t !in st.level1[h'.pt]
  }

  /** Only what belongs to one process has changed. */
  ghost predicate Private(st: Directory, st': Directory, h: Handle, pid: nat)
    requires h.pt < |st.level1|
  {
    && st'.level1 == st.level1 && |st'.level2| == |st.level2| && |st'.frames| == |st.frames|
    && (forall t :: 0 <= t < |st.level2| && t !in st.level1[h.pt] ==> st'.level2[t] == st.level2[t])
    && (forall f :: 0 <= f < |st.frames| && f != h.fi ==> st'.frames[f] == st.frames[f])
    && st'.swap.Keys == st.swap.Keys && (forall q :: q in st.swap && q != pid ==> st'.swap[q] == st.swap[q])
  }

  lemma PrivateElsewhere(g: Geometry, st: Directory, st': Directory, h: Handle, pid: nat, h': Handle, q: nat)
    requires h.pt < |st.level1| && Private(st, st', h, pid) && q != pid
    requires Linked(g, st, h', q) && Strangers(st, h, h')
    ensures Linked(g, st', h', q) && ProcessOf(g, st', h', q) == ProcessOf(g, st, h', q)
  {
    var tables, size := st.level1[h'.pt], g.entriesPerTable;
    assert forall i :: 0 <= i < |tables| ==> st'.level2[tables[i]] == st.level2[tables[i]];
    SamePages(tables, st.level2, st'.level2, size);
    SameSlots(st.frames[h'.fi].frames, st.level2, st'.level2, tables, size);
  }

  lemma SamePages(tables: seq<nat>, level2: Level2, level2': Level2, size: nat)
    requires Rooted(tables, level2, size) && |level2| <= |level2'|
    requires forall i :: 0 <= i < |tables| ==> level2'[tables[i]] == level2[tables[i]]
    ensures Rooted(tables, level2', size) && Pages(tables, level2', size) == Pages(tables, level2, size)
  {
    forall k: nat | k < |tables| * size ensures Pages(tables, level2', size)[k] == Pages(tables, level2, size)[k] {
      Joins(k, size);
      InTables(k / size, k % size, |tables|, size);
    }
  }

  lemma SameSlots(frames: seq<FrameEntry>, level2: Level2, level2': Level2, tables: seq<nat>, size: nat)
    requires Rooted(tables, level2, size) && |level2| <= |level2'|
    requires forall i :: 0 <= i < |tables| ==> level2'[tables[i]] == level2[tables[i]]
    requires forall i :: 0 <= i < |frames| ==> PointsInto(frames[i].pageData, tables, size)
    ensures Slots(frames, level2') == Slots(frames, level2)
  {
    forall i | 0 <= i < |frames| ensures NumberOf(frames[i].pageData, level2') == NumberOf(frames[i].pageData, level2) {
      if frames[i].pageData.Ref? {
        var j :| 0 <= j < |tables| && tables[j] == frames[i].pageData.table;
      }
    }
  }

  // ---- Changes to one process ---------------------------------------------------------

  /** The position of a table among the tables of a process. */
  lemma TableIndex(tables: seq<nat>, t: nat) returns (i: nat)
    requires t in tables
    ensures i < |tables| && tables[i] == t
  {
    i :| 0 <= i < |tables| && tables[i] == t;
  }

  predicate InStore(st: Directory, r: PageRef) { r.Ref? && r.table < |st.level2| && r.entry < |st.level2[r.table]| }

  function EntryAt(st: Directory, r: PageRef): PageEntry
    requires InStore(st, r)
  {
    st.level2[r.table][r.entry]
  }

  lemma RefIsInStore(g: Geometry, st: Directory, h: Handle, pid: nat, r: PageRef)
    requires Linked(g, st, h, pid) && r.Ref? && PointsInto(r, st.level1[h.pt], g.entriesPerTable)
    ensures InStore(st, r) && EntryAt(st, r).page < |ProcessOf(g, st, h, pid).pages|
    ensures ProcessOf(g, st, h, pid).pages[EntryAt(st, r).page] == ToEntry(EntryAt(st, r))
  {
    var i := TableIndex(st.level1[h.pt], r.table);
    PageOfEntry(st.level1[h.pt], st.level2, g.entriesPerTable, i, r.entry);
  }

  /** The bits, the frame or the presence of a page change in its table. */
  lemma EntryChanges(g: Geometry, st: Directory, h: Handle, pid: nat, r: PageRef, e: PageEntry)
    requires Linked(g, st, h, pid) && r.Ref? && PointsInto(r, st.level1[h.pt], g.entriesPerTable)
    requires InStore(st, r) && e.page == EntryAt(st, r).page < |ProcessOf(g, st, h, pid).pages|
    ensures var st' := st.(level2 := Set(st.level2, r, e));
            && Private(st, st', h, pid) && Linked(g, st', h, pid)
            && ProcessOf(g, st', h, pid)
               == ProcessOf(g, st, h, pid).(pages := ProcessOf(g, st, h, pid).pages[e.page := ToEntry(e)])
  {
    var i := TableIndex(st.level1[h.pt], r.table);
    SetChangesThePage(st.level1[h.pt], st.level2, g.entriesPerTable, i, r.entry, e);
    SetKeepsSlots(st.frames[h.fi].frames, st.level2, r, e);
  }

  function SetSlot(st: Directory, fi: nat, i: nat, r: PageRef): Directory
    requires fi < |st.frames| && i < |st.frames[fi].frames|
  {
    var list := st.frames[fi].frames;
    st.(frames := st.frames[fi := st.frames[fi].(frames := list[i := list[i].(pageData := r)])])
  }

  lemma SlotChanges(g: Geometry, st: Directory, h: Handle, pid: nat, i: nat, r: PageRef)
    requires Linked(g, st, h, pid) && i < |st.frames[h.fi].frames| && PointsInto(r, st.level1[h.pt], g.entriesPerTable)
    ensures var st' := SetSlot(st, h.fi, i, r);
            var p := ProcessOf(g, st, h, pid);
            && Private(st, st', h, pid) && Linked(g, st', h, pid)
            && ProcessOf(g, st', h, pid) == p.(slots := p.slots[i := p.slots[i].(page := NumberOf(r, st.level2))])
  {
    var st' := SetSlot(st, h.fi, i, r);
    assert Slots(st'.frames[h.fi].frames, st.level2)
        == Slots(st.frames[h.fi].frames, st.level2)[i := Slot(st.frames[h.fi].frames[i].frame, NumberOf(r, st.level2))];
  }

  lemma HandChanges(g: Geometry, st: Directory, h: Handle, pid: nat, hand: nat)
    requires Linked(g, st, h, pid)
    ensures var st' := st.(frames := st.frames[h.fi := st.frames[h.fi].(clockHand := hand)]);
            && Private(st, st', h, pid) && Linked(g, st', h, pid)
            && ProcessOf(g, st', h, pid) == ProcessOf(g, st, h, pid).(hand := hand)
  {
  }

  /** A page is written in the swap file. */
  lemma SwapChanges(g: Geometry, st: Directory, h: Handle, pid: nat, k: nat, page: Page, file: seq<byte>)
    requires Linked(g, st, h, pid) && k < PageCount(g, st.swap[pid]) && |page| == g.pageSize
    requires Start(k, g.pageSize) + g.pageSize <= |st.swap[pid]|
    requires file == st.swap[pid][..Start(k, g.pageSize)] + page + st.swap[pid][Start(k, g.pageSize) + g.pageSize..]
    ensures var st' := st.(swap := st.swap[pid := file]);
            && Private(st, st', h, pid) && Linked(g, st', h, pid)
            && ProcessOf(g, st', h, pid) == ProcessOf(g, st, h, pid).(swap := ProcessOf(g, st, h, pid).swap[k := page])
  {
    assert |file| == |st.swap[pid]|;
    PagesFitTheFile(g, file);
    WriteChunk(st.swap[pid], file, g.pageSize, PageCount(g, file), k, page);
  }

  lemma PrivateIsReflexive(st: Directory, h: Handle, pid: nat)
    requires h.pt < |st.level1|
    ensures Private(st, st, h, pid)
  {
  }

  lemma PrivateIsTransitive(st: Directory, st': Directory, st'': Directory, h: Handle, pid: nat)
    requires h.pt < |st.level1| && Private(st, st', h, pid) && Private(st', st'', h, pid)
    ensures Private(st, st'', h, pid)
  {
  }

  // ---- New processes ------------------------------------------------------------------

  /** A level-2 table as page_table_init makes it: the pages are numbered throughout the process. The source numbers
      them within the table, see AsWritten.SlotsCollide. */
  function FreshTable(i: nat, size: nat): (r: seq<PageEntry>)
    ensures |r| == size
  {
    seq(size, j requires 0 <= j < size => PageEntry(-1, false, false, false, Number(i, j, size)))
  }

  function FreshTables(n: nat, size: nat): (r: Level2)
    ensures |r| == n
  {
    seq(n, i requires 0 <= i < n => FreshTable(i, size))
  }

  function Numbers(from: nat, n: nat): (r: seq<nat>)
    ensures |r| == n
  {
    seq(n, i requires 0 <= i < n => from + i)
  }

  lemma FreshTableAt(level2: Level2, n: nat, size: nat, i: nat)
    requires i < n
    ensures var t := Numbers(|level2|, n)[i];
            t < |level2| + n && (level2 + FreshTables(n, size))[t] == FreshTable(i, size)
  {
  }

  lemma FreshEntry(i: nat, size: nat, j: nat)
    requires j < size
    ensures FreshTable(i, size)[j].page == Number(i, j, size) && ToEntry(FreshTable(i, size)[j]) == Fresh()
  {
  }

  lemma FreshIsRooted(level2: Level2, n: nat, size: nat)
    requires size > 0
    ensures var level2' := level2 + FreshTables(n, size);
            && Rooted(Numbers(|level2|, n), level2', size)
            && Pages(Numbers(|level2|, n), level2', size) == seq(n * size, k => Fresh())
  {
    hide FreshTables, FreshTable, Number, Fresh;
    var level2' := level2 + FreshTables(n, size);
    var tables := Numbers(|level2|, n);
    forall i | 0 <= i < n ensures tables[i] < |level2'| && level2'[tables[i]] == FreshTable(i, size) {
      FreshTableAt(level2, n, size, i);
    }
    forall i, j | 0 <= i < n && 0 <= j < size ensures level2'[tables[i]][j].page == Number(i, j, size) {
      FreshEntry(i, size, j);
    }
    FreshPages(tables, level2', n, size);
  }

  lemma FreshPages(tables: seq<nat>, level2: Level2, n: nat, size: nat)
    requires Rooted(tables, level2, size) && |tables| == n
    requires forall i :: 0 <= i < n ==> level2[tables[i]] == FreshTable(i, size)
    ensures Pages(tables, level2, size) == seq(n * size, k => Fresh())
  {
    hide FreshTable, Number, Fresh;
    forall k: nat | k < n * size ensures Pages(tables, level2, size)[k] == Fresh() {
      Joins(k, size);
      InTables(k / size, k % size, n, size);
      FreshEntry(k / size, size, k % size);
    }
  }

  lemma OneMoreTable(from: nat, i: nat, size: nat)
    ensures Numbers(from, i + 1) == Numbers(from, i) + [from + i]
    ensures FreshTables(i + 1, size) == FreshTables(i, size) + [FreshTable(i, size)]
  {
  }

  /** The lists have grown and nothing else. */
  ghost predicate Grown(st: Directory, st': Directory, pid: nat) {
    && st.level1 <= st'.level1 && st.level2 <= st'.level2 && st.frames <= st'.frames
    && (forall q :: q in st.swap && q != pid ==> q in st'.swap && st'.swap[q] == st.swap[q])
  }

  lemma GrownElsewhere(g: Geometry, st: Directory, st': Directory, h: Handle, pid: nat, q: nat)
    requires Grown(st, st', pid) && Linked(g, st, h, q) && q != pid
    ensures Linked(g, st', h, q) && ProcessOf(g, st', h, q) == ProcessOf(g, st, h, q)
  {
    var tables, size := st.level1[h.pt], g.entriesPerTable;
    assert st'.level1[h.pt] == tables && st'.frames[h.fi] == st.frames[h.fi];
    assert forall i :: 0 <= i < |tables| ==> st'.level2[tables[i]] == st.level2[tables[i]];
    hide Pages, Slots;
    SamePages(tables, st.level2, st'.level2, size);
    SameSlots(st.frames[h.fi].frames, st.level2, st'.level2, tables, size);
  }

  // ---- Frames given and taken ---------------------------------------------------------

  function EmptyFrames(frames: seq<nat>): (r: seq<FrameEntry>)
    ensures |r| == |frames|
  {
    seq(|frames|, i requires 0 <= i < |frames| => FrameEntry(frames[i], Null))
  }

  lemma OneMoreFrame(frames: seq<nat>, f: nat)
    ensures EmptyFrames(frames + [f]) == EmptyFrames(frames) + [FrameEntry(f, Null)]
  {
  }

  function SetFrames(st: Directory, fi: nat, frames: seq<FrameEntry>): Directory
    requires fi < |st.frames|
  {
    st.(frames := st.frames[fi := st.frames[fi].(frames := frames)])
  }

  /** All the frames of a process are exchanged for frames that hold no page. */
  lemma FramesChange(g: Geometry, st: Directory, h: Handle, pid: nat, frames: seq<FrameEntry>)
    requires Linked(g, st, h, pid) && forall i :: 0 <= i < |frames| ==> frames[i].pageData.Null?
    ensures var st' := SetFrames(st, h.fi, frames);
            && Private(st, st', h, pid) && Linked(g, st', h, pid)
            && ProcessOf(g, st', h, pid)
               == var p := ProcessOf(g, st, h, pid);
                  p.(slots := seq(|frames|, i requires 0 <= i < |frames| => Slot(frames[i].frame, -1)))
  {
    assert Slots(frames, st.level2) == seq(|frames|, i requires 0 <= i < |frames| => Slot(frames[i].frame, -1));
  }

  lemma {:induction false} ReleasedBits(bitmap: seq<bool>, slots: seq<Slot>, f: nat)
    requires f < |bitmap|
    ensures Released(bitmap, slots)[f] <==> bitmap[f] && forall i :: 0 <= i < |slots| ==> slots[i].frame != f
  {
    if slots != [] {
      ReleasedBits(bitmap, slots[1..], f);
      if forall i :: 0 <= i < |slots| ==> slots[i].frame != f {
        assert forall i :: 0 <= i < |slots[1..]| ==> slots[1..][i].frame == slots[i + 1].frame;
      } else {
        var i :| 0 <= i < |slots| && slots[i].frame == f;
        if i > 0 { assert slots[1..][i - 1].frame == f; }
      }
    }
  }

  // ---- Processes among each other -----------------------------------------------------

  lemma StrangersKept(st: Directory, st': Directory, h: Handle, h': Handle)
    requires h.pt < |st.level1| && h'.pt < |st.level1| && st.level1 <= st'.level1 && Strangers(st, h, h')
    ensures h.pt < |st'.level1| && h'.pt < |st'.level1| && Strangers(st', h, h')
  {
  }

  /** A process with new tables and a new list of frames is a stranger to all. */
  lemma NewIsAStranger(g: Geometry, st: Directory, st': Directory, h: Handle, q: nat, n: nat)
    requires Linked(g, st, h, q) && st'.level1 == st.level1 + [Numbers(|st.level2|, n)]
    ensures var h' := Handle(|st.level1|, |st.frames|); Strangers(st', h, h') && Strangers(st', h', h)
  {
    forall t | t in st.level1[h.pt] ensures t !in Numbers(|st.level2|, n) {
      var i := TableIndex(st.level1[h.pt], t);
    }
  }

  function ZeroFile(size: nat): seq<byte> { seq(size, i => 0) }

  lemma ZeroPages(g: Geometry, size: nat)
    requires GeometryOk(g)
    ensures SwapPages(g, ZeroFile(size)) == seq(PagesOf(g, size), k => Zeros(g.pageSize))
  {
    hide Start;
    PagesFitTheFile(g, ZeroFile(size));
    forall k: nat | k < PagesOf(g, size) ensures SwapPages(g, ZeroFile(size))[k] == Zeros(g.pageSize) {
      PieceFits(k, PagesOf(g, size), g.pageSize);
    }
  }

  /** process_new leads to a process as Paging creates it. */
  lemma NewIsLinked(g: Geometry, st: Directory, pid: nat, size: nat, frames: seq<nat>)
    requires GeometryOk(g)
    ensures var n := CeilDiv(PagesOf(g, size), g.entriesPerTable);
            var st' := Directory(st.level1 + [Numbers(|st.level2|, n)], st.level2 + FreshTables(n, g.entriesPerTable),
                                 st.frames + [ProcessFrames(EmptyFrames(frames), 0)], st.swap[pid := ZeroFile(size)]);
            var h := Handle(|st.level1|, |st.frames|);
            Linked(g, st', h, pid) && ProcessOf(g, st', h, pid) == Created(g, size, frames) && Grown(st, st', pid)
  {
    hide FreshTables, Numbers, CeilDiv, SwapPages, Rooted, Pages;
    var n := CeilDiv(PagesOf(g, size), g.entriesPerTable);
    FreshIsRooted(st.level2, n, g.entriesPerTable);
    ZeroPages(g, size);
    PagingRuns.WholeTables(PagesOf(g, size), g.entriesPerTable);
    assert Slots(EmptyFrames(frames), st.level2 + FreshTables(n, g.entriesPerTable)) == EmptySlots(frames);
  }

  predicate IsBare(frames: seq<FrameEntry>) { forall i :: 0 <= i < |frames| ==> frames[i].frame == -1 }

  ghost predicate HasList(clients: map<nat, Handle>, f: nat) { exists pid :: pid in clients && clients[pid].fi == f }

  /** The lists of frames that processes have left behind hold no frames. */
  ghost predicate Abandoned(st: Directory, clients: map<nat, Handle>) {
    forall f :: 0 <= f < |st.frames| ==> IsBare(st.frames[f].frames) || HasList(clients, f)
  }

  /** The PCBs the kernel holds lead to processes that share nothing. */
  ghost predicate AllLinked(g: Geometry, st: Directory, clients: map<nat, Handle>) {
    && (forall pid :: pid in clients ==> Linked(g, st, clients[pid], pid))
    && (forall a, b :: a in clients && b in clients && a != b ==> Strangers(st, clients[a], clients[b]))
    && Abandoned(st, clients)
  }

  ghost function ProcessesOf(g: Geometry, st: Directory, clients: map<nat, Handle>): map<nat, Process>
    requires AllLinked(g, st, clients)
  {
    map pid | pid in clients :: ProcessOf(g, st, clients[pid], pid)
  }

  lemma StillAbandoned(st: Directory, st': Directory, clients: map<nat, Handle>, pid: nat)
    requires Abandoned(st, clients) && pid in clients && clients[pid].pt < |st.level1|
    requires Private(st, st', clients[pid], pid)
    ensures Abandoned(st', clients)
  {
  }

  lemma AbandonedWithNewcomer(st: Directory, st': Directory, clients: map<nat, Handle>, pid: nat, h: Handle)
    requires Abandoned(st, clients) && pid !in clients && st.frames <= st'.frames && |st'.frames| == |st.frames| + 1
    requires h.fi == |st.frames|
    ensures Abandoned(st', clients[pid := h])
  {
    var more := clients[pid := h];
    forall f | 0 <= f < |st'.frames| ensures IsBare(st'.frames[f].frames) || HasList(more, f) {
      if f == h.fi {
        assert pid in more && more[pid].fi == f;
      } else if HasList(clients, f) {
        var q :| q in clients && clients[q].fi == f;
        assert q in more && more[q].fi == f;
      }
    }
  }

  lemma AbandonedWithout(st: Directory, clients: map<nat, Handle>, pid: nat)
    requires Abandoned(st, clients) && pid in clients && clients[pid].fi < |st.frames|
    requires IsBare(st.frames[clients[pid].fi].frames)
    ensures Abandoned(st, clients - {pid})
  {
    var rest := clients - {pid};
    forall f | 0 <= f < |st.frames| ensures IsBare(st.frames[f].frames) || HasList(rest, f) {
      if HasList(clients, f) && f != clients[pid].fi {
        var q :| q in clients && clients[q].fi == f;
        assert q in rest && rest[q].fi == f;
      }
    }
  }

  /** What happens to one process alone leaves the others as they were. */
  lemma OthersKept(g: Geometry, st: Directory, st': Directory, clients: map<nat, Handle>, pid: nat)
    requires AllLinked(g, st, clients) && pid in clients
    requires Private(st, st', clients[pid], pid) && Linked(g, st', clients[pid], pid)
    ensures AllLinked(g, st', clients)
    ensures ProcessesOf(g, st', clients) == ProcessesOf(g, st, clients)[pid := ProcessOf(g, st', clients[pid], pid)]
  {
    hide Wired, ProcessOf, Strangers;
    assert Abandoned(st', clients) by { StillAbandoned(st, st', clients, pid); }
    forall q | q in clients && q != pid
      ensures Linked(g, st', clients[q], q) && ProcessOf(g, st', clients[q], q) == ProcessOf(g, st, clients[q], q)
    {
      assert Strangers(st, clients[pid], clients[q]);
      PrivateElsewhere(g, st, st', clients[pid], pid, clients[q], q);
    }
    forall a, b | a in clients && b in clients && a != b ensures Strangers(st', clients[a], clients[b]) {
      assert Strangers(st, clients[a], clients[b]);
      StrangersKept(st, st', clients[a], clients[b]);
    }
  }

  lemma NewcomerJoins(g: Geometry, st: Directory, st': Directory, clients: map<nat, Handle>, pid: nat, n: nat)
    requires AllLinked(g, st, clients) && pid !in clients && Grown(st, st', pid) && |st'.frames| == |st.frames| + 1
    requires st'.level1 == st.level1 + [Numbers(|st.level2|, n)]
    requires Linked(g, st', Handle(|st.level1|, |st.frames|), pid)
    ensures var h := Handle(|st.level1|, |st.frames|);
            && AllLinked(g, st', clients[pid := h])
            && ProcessesOf(g, st', clients[pid := h]) == ProcessesOf(g, st, clients)[pid := ProcessOf(g, st', h, pid)]
  {
    hide Wired, ProcessOf, Strangers, Numbers;
    var h := Handle(|st.level1|, |st.frames|);
    AbandonedWithNewcomer(st, st', clients, pid, h);
    forall q | q in clients
      ensures Linked(g, st', clients[q], q) && ProcessOf(g, st', clients[q], q) == ProcessOf(g, st, clients[q], q)
      ensures Strangers(st', clients[q], h) && Strangers(st', h, clients[q])
    {
      GrownElsewhere(g, st, st', clients[q], pid, q);
      NewIsAStranger(g, st, st', clients[q], q, n);
    }
    forall a, b | a in clients && b in clients && a != b ensures Strangers(st', clients[a], clients[b]) {
      StrangersKept(st, st', clients[a], clients[b]);
    }
  }

  lemma ProcessLeaves(g: Geometry, st: Directory, clients: map<nat, Handle>, pid: nat)
    requires AllLinked(g, st, clients) && pid in clients && IsBare(st.frames[clients[pid].fi].frames)
    ensures var st' := st.(swap := st.swap - {pid});
            && AllLinked(g, st', clients - {pid})
            && ProcessesOf(g, st', clients - {pid}) == ProcessesOf(g, st, clients) - {pid}
  {
    hide Wired, ProcessOf, Strangers;
    var st' := st.(swap := st.swap - {pid});
    var rest := clients - {pid};
    AbandonedWithout(st, clients, pid);
    assert Abandoned(st', rest);
    forall q | q in rest ensures Linked(g, st', rest[q], q)
        && ProcessOf(g, st', rest[q], q) == ProcessOf(g, st, rest[q], q) {
      GrownElsewhere(g, st, st', rest[q], pid, q);
    }
    forall a, b | a in rest && b in rest && a != b ensures Strangers(st', rest[a], rest[b]) {
      StrangersKept(st, st', rest[a], rest[b]);
    }
  }
}
