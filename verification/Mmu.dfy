/** cpu/src/cpu.c:439-475 and the word accesses of the CPU: a logical address is split, its page is looked up in two
    levels of tables, and the word is read or written in the page's frame. */
module Mmu {
  import opened Processes
  import opened Paging
  import opened PagingProcess
  import opened Tables
  import opened MemoryStore
  import opened MemoryServer
  import W = Wire
  import F = PagingRefinement
  import V = PagingRuns

  /** The parts of a logical address. */
  datatype Address = Address(page: nat, level1: nat, level2: nat, offset: nat)

  function Split(g: Geometry, a: nat): Address
    requires GeometryOk(g)
  {
    var page := a / g.pageSize;
    Address(page, page / g.entriesPerTable, page % g.entriesPerTable, a - page * g.pageSize)
  }

  /** For every address below the whole pages of a process the two indexes are in range of its tables, and the parts
      recompose to the address. */
  lemma AddressesSplit(g: Geometry, size: nat, a: nat)
    requires GeometryOk(g) && a < PagesOf(g, size) * g.pageSize
    ensures var s := Split(g, a);
            && s.page < PagesOf(g, size) && s.offset < g.pageSize
            && s.level1 < CeilDiv(PagesOf(g, size), g.entriesPerTable) && s.level2 < g.entriesPerTable
            && Number(s.level1, s.level2, g.entriesPerTable) == s.page
            && Number(s.page, s.offset, g.pageSize) == a
  {
    var s, n := Split(g, a), PagesOf(g, size);
    hide PagesOf, CeilDiv;
    Joins(a, g.pageSize);
    Joins(s.page, g.entriesPerTable);
    InTables(s.page, s.offset, n, g.pageSize);
    V.WholeTables(n, g.entriesPerTable);
    InTables(s.level1, s.level2, CeilDiv(n, g.entriesPerTable), g.entriesPerTable);
  }

  /** Different positions, of one process or of two, are different entries. */
  lemma WalksAreDistinct(g: Geometry, st: Directory, clients: map<nat, Handle>, a: nat, i: nat, j: nat, b: nat, l: nat,
          m: nat)
    requires AllLinked(g, st, clients) && a in clients && b in clients
    requires i < |st.level1[clients[a].pt]| && l < |st.level1[clients[b].pt]| && (a, i, j) != (b, l, m)
    ensures (st.level1[clients[a].pt][i], j) != (st.level1[clients[b].pt][l], m)
  {
    if a != b {
      assert Strangers(st, clients[a], clients[b]);
      assert st.level1[clients[a].pt][i] in st.level1[clients[a].pt];
    } else {
      assert Wired(g, st, clients[a], a);
    }
  }

  // ---- The CPU's accesses -------------------------------------------------------------

  /** What the CPU relies on: the server is consistent, and the process on the CPU is resident with that page. */
  ghost predicate CanReach(server: Server, pid: nat, pt: nat, fi: nat, a: nat)
    reads server, server.bitmap, server.memory
  {
    && server.Valid() && Inv(server.g, server.Abs())
    && pid in server.clients && server.clients[pid] == Handle(pt, fi) && pid in server.Abs().procs
    && Resident(server.Abs().procs[pid])
    && a / server.g.pageSize < |server.Abs().procs[pid].swap|
  }

  ghost function Flat(server: Server): V.Flat
    requires server.Valid() && Inv(server.g, server.Abs())
    reads server, server.bitmap, server.memory
  {
    V.FlatOf(server.g, server.Abs())
  }

  /** mmu: the physical address, frame * pageSize + offset. The source adds the offset to the frame number itself, see
      AsWritten.PhysicalAddressIsRight. */
  method Translate(server: Server, pid: nat, pt: nat, fi: nat, logical: nat) returns (physical: nat)
    requires CanReach(server, pid, pt, fi, logical)
    modifies server, server.memory
    ensures server.Valid() && server.clients == old(server.clients)
    ensures var s := Split(server.g, logical);
            && F.Live(server.g, old(server.Abs()), pid) && s.page < |old(server.Abs()).procs[pid].swap|
            && var t := F.TranslateStep(server.g, old(server.Abs()), pid, s.page);
               && server.Abs() == t.m && t.t.frame >= 0 && physical == Number(t.t.frame, s.offset, server.g.pageSize)
  {
    hide Wired, ProcessOf, ProcOk, AllOk, Apart, Covered, Counted, Strangers, Abandoned, Translated, Resident, Chunks,
         F.TranslateStep, F.Live;
    var page := logical / server.g.pageSize;
    var level1 := page / server.g.entriesPerTable;
    var level2 := page % server.g.entriesPerTable;
    var offset := logical - page * server.g.pageSize;
    PageIsInTables(server, pid, page);
    var pt2 := server.GetPageTable2Index(pt, level1);
    server.EntryInTables(level1, level2, server.clients[pid], pid);
    var frame := server.AccessLvl2Table(pid, pt2, level2, fi);
    FrameIsReal(server.g, old(server.Abs()), pid, page);
    physical := frame * server.g.pageSize + offset;
  }

  lemma PageIsInTables(server: Server, pid: nat, page: nat)
    requires server.Valid() && pid in server.clients && page < |server.Abs().procs[pid].swap|
    ensures server.g.entriesPerTable > 0
    ensures page / server.g.entriesPerTable < |server.level1Tables[server.clients[pid].pt]|
    ensures page % server.g.entriesPerTable < server.g.entriesPerTable
    ensures Number(page / server.g.entriesPerTable, page % server.g.entriesPerTable, server.g.entriesPerTable) == page
  {
    var e := server.g.entriesPerTable;
    Joins(page, e);
    InTables(page / e, page % e, |server.level1Tables[server.clients[pid].pt]|, e);
  }

  lemma FrameIsReal(g: Geometry, m: Memory, pid: nat, k: nat)
    requires Inv(g, m) && pid in m.procs && Resident(m.procs[pid]) && k < |m.procs[pid].swap|
    ensures F.Live(g, m, pid)
    ensures var s := F.TranslateStep(g, m, pid, k);
            && Sound(g, s) && s.t == At(pid, k, s.t.frame) && 0 <= s.t.frame < |m.ram|
            && V.FlatOf(g, s.m) == V.FlatOf(g, m)
  {
    V.TranslateKept(g, m, pid, k);
    F.SoundIsPointed(g, F.TranslateStep(g, m, pid, k));
  }

  /** A word that does not cross a page boundary is read as the flat memory of the process has it, and nothing else
      changes for anybody. */
  method ReadWord(server: Server, pid: nat, pt: nat, fi: nat, logical: nat) returns (value: seq<byte>)
    requires CanReach(server, pid, pt, fi, logical) && Split(server.g, logical).offset + 4 <= server.g.pageSize
    modifies server, server.memory
    ensures server.Valid() && Inv(server.g, server.Abs()) && server.clients == old(server.clients)
    ensures var s := Split(server.g, logical);
            && Flat(server) == old(Flat(server))
            && pid in old(Flat(server)) && s.page < |old(Flat(server))[pid]|
            && |old(Flat(server))[pid][s.page]| == server.g.pageSize
            && value == old(Flat(server))[pid][s.page][s.offset..s.offset + 4]
    ensures pid in server.Abs().procs && Resident(server.Abs().procs[pid])
  {
    hide Wired, ProcessOf, AllLinked, AllOk, Apart, Covered, Counted, Translated, Resident, Chunks, F.TranslateStep,
         F.Live, V.FlatOf;
    ghost var s, before := Split(server.g, logical), server.Abs();
    var physical := Translate(server, pid, pt, fi, logical);
    ghost var t := F.TranslateStep(server.g, before, pid, s.page);
    FrameIsReal(server.g, before, pid, s.page);
    TranslatedIsThere(server.g, t);
    value := server.MemoryRead(physical, pid, s.page, s.offset);
    StaysResident(server.g, before, pid, s.page);
    V.LoadKept(server.g, t);
  }

  /** A write changes those four bytes of the process and nothing else for anybody. */
  method WriteWord(server: Server, pid: nat, pt: nat, fi: nat, logical: nat, value: seq<byte>)
    requires CanReach(server, pid, pt, fi, logical) && Split(server.g, logical).offset + 4 <= server.g.pageSize
    requires |value| == 4
    modifies server, server.memory
    ensures server.Valid() && Inv(server.g, server.Abs()) && server.clients == old(server.clients)
    ensures var s, flat := Split(server.g, logical), old(Flat(server));
            && pid in flat && s.page < |flat[pid]| && |flat[pid][s.page]| == server.g.pageSize
            && Flat(server) == flat[pid := flat[pid][s.page := Overwrite(flat[pid][s.page], s.offset, value)]]
  {
    hide Wired, ProcessOf, AllLinked, AllOk, Apart, Covered, Counted, Translated, Resident, Chunks, F.TranslateStep,
         F.Live, V.FlatOf;
    ghost var s, before := Split(server.g, logical), server.Abs();
    var physical := Translate(server, pid, pt, fi, logical);
    ghost var t := F.TranslateStep(server.g, before, pid, s.page);
    FrameIsReal(server.g, before, pid, s.page);
    TranslatedIsThere(server.g, t);
    server.MemoryWrite(physical, value, pid, s.page, s.offset);
    V.StoreKept(server.g, t, s.offset, value);
  }

  lemma StaysResident(g: Geometry, m: Memory, pid: nat, k: nat)
    requires Inv(g, m) && pid in m.procs && Resident(m.procs[pid]) && k < |m.procs[pid].swap|
    ensures F.Live(g, m, pid)
    ensures var p := F.TranslateStep(g, m, pid, k).m.procs[pid];
            Resident(p) && k < |p.pages| && Resident(Touched(p, k, false))
  {
    V.TranslateKeepsResidence(g, m, pid, k);
    FrameIsReal(g, m, pid, k);
  }

  /** The word at d is the one that was at s, and that is all. */
  ghost predicate Copied(g: Geometry, flat: V.Flat, flat': V.Flat, pid: nat, d: Address, s: Address) {
    && pid in flat && d.page < |flat[pid]| && s.page < |flat[pid]|
    && |flat[pid][d.page]| == |flat[pid][s.page]| == g.pageSize && d.offset + 4 <= g.pageSize
    && s.offset + 4 <= g.pageSize
    && var word := flat[pid][s.page][s.offset..s.offset + 4];
       flat' == flat[pid := flat[pid][d.page := Overwrite(flat[pid][d.page], d.offset, word)]]
  }

  /** execute_copy, each address translated just before it is used: the word at one address comes to the other. The
      source translates both first, see AsWritten.SecondTranslationMayEvict. */
  method CopyWord(server: Server, pid: nat, pt: nat, fi: nat, to: nat, from: nat)
    requires CanReach(server, pid, pt, fi, to) && Split(server.g, to).offset + 4 <= server.g.pageSize
    requires CanReach(server, pid, pt, fi, from) && Split(server.g, from).offset + 4 <= server.g.pageSize
    modifies server, server.memory
    ensures server.Valid() && Inv(server.g, server.Abs()) && server.clients == old(server.clients)
    ensures Copied(server.g, old(Flat(server)), Flat(server), pid, Split(server.g, to), Split(server.g, from))
  {
    hide Wired, ProcessOf, AllLinked, AllOk, Apart, Covered, Counted, Resident, Chunks;
    SameLength(server, pid);
    ghost var flat := Flat(server);
    var value := ReadWord(server, pid, pt, fi, from);
    SameLength(server, pid);
    WriteWord(server, pid, pt, fi, to, value);
  }

  /** execute_read: the word at the address of the first parameter. */
  method ExecuteRead(server: Server, pid: nat, pt: nat, fi: nat, params: seq<nat>) returns (value: nat)
    requires |params| >= 1 && CanReach(server, pid, pt, fi, params[0])
    requires Split(server.g, params[0]).offset + 4 <= server.g.pageSize
    modifies server, server.memory
    ensures server.Valid() && Inv(server.g, server.Abs()) && server.clients == old(server.clients)
    ensures var s, flat := Split(server.g, params[0]), old(Flat(server));
            && Flat(server) == flat
            && pid in flat && s.page < |flat[pid]| && |flat[pid][s.page]| == server.g.pageSize
            && W.Word(value) == flat[pid][s.page][s.offset..s.offset + 4]
  {
    hide AllLinked, AllOk, Apart, Covered, Counted, Resident;
    var word := ReadWord(server, pid, pt, fi, params[0]);
    value := W.WordOf(word);
    W.BytesOfWord(word[0], word[1], word[2], word[3]);
  }

  /** execute_write: the second parameter goes to the address of the first. */
  method ExecuteWrite(server: Server, pid: nat, pt: nat, fi: nat, params: seq<nat>)
    requires |params| >= 2 && CanReach(server, pid, pt, fi, params[0])
    requires Split(server.g, params[0]).offset + 4 <= server.g.pageSize
    modifies server, server.memory
    ensures server.Valid() && Inv(server.g, server.Abs()) && server.clients == old(server.clients)
    ensures var s, flat := Split(server.g, params[0]), old(Flat(server));
            && pid in flat && s.page < |flat[pid]| && |flat[pid][s.page]| == server.g.pageSize
            && Flat(server)
                == flat[pid := flat[pid][s.page := Overwrite(flat[pid][s.page], s.offset, W.Word(params[1]))]]
  {
    WriteWord(server, pid, pt, fi, params[0], W.Word(params[1]));
  }

  /** execute_copy: the word at the address of the second parameter goes to the address of the first. */
  method ExecuteCopy(server: Server, pid: nat, pt: nat, fi: nat, params: seq<nat>)
    requires |params| >= 2 && CanReach(server, pid, pt, fi, params[0]) && CanReach(server, pid, pt, fi, params[1])
    requires Split(server.g, params[0]).offset + 4 <= server.g.pageSize
    requires Split(server.g, params[1]).offset + 4 <= server.g.pageSize
    modifies server, server.memory
    ensures server.Valid() && Inv(server.g, server.Abs()) && server.clients == old(server.clients)
    ensures var to, from := Split(server.g, params[0]), Split(server.g, params[1]);
            Copied(server.g, old(Flat(server)), Flat(server), pid, to, from)
  {
    CopyWord(server, pid, pt, fi, params[0], params[1]);
  }

  lemma SameLength(server: Server, pid: nat)
    requires server.Valid() && Inv(server.g, server.Abs()) && pid in server.Abs().procs
    ensures pid in Flat(server) && |Flat(server)[pid]| == |server.Abs().procs[pid].swap|
  {
  }

  lemma TranslatedIsThere(g: Geometry, t: System)
    requires Sound(g, t) && t.t.At?
    ensures F.Pointed(g, t) && t.m.procs[t.t.pid].pages[t.t.page].present
    ensures t.m.procs[t.t.pid].pages[t.t.page].frame == t.t.frame
    ensures t.t.pid in V.FlatOf(g, t.m) && t.t.page < |V.FlatOf(g, t.m)[t.t.pid]|
    ensures V.FlatOf(g, t.m)[t.t.pid][t.t.page] == t.m.ram[t.t.frame]
  {
    V.TranslationShowsThePage(g, t);
  }
}
