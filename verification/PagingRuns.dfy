/** Every request keeps the memory consistent and acts on a flat private memory for every process; over a whole run each
    byte of a process reads as it was last written. */
module PagingRuns {
  import opened Processes
  import opened Clock
  import opened Paging
  import opened PagingProcess
  import opened PagingFrames
  import opened PagingRefinement

  // ---- The flat memory ----------------------------------------------------------------

  /** Pages of bytes, one sequence for every live process. */
  type Flat = map<nat, seq<Page>>

  function Contents(p: Process, ram: seq<Page>): seq<Page>
    requires |p.swap| <= |p.pages|
  {
    seq(|p.swap|, k requires 0 <= k < |p.swap| => PageView(p, ram, k))
  }

  ghost function FlatOf(g: Geometry, m: Memory): Flat
    requires Inv(g, m)
  {
    map pid | pid in m.procs :: Contents(m.procs[pid], m.ram)
  }

  /** The requests as a flat memory sees them: only creation, termination and writes do anything. */
  ghost function FlatApply(g: Geometry, flat: Flat, t: Translation, e: Event): Flat
    requires GeometryOk(g)
    requires e.Store? ==>
        t.At? && t.pid in flat && t.page < |flat[t.pid]| && e.offset + |e.word| <= |flat[t.pid][t.page]|
  {
    match e
    case New(pid, size) => flat[pid := seq(PagesOf(g, size), k => Zeros(g.pageSize))]
    case Exit(pid) => flat - {pid}
    case Store(o, word) => flat[t.pid := flat[t.pid][t.page := Overwrite(flat[t.pid][t.page], o, word)]]
    case _ => flat
  }

  lemma SameContents(p: Process, ram: seq<Page>, q: Process, ram': seq<Page>)
    requires |p.swap| <= |p.pages| && |q.swap| <= |q.pages| && SameView(p, ram, q, ram')
    ensures Contents(p, ram) == Contents(q, ram')
  {
  }

  // ---- Steps that change one process --------------------------------------------------

  lemma OthersLookTheSame(g: Geometry, m: Memory, pid: nat, a: nat, ram: seq<Page>)
    requires Inv(g, m) && pid in m.procs && a in m.procs && a != pid
    requires RamOk(g, ram) && OthersAlone(m.procs[pid], m.ram, ram)
    ensures Contents(m.procs[a], m.ram) == Contents(m.procs[a], ram)
  {
    hide Covered, Counted, Apart, PageOk, SlotOk, OthersAlone;
    NeighbourKept(g, m, pid, a, ram);
  }

  lemma FlatAfterChange(g: Geometry, m: Memory, pid: nat, q: Process, ram: seq<Page>)
    requires Inv(g, m) && pid in m.procs && ProcOk(g, q, m.bitmap, ram) && SameFrames(m.procs[pid], q)
    requires RamOk(g, ram) && OthersAlone(m.procs[pid], m.ram, ram)
    ensures var m' := Memory(m.procs[pid := q], m.bitmap, ram);
            Inv(g, m') && FlatOf(g, m') == FlatOf(g, m)[pid := Contents(q, ram)]
  {
    hide Covered, Counted, Apart, PageOk, SlotOk, OthersAlone, Contents;
    OneProcessChanges(g, m, pid, q, ram);
    forall a | a in m.procs && a != pid ensures Contents(m.procs[a], m.ram) == Contents(m.procs[a], ram) {
      OthersLookTheSame(g, m, pid, a, ram);
    }
  }

  lemma RamStaysOk(g: Geometry, p: Process, bitmap: seq<bool>, ram: seq<Page>, k: nat)
    requires ProcOk(g, p, bitmap, ram) && RamOk(g, ram) && |ram| == |bitmap| && Resident(p) && Fits(p, ram)
    requires k < |p.swap|
    ensures RamOk(g, Translated(g, p, ram, k).ram)
  {
    if !p.pages[k].present && FirstFree(p.slots, 0) == |p.slots| {
      hide ProcOk, WithUsed;
      VacatedOk(g, p, bitmap, ram);
      var q := Vacated(p, ram, Replacement(g.clockM, BitsOf(p), p.hand));
      assert |q.swap[k]| == g.pageSize by { SwapIsPaged(g, q, bitmap, ram, k); }
      OkFits(g, q, bitmap, ram);
    }
  }

  lemma SwapIsPaged(g: Geometry, p: Process, bitmap: seq<bool>, ram: seq<Page>, k: nat)
    requires ProcOk(g, p, bitmap, ram) && k < |p.swap|
    ensures |p.swap[k]| == g.pageSize
  {
  }

  lemma TranslateKept(g: Geometry, m: Memory, pid: nat, k: nat)
    requires Inv(g, m) && pid in m.procs && Resident(m.procs[pid]) && k < |m.procs[pid].swap|
    ensures Live(g, m, pid)
    ensures var s := TranslateStep(g, m, pid, k);
            Sound(g, s) && FlatOf(g, s.m) == FlatOf(g, m)
  {
    hide Covered, Counted, Apart, ProcOk, OthersAlone, Contents, Translated, SameFrames, SameView;
    var p := m.procs[pid];
    OkFits(g, p, m.bitmap, m.ram);
    var c := Translated(g, p, m.ram, k);
    TranslatedOk(g, p, m.bitmap, m.ram, k);
    RamStaysOk(g, p, m.bitmap, m.ram, k);
    FlatAfterChange(g, m, pid, c.p, c.ram);
    TranslatedContents(g, p, m.bitmap, m.ram, k);
  }

  /** The process keeps its frames. */
  lemma TranslateKeepsResidence(g: Geometry, m: Memory, pid: nat, k: nat)
    requires Inv(g, m) && pid in m.procs && Resident(m.procs[pid]) && k < |m.procs[pid].swap|
    ensures Fits(m.procs[pid], m.ram) && Resident(Translated(g, m.procs[pid], m.ram, k).p)
  {
    hide Translated, SlotOk, PageOk;
    OkFits(g, m.procs[pid], m.bitmap, m.ram);
    TranslatedOk(g, m.procs[pid], m.bitmap, m.ram, k);
  }

  lemma TranslatedContents(g: Geometry, p: Process, bitmap: seq<bool>, ram: seq<Page>, k: nat)
    requires ProcOk(g, p, bitmap, ram) && RamOk(g, ram) && |ram| == |bitmap| && Resident(p) && Fits(p, ram)
    requires k < |p.swap|
    ensures var c := Translated(g, p, ram, k);
            |c.p.swap| == |p.swap| && |c.p.swap| <= |c.p.pages| && Contents(c.p, c.ram) == Contents(p, ram)
  {
    hide PageOk, SlotOk, Translated, OthersAlone, SameFrames;
    TranslatedOk(g, p, bitmap, ram, k);
    var c := Translated(g, p, ram, k);
    SameContents(p, ram, c.p, c.ram);
  }

  lemma LoadKept(g: Geometry, s: System)
    requires Sound(g, s) && s.t.At?
    ensures Sound(g, LoadStep(s)) && FlatOf(g, LoadStep(s).m) == FlatOf(g, s.m)
  {
    hide Covered, Counted, Apart, PageOk, SlotOk, Contents;
    var p := s.m.procs[s.t.pid];
    ReadOk(g, p, s.m.bitmap, s.m.ram, s.t.page);
    FlatAfterChange(g, s.m, s.t.pid, Touched(p, s.t.page, false), s.m.ram);
    SameContents(p, s.m.ram, Touched(p, s.t.page, false), s.m.ram);
  }

  lemma StoreKept(g: Geometry, s: System, o: nat, word: seq<byte>)
    requires Sound(g, s) && s.t.At? && o + |word| <= g.pageSize
    ensures Pointed(g, s)
    ensures s.t.pid in FlatOf(g, s.m) && s.t.page < |FlatOf(g, s.m)[s.t.pid]|
    ensures |FlatOf(g, s.m)[s.t.pid][s.t.page]| == g.pageSize
    ensures var s' := StoreStep(g, s, o, word);
            Sound(g, s') && FlatOf(g, s'.m) == FlatApply(g, FlatOf(g, s.m), s.t, Store(o, word))
  {
    hide Covered, Counted, Apart, ProcOk, OthersAlone, SameFrames, Overwrite;
    SoundIsPointed(g, s);
    var p, f := s.m.procs[s.t.pid], s.t.frame;
    var page := Overwrite(s.m.ram[f], o, word);
    WrittenOk(g, p, s.m.bitmap, s.m.ram, s.t.page, page);
    OverwriteKeepsLength(s.m.ram[f], o, word);
    var q, ram := Touched(p, s.t.page, true), s.m.ram[f := page];
    FlatAfterChange(g, s.m, s.t.pid, q, ram);
    assert Contents(q, ram) == Contents(p, s.m.ram)[s.t.page := page];
  }

  lemma OverwriteKeepsLength(page: Page, o: nat, word: seq<byte>)
    requires o + |word| <= |page|
    ensures |Overwrite(page, o, word)| == |page|
    ensures forall i :: 0 <= i < |page| ==> Overwrite(page, o, word)[i] == if o <= i < o + |word| then word[i - o]
        else page[i]
  {
  }

  // ---- Creation, suspension, resumption, termination ----------------------------------

  lemma WholeTables(a: nat, b: nat)
    requires b > 0
    ensures a <= CeilDiv(a, b) * b < a + b
  {
    assert a == a / b * b + a % b;
    assert (a / b + 1) * b == a / b * b + b;
  }

  lemma NewKept(g: Geometry, s: System, pid: nat, size: nat)
    requires Sound(g, s) && Enabled(g, s, New(pid, size))
    ensures GeometryOk(g)
    ensures var m' := NewStep(g, s.m, pid, size);
            Inv(g, m') && FlatOf(g, m') == FlatApply(g, FlatOf(g, s.m), s.t, New(pid, size))
  {
    hide Covered, Counted, Apart, ProcOk, EntriesOf, PagesOf;
    EnoughEntries(g, size);
    var p := Paging.Created(g, size, []);
    FramesGiven(g, s.m, pid, p);
    var r := Assign(s.m.bitmap, g.framesPerProcess);
    assert Paging.Created(g, size, r.frames) == p.(slots := EmptySlots(r.frames));
    assert Contents(Paging.Created(g, size, r.frames), s.m.ram) == seq(PagesOf(g, size), k => Zeros(g.pageSize));
  }

  lemma EnoughEntries(g: Geometry, size: nat)
    requires GeometryOk(g)
    ensures PagesOf(g, size) <= EntriesOf(g, size)
  {
    hide CeilDiv;
    WholeTables(PagesOf(g, size), g.entriesPerTable);
  }

  lemma BareHasNoPages(g: Geometry, p: Process, bitmap: seq<bool>, ram: seq<Page>)
    requires ProcOk(g, p, bitmap, ram) && Bare(p)
    ensures forall k :: 0 <= k < |p.pages| ==> !p.pages[k].present && !p.pages[k].modified
  {
    forall k | 0 <= k < |p.pages| ensures !p.pages[k].present && !p.pages[k].modified {
      assert PageOk(p, ram, k);
      if p.pages[k].present { PresentIsInASlot(g, p, bitmap, ram, k); }
    }
  }

  lemma NotResidentIsBare(g: Geometry, p: Process, bitmap: seq<bool>, ram: seq<Page>)
    requires ProcOk(g, p, bitmap, ram) && !Resident(p)
    ensures Bare(p)
  {
  }

  lemma ResumeKept(g: Geometry, s: System, pid: nat)
    requires Sound(g, s) && Enabled(g, s, Resume(pid))
    ensures var m' := ResumeStep(g, s.m, pid);
            Inv(g, m') && FlatOf(g, m') == FlatOf(g, s.m) && !(s.t.At? && s.t.pid == pid)
  {
    hide Covered, Counted, Apart, PageOk, SlotOk, Resident;
    var p := s.m.procs[pid];
    NotResidentIsBare(g, p, s.m.bitmap, s.m.ram);
    BareHasNoPages(g, p, s.m.bitmap, s.m.ram);
    FramesGiven(g, s.m, pid, p);
    var r := Assign(s.m.bitmap, g.framesPerProcess);
    assert Contents(p.(slots := EmptySlots(r.frames)), s.m.ram) == Contents(p, s.m.ram);
  }

  lemma SuspendKept(g: Geometry, s: System, pid: nat)
    requires Sound(g, s) && Enabled(g, s, Suspend(pid))
    ensures |s.m.procs[pid].swap| <= |s.m.procs[pid].pages|
    ensures var m' := SuspendStep(s.m, pid);
            Inv(g, m') && FlatOf(g, m') == FlatOf(g, s.m)
  {
    hide Covered, Counted, Apart, PageOk, SlotOk, Resident, SavedPage, PageView;
    var p := s.m.procs[pid];
    var r := Released(s.m.bitmap, p.slots);
    SuspendedOk(g, p, s.m.bitmap, s.m.ram, r);
    FramesTaken(g, s.m, pid, s.m.procs[pid := Suspended(p, s.m.ram)]);
    SameContents(p, s.m.ram, Suspended(p, s.m.ram), s.m.ram);
  }

  lemma ExitKept(g: Geometry, s: System, pid: nat)
    requires Sound(g, s) && Enabled(g, s, Event.Exit(pid))
    ensures var m' := ExitStep(s.m, pid);
            Inv(g, m') && FlatOf(g, m') == FlatApply(g, FlatOf(g, s.m), s.t, Event.Exit(pid))
  {
    hide Covered, Counted, Apart, ProcOk, Resident;
    FramesTaken(g, s.m, pid, s.m.procs - {pid});
  }

  lemma ElsewhereStaysSound(g: Geometry, s: System, m': Memory, t': Translation)
    requires Sound(g, s) && Inv(g, m')
        && (t'.At? ==> t' == s.t && t'.pid in m'.procs && m'.procs[t'.pid] == s.m.procs[t'.pid])
    ensures Sound(g, System(m', t'))
  {
    hide Inv;
  }

  /** Refinement, one step at a time. */
  lemma Refines(g: Geometry, s: System, e: Event)
    requires Sound(g, s) && Enabled(g, s, e)
    ensures e.Store? ==> s.t.pid in FlatOf(g, s.m) && s.t.page < |FlatOf(g, s.m)[s.t.pid]|
                         && |FlatOf(g, s.m)[s.t.pid][s.t.page]| == g.pageSize
    ensures Sound(g, Apply(g, s, e)) && FlatOf(g, Apply(g, s, e).m) == FlatApply(g, FlatOf(g, s.m), s.t, e)
  {
    hide Inv, NewStep, SuspendStep, ResumeStep, ExitStep, TranslateStep, LoadStep, StoreStep, FlatOf, Resident;
    match e
    case New(pid, size) => NewKept(g, s, pid, size); NewElsewhere(g, s, pid, size);
    case Suspend(pid) => SuspendKept(g, s, pid); SuspendElsewhere(g, s, pid);
    case Resume(pid) => ResumeKept(g, s, pid); ResumeElsewhere(g, s, pid);
    case Exit(pid) => ExitKept(g, s, pid); ExitElsewhere(g, s, pid);
    case Translate(pid, k) => TranslateKept(g, s.m, pid, k);
    case Load(_) => LoadKept(g, s);
    case Store(o, word) => StoreKept(g, s, o, word);
  }

  lemma NewElsewhere(g: Geometry, s: System, pid: nat, size: nat)
    requires GeometryOk(g) && Sound(g, s) && pid !in s.m.procs && Inv(g, NewStep(g, s.m, pid, size))
    ensures Sound(g, System(NewStep(g, s.m, pid, size), s.t))
  {
    hide Inv, Paging.Created;
    ElsewhereStaysSound(g, s, NewStep(g, s.m, pid, size), s.t);
  }

  lemma SuspendElsewhere(g: Geometry, s: System, pid: nat)
    requires Sound(g, s) && pid in s.m.procs && |s.m.procs[pid].swap| <= |s.m.procs[pid].pages|
    requires Inv(g, SuspendStep(s.m, pid))
    ensures Sound(g, System(SuspendStep(s.m, pid), Forget(s.t, pid)))
  {
    hide Inv, Suspended;
    ElsewhereStaysSound(g, s, SuspendStep(s.m, pid), Forget(s.t, pid));
  }

  lemma ResumeElsewhere(g: Geometry, s: System, pid: nat)
    requires Sound(g, s) && pid in s.m.procs && !(s.t.At? && s.t.pid == pid) && Inv(g, ResumeStep(g, s.m, pid))
    ensures Sound(g, System(ResumeStep(g, s.m, pid), s.t))
  {
    hide Inv;
    ElsewhereStaysSound(g, s, ResumeStep(g, s.m, pid), s.t);
  }

  lemma ExitElsewhere(g: Geometry, s: System, pid: nat)
    requires Sound(g, s) && pid in s.m.procs && Inv(g, ExitStep(s.m, pid))
    ensures Sound(g, System(ExitStep(s.m, pid), Forget(s.t, pid)))
  {
    hide Inv;
    ElsewhereStaysSound(g, s, ExitStep(s.m, pid), Forget(s.t, pid));
  }

  // ---- Runs ---------------------------------------------------------------------------

  /** memory_init: nothing is assigned and every byte is zero. */
  function Initial(g: Geometry): System {
    System(Memory(map[], seq(g.framesInMemory, f => false), seq(g.framesInMemory, f => Zeros(g.pageSize))), Nowhere)
  }

  lemma {:induction false} AllFree(bitmap: seq<bool>)
    requires forall f :: 0 <= f < |bitmap| ==> !bitmap[f]
    ensures FreeCount(bitmap) == |bitmap|
  {
    if bitmap != [] { AllFree(bitmap[1..]); }
  }

  lemma InitiallySound(g: Geometry)
    requires GeometryOk(g)
    ensures Sound(g, Initial(g))
  {
    AllFree(Initial(g).m.bitmap);
    assert Residents(Initial(g).m) == {};
  }

  /** The requests, the last one at the end, are each enabled when they are served. */
  ghost predicate Runs(g: Geometry, es: seq<Event>)
    requires GeometryOk(g)
    decreases |es|, 0
  {
    es == [] || (Runs(g, es[..|es| - 1]) && Enabled(g, After(g, es[..|es| - 1]), es[|es| - 1]))
  }

  ghost function After(g: Geometry, es: seq<Event>): (s: System)
    requires GeometryOk(g) && Runs(g, es)
    ensures Sound(g, s)
    decreases |es|, 1
  {
    if es == [] then
      InitiallySound(g);
      Initial(g)
    else
      var s := After(g, es[..|es| - 1]);
      Refines(g, s, es[|es| - 1]);
      Apply(g, s, es[|es| - 1])
  }

  // ---- Reads return the last write ----------------------------------------------------

  /** The page the CPU has translated last, as long as its process has not left the memory since. */
  datatype Target = NoTarget | Page(pid: nat, page: nat)

  function TargetOf(es: seq<Event>): Target {
    if es == [] then NoTarget
    else
      var before := TargetOf(es[..|es| - 1]);
      match es[|es| - 1]
      case Translate(pid, k) => Page(pid, k)
      case Suspend(pid) => if before.Page? && before.pid == pid then NoTarget else before
      case Exit(pid) => if before.Page? && before.pid == pid then NoTarget else before
      case _ => before
  }

  /** The byte last written to offset o of page k of a process, in the requests alone; zero before any write. */
  function LastByte(es: seq<Event>, pid: nat, k: nat, o: nat): byte {
    if es == [] then 0
    else
      var before, e := es[..|es| - 1], es[|es| - 1];
      if e.Store? && TargetOf(before) == Page(pid, k) && e.offset <= o < e.offset + |e.word| then e.word[o - e.offset]
      else if e.New? && e.pid == pid then 0
      else LastByte(before, pid, k, o)
  }

  lemma {:induction false} TargetIsTheTranslation(g: Geometry, es: seq<Event>)
    requires GeometryOk(g) && Runs(g, es)
    ensures var t := After(g, es).t; if t.At? then TargetOf(es) == Page(t.pid, t.page) else TargetOf(es) == NoTarget
    decreases |es|
  {
    hide Sound, Enabled, Inv, NewStep, SuspendStep, ResumeStep, ExitStep, Translated, LoadStep, StoreStep, Initial;
    if es == [] {
      InitialHasNoTarget(g);
    } else {
      TargetIsTheTranslation(g, es[..|es| - 1]);
      TargetStep(g, After(g, es[..|es| - 1]), es[|es| - 1]);
    }
  }

  lemma InitialHasNoTarget(g: Geometry)
    ensures Initial(g).t == Nowhere
  {
  }

  lemma TargetStep(g: Geometry, s: System, e: Event)
    requires Sound(g, s) && Enabled(g, s, e)
    ensures Apply(g, s, e).t == match e
                                case Translate(pid, k) => At(pid, k, Apply(g, s, e).t.frame)
                                case Suspend(pid) => Forget(s.t, pid)
                                case Exit(pid) => Forget(s.t, pid)
                                case _ => s.t
  {
    hide Inv, NewStep, SuspendStep, ResumeStep, ExitStep, Translated;
  }

  /** The memory theorem. Whatever the kernel and the CPU ask for, and wherever the page is, each byte of a live process
      is the byte last written there, zero before any write. */
  lemma {:induction false} BytesAreAsLastWritten(g: Geometry, es: seq<Event>, pid: nat, k: nat, o: nat)
    requires GeometryOk(g) && Runs(g, es)
    requires pid in After(g, es).m.procs && k < |FlatOf(g, After(g, es).m)[pid]| && o < g.pageSize
    ensures |FlatOf(g, After(g, es).m)[pid][k]| == g.pageSize
    ensures FlatOf(g, After(g, es).m)[pid][k][o] == LastByte(es, pid, k, o)
    decreases |es|
  {
    hide Inv, Apply, Enabled, FlatOf, Initial, Runs;
    if es == [] {
      NobodyInitially(g);
    } else {
      var before, e := es[..|es| - 1], es[|es| - 1];
      assert Runs(g, before) && Enabled(g, After(g, before), e) by { RunsBefore(g, es); }
      var s := After(g, before);
      assert After(g, es) == Apply(g, s, e);
      Refines(g, s, e);
      FlatDomain(g, s.m);
      FlatDomain(g, Apply(g, s, e).m);
      TargetIsTheTranslation(g, before);
      EnabledNew(g, s, e);
      if pid in s.m.procs && !(e.New? && e.pid == pid) {
        BytesAreAsLastWritten(g, before, pid, k, o);
        if e.Store? { OverwriteKeepsLength(FlatOf(g, s.m)[s.t.pid][s.t.page], e.offset, e.word); }
      }
    }
  }

  lemma NobodyInitially(g: Geometry)
    ensures Initial(g).m.procs == map[]
  {
  }

  lemma RunsBefore(g: Geometry, es: seq<Event>)
    requires GeometryOk(g) && Runs(g, es) && es != []
    ensures Runs(g, es[..|es| - 1]) && Enabled(g, After(g, es[..|es| - 1]), es[|es| - 1])
  {
  }

  lemma FlatDomain(g: Geometry, m: Memory)
    requires Inv(g, m)
    ensures FlatOf(g, m).Keys == m.procs.Keys
  {
  }

  lemma EnabledNew(g: Geometry, s: System, e: Event)
    requires Enabled(g, s, e)
    ensures e.New? ==> e.pid !in s.m.procs
    ensures e.Store? ==> s.t.At? && e.offset + |e.word| <= g.pageSize
  {
  }

  /** memory_read answers with the word last written at the logical address the CPU translated. */
  lemma ReadsReturnTheLastWrite(g: Geometry, es: seq<Event>, s: System, o: nat, i: nat)
    requires GeometryOk(g) && Runs(g, es) && s == After(g, es)
    requires Sound(g, s) && Enabled(g, s, Load(o)) && i < 4
    ensures Answer(g, s, o)[i] == LastByte(es, s.t.pid, s.t.page, o + i)
  {
    hide Inv, Apply, Runs, After;
    FlatDomain(g, s.m);
    TranslationShowsThePage(g, s);
    BytesAreAsLastWritten(g, es, s.t.pid, s.t.page, o + i);
  }

  lemma TranslationShowsThePage(g: Geometry, s: System)
    requires Sound(g, s) && s.t.At?
    ensures Pointed(g, s) && s.t.pid in FlatOf(g, s.m) && s.t.page < |FlatOf(g, s.m)[s.t.pid]|
    ensures FlatOf(g, s.m)[s.t.pid][s.t.page] == s.m.ram[s.t.frame]
  {
    SoundIsPointed(g, s);
  }

  // ---- Residency and ownership over runs ----------------------------------------------

  /** In every reachable state a page is present exactly when one slot of its process points at it, and that slot has
      its frame. */
  lemma PresentPagesHaveOneSlot(g: Geometry, es: seq<Event>, pid: nat, k: nat)
    requires GeometryOk(g) && Runs(g, es) && pid in After(g, es).m.procs
    requires k < |After(g, es).m.procs[pid].pages|
    ensures var p := After(g, es).m.procs[pid];
            && (p.pages[k].present <==> exists i :: 0 <= i < |p.slots| && p.slots[i].page == k)
            && (forall i :: 0 <= i < |p.slots| && p.slots[i].page == k ==> p.slots[i].frame == p.pages[k].frame >= 0)
            && (forall i, j :: 0 <= i < |p.slots| && 0 <= j < |p.slots| && p.slots[i].page == k == p.slots[j].page ==>
                i == j)
  {
    hide Runs, After, Apart, Covered, Counted;
    var m := After(g, es).m;
    OneSlot(g, m.procs[pid], m.bitmap, m.ram, k);
  }

  lemma OneSlot(g: Geometry, p: Process, bitmap: seq<bool>, ram: seq<Page>, k: nat)
    requires ProcOk(g, p, bitmap, ram) && k < |p.pages|
    ensures p.pages[k].present <==> exists i :: 0 <= i < |p.slots| && p.slots[i].page == k
    ensures forall i :: 0 <= i < |p.slots| && p.slots[i].page == k ==> p.slots[i].frame == p.pages[k].frame >= 0
    ensures forall i, j :: 0 <= i < |p.slots| && 0 <= j < |p.slots| && p.slots[i].page == k == p.slots[j].page ==>
        i == j
  {
    forall i | 0 <= i < |p.slots| && p.slots[i].page == k ensures p.slots[i].frame == p.pages[k].frame >= 0
        && p.pages[k].present {
      assert SlotOk(p, bitmap, i);
    }
    forall i, j | 0 <= i < |p.slots| && 0 <= j < |p.slots| && p.slots[i].page == k == p.slots[j].page ensures i == j {
      assert p.slots[i].frame == p.slots[j].frame;
    }
    if p.pages[k].present { PresentIsInASlot(g, p, bitmap, ram, k); }
  }

  function PresentPages(p: Process): set<int> { set k | 0 <= k < |p.pages| && p.pages[k].present }

  function PagesIn(slots: seq<Slot>): (r: set<int>)
    ensures |r| <= |slots|
    ensures forall i :: 0 <= i < |slots| ==> slots[i].page in r
  {
    if slots == [] then {} else {slots[0].page} + PagesIn(slots[1..])
  }

  /** In every reachable state a process has no more pages present than it has frames, and none while it is
      suspended. */
  lemma PresentPagesFitTheFrames(g: Geometry, es: seq<Event>, pid: nat)
    requires GeometryOk(g) && Runs(g, es) && pid in After(g, es).m.procs
    ensures var p := After(g, es).m.procs[pid];
            |PresentPages(p)| <= g.framesPerProcess && (!Resident(p) ==> PresentPages(p) == {})
  {
    hide Runs, After, Apart, Covered, Counted, PageOk, SlotOk;
    var m := After(g, es).m;
    var p := m.procs[pid];
    forall k | k in PresentPages(p) ensures Resident(p) && k in PagesIn(p.slots) {
      PresentIsInASlot(g, p, m.bitmap, m.ram, k);
    }
    SubsetIsSmaller(PresentPages(p), PagesIn(p.slots));
  }

  lemma NoTwoPagesShareAFrame(g: Geometry, es: seq<Event>, a: nat, k: nat, b: nat, l: nat)
    requires GeometryOk(g) && Runs(g, es)
    requires var m := After(g, es).m;
             && a in m.procs && b in m.procs && k < |m.procs[a].pages| && l < |m.procs[b].pages|
             && m.procs[a].pages[k].present && m.procs[b].pages[l].present
             && m.procs[a].pages[k].frame == m.procs[b].pages[l].frame
    ensures a == b && k == l
  {
    hide Runs, After, Covered, Counted, PageOk, SlotOk;
    var m := After(g, es).m;
    PresentIsInASlot(g, m.procs[a], m.bitmap, m.ram, k);
    PresentIsInASlot(g, m.procs[b], m.bitmap, m.ram, l);
    if a == b { FrameIsOfItsPage(g, m.procs[a], m.bitmap, m.ram, SlotOf(m.procs[a].slots, k), l); }
  }

  lemma DisjointOwners(p: Process, q: Process, f: nat)
    requires Disjoint(p, q)
    ensures !(Owns(p, f) && Owns(q, f))
  {
  }

  /** In every reachable state a frame is assigned exactly when a process owns it, and then only one does; free and
      owned frames are all there are. */
  lemma FramesHaveOneOwner(g: Geometry, es: seq<Event>, f: nat)
    requires GeometryOk(g) && Runs(g, es) && f < g.framesInMemory
    ensures var m := After(g, es).m;
            && |m.bitmap| == g.framesInMemory
            && (m.bitmap[f] <==> exists pid :: pid in m.procs && Owns(m.procs[pid], f))
            && (forall a, b :: a in m.procs && b in m.procs && Owns(m.procs[a], f) && Owns(m.procs[b], f) ==> a == b)
            && FreeCount(m.bitmap) + g.framesPerProcess * |Residents(m)| == g.framesInMemory
  {
    hide Runs, After, PageOk, SlotOk;
    var m := After(g, es).m;
    if pid :| pid in m.procs && Owns(m.procs[pid], f) {
      var i :| 0 <= i < |m.procs[pid].slots| && m.procs[pid].slots[i].frame == f;
      OwnedIsTaken(g, m, pid, i);
    }
    forall a, b | a in m.procs && b in m.procs && Owns(m.procs[a], f) && Owns(m.procs[b], f) ensures a == b {
      if a != b { DisjointOwners(m.procs[a], m.procs[b], f); }
    }
  }

  /** With room for one more process there are frames for one more process. */
  lemma RoomForOneMore(g: Geometry, m: Memory, level: nat)
    requires Inv(g, m) && g.framesInMemory >= level * g.framesPerProcess && |Residents(m)| < level
    ensures FreeCount(m.bitmap) >= g.framesPerProcess
  {
    hide *;
    CountedHere(g, m);
    OneMoreFits(g.framesPerProcess, |Residents(m)|, level);
  }

  lemma CountedHere(g: Geometry, m: Memory)
    requires Inv(g, m)
    ensures FreeCount(m.bitmap) + g.framesPerProcess * |Residents(m)| == g.framesInMemory
  {
  }

  lemma OneMoreFits(size: nat, n: nat, level: nat)
    requires n < level
    ensures level * size >= size * n + size
  {
    assert level * size == size * n + size + (level - n - 1) * size;
  }
}
