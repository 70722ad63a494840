/** The paged memory refines a flat private memory for every process, over every run of the kernel's and the CPU's
    requests. */
module PagingRefinement {
  import opened Processes
  import opened Paging
  import opened PagingProcess
  import opened PagingFrames

  // ---- Steps --------------------------------------------------------------------------

  ghost predicate Live(g: Geometry, m: Memory, pid: nat) {
    pid in m.procs && ProcOk(g, m.procs[pid], m.bitmap, m.ram) && Resident(m.procs[pid]) && |m.ram| == |m.bitmap|
  }

  ghost function TranslateStep(g: Geometry, m: Memory, pid: nat, k: nat): System
    requires Live(g, m, pid) && k < |m.procs[pid].swap|
  {
    OkFits(g, m.procs[pid], m.bitmap, m.ram);
    var c := Translated(g, m.procs[pid], m.ram, k);
    System(Memory(m.procs[pid := c.p], m.bitmap, c.ram), At(pid, k, c.p.pages[k].frame))
  }

  function NewStep(g: Geometry, m: Memory, pid: nat, size: nat): Memory
    requires GeometryOk(g)
  {
    var r := Assign(m.bitmap, g.framesPerProcess);
    Memory(m.procs[pid := Created(g, size, r.frames)], r.bitmap, m.ram)
  }

  function SuspendStep(m: Memory, pid: nat): Memory
    requires pid in m.procs && |m.procs[pid].swap| <= |m.procs[pid].pages|
  {
    Memory(m.procs[pid := Suspended(m.procs[pid], m.ram)], Released(m.bitmap, m.procs[pid].slots), m.ram)
  }

  function ResumeStep(g: Geometry, m: Memory, pid: nat): Memory
    requires pid in m.procs
  {
    var r := Assign(m.bitmap, g.framesPerProcess);
    Memory(m.procs[pid := m.procs[pid].(slots := EmptySlots(r.frames))], r.bitmap, m.ram)
  }

  function ExitStep(m: Memory, pid: nat): Memory
    requires pid in m.procs
  {
    Memory(m.procs - {pid}, Released(m.bitmap, m.procs[pid].slots), m.ram)
  }

  ghost predicate Pointed(g: Geometry, s: System) {
    && s.t.At? && s.t.pid in s.m.procs && s.t.page < |s.m.procs[s.t.pid].pages| && 0 <= s.t.frame < |s.m.ram|
    && |s.m.ram[s.t.frame]| == g.pageSize
  }

  ghost function LoadStep(s: System): System
    requires s.t.At? && s.t.pid in s.m.procs && s.t.page < |s.m.procs[s.t.pid].pages|
  {
    s.(m := s.m.(procs := s.m.procs[s.t.pid := Touched(s.m.procs[s.t.pid], s.t.page, false)]))
  }

  ghost function StoreStep(g: Geometry, s: System, o: nat, word: seq<byte>): System
    requires Pointed(g, s) && o + |word| <= g.pageSize
  {
    s.(m := s.m.(procs := s.m.procs[s.t.pid := Touched(s.m.procs[s.t.pid], s.t.page, true)],
                 ram := s.m.ram[s.t.frame := Overwrite(s.m.ram[s.t.frame], o, word)]))
  }

  lemma SoundIsPointed(g: Geometry, s: System)
    requires Sound(g, s) && s.t.At?
    ensures Pointed(g, s) && Owns(s.m.procs[s.t.pid], s.t.frame)
  {
    PresentIsInASlot(g, s.m.procs[s.t.pid], s.m.bitmap, s.m.ram, s.t.page);
  }

  ghost function Apply(g: Geometry, s: System, e: Event): System
    requires Sound(g, s) && Enabled(g, s, e)
  {
    if s.t.At? then SoundIsPointed(g, s); ApplyTo(g, s, e) else ApplyTo(g, s, e)
  }

  ghost function ApplyTo(g: Geometry, s: System, e: Event): System
    requires Inv(g, s.m) && Enabled(g, s, e) && (s.t.At? ==> Pointed(g, s))
  {
    match e
    case New(pid, size) => System(NewStep(g, s.m, pid, size), s.t)
    case Suspend(pid) => System(SuspendStep(s.m, pid), Forget(s.t, pid))
    case Resume(pid) => System(ResumeStep(g, s.m, pid), s.t)
    case Exit(pid) => System(ExitStep(s.m, pid), Forget(s.t, pid))
    case Translate(pid, k) => TranslateStep(g, s.m, pid, k)
    case Load(_) => LoadStep(s)
    case Store(o, word) => StoreStep(g, s, o, word)
  }

  /** What memory_read answers. */
  ghost function Answer(g: Geometry, s: System, o: nat): (word: seq<byte>)
    requires Sound(g, s) && Enabled(g, s, Load(o))
    ensures |word| == 4
  {
    SoundIsPointed(g, s);
    s.m.ram[s.t.frame][o..o + 4]
  }

  // ---- Every step keeps the invariant -------------------------------------------------

  /** A step of one process that keeps its frames. */
  lemma OneProcessChanges(g: Geometry, m: Memory, pid: nat, q: Process, ram: seq<Page>)
    requires Inv(g, m) && pid in m.procs && ProcOk(g, q, m.bitmap, ram) && SameFrames(m.procs[pid], q)
    requires RamOk(g, ram) && OthersAlone(m.procs[pid], m.ram, ram)
    ensures Inv(g, Memory(m.procs[pid := q], m.bitmap, ram))
  {
    hide ProcOk, Residents, FreeCount, OthersAlone, Covered;
    var m' := Memory(m.procs[pid := q], m.bitmap, ram);
    forall a | a in m.procs && a != pid ensures ProcOk(g, m.procs[a], m.bitmap, ram) {
      NeighbourKept(g, m, pid, a, ram);
    }
    assert Residents(m') == Residents(m) by { SameResidents(m, pid, q, ram); }
    CoverKept(m, pid, q, ram);
  }

  lemma NeighbourKept(g: Geometry, m: Memory, pid: nat, a: nat, ram: seq<Page>)
    requires Inv(g, m) && pid in m.procs && a in m.procs && a != pid
    requires RamOk(g, ram) && OthersAlone(m.procs[pid], m.ram, ram)
    ensures ProcOk(g, m.procs[a], m.bitmap, ram) && SameView(m.procs[a], m.ram, m.procs[a], ram)
  {
    hide PageOk, Covered, Counted;
    assert Disjoint(m.procs[pid], m.procs[a]);
    Undisturbed(g, m.procs[a], m.bitmap, m.ram, m.bitmap, ram);
  }

  lemma SameResidents(m: Memory, pid: nat, q: Process, ram: seq<Page>)
    requires pid in m.procs && SameFrames(m.procs[pid], q)
    ensures Residents(Memory(m.procs[pid := q], m.bitmap, ram)) == Residents(m)
  {
    assert Resident(q) == Resident(m.procs[pid]);
  }

  lemma CoverKept(m: Memory, pid: nat, q: Process, ram: seq<Page>)
    requires Covered(m) && pid in m.procs && SameFrames(m.procs[pid], q)
    ensures Covered(Memory(m.procs[pid := q], m.bitmap, ram))
  {
    var m' := Memory(m.procs[pid := q], m.bitmap, ram);
    forall f | 0 <= f < |m.bitmap| && m.bitmap[f] ensures exists a :: a in m'.procs && Owns(m'.procs[a], f) {
      var a :| a in m.procs && Owns(m.procs[a], f);
      if a == pid { SameFramesOwn(m.procs[pid], q, f); }
      assert a in m'.procs && Owns(m'.procs[a], f);
    }
  }

  predicate Bare(p: Process) { forall i :: 0 <= i < |p.slots| ==> p.slots[i].frame == -1 }

  lemma ResidentIsNotBare(g: Geometry, m: Memory, pid: nat)
    requires GeometryOk(g) && AllOk(g, m) && (pid in m.procs ==> Bare(m.procs[pid]))
    ensures pid !in Residents(m)
  {
    if pid in m.procs { assert m.procs[pid].slots[0].frame == -1; }
  }

  lemma OwnedIsTaken(g: Geometry, m: Memory, a: nat, i: nat)
    requires AllOk(g, m) && a in m.procs && i < |m.procs[a].slots| && m.procs[a].slots[i].frame >= 0
    ensures m.procs[a].slots[i].frame < |m.bitmap| && m.bitmap[m.procs[a].slots[i].frame]
  {
    assert SlotOk(m.procs[a], m.bitmap, i);
  }

  // Giving frames to a process.

  lemma NeighbourGranted(g: Geometry, m: Memory, a: nat, n: nat)
    requires Inv(g, m) && a in m.procs
    ensures ProcOk(g, m.procs[a], Assign(m.bitmap, n).bitmap, m.ram)
  {
    hide PageOk, Covered, Counted, Apart;
    AssignGrants(m.bitmap, n);
    forall f: nat | f < |m.ram| && Owns(m.procs[a], f) ensures m.bitmap[f] == Assign(m.bitmap, n).bitmap[f] {
      var i :| 0 <= i < |m.procs[a].slots| && m.procs[a].slots[i].frame == f;
      OwnedIsTaken(g, m, a, i);
    }
    Undisturbed(g, m.procs[a], m.bitmap, m.ram, Assign(m.bitmap, n).bitmap, m.ram);
  }

  lemma GrantedIsDisjoint(g: Geometry, m: Memory, a: nat, n: nat, q: Process)
    requires AllOk(g, m) && a in m.procs && q.slots == EmptySlots(Assign(m.bitmap, n).frames)
    ensures Disjoint(m.procs[a], q) && Disjoint(q, m.procs[a])
  {
    AssignGrants(m.bitmap, n);
    var frames := Assign(m.bitmap, n).frames;
    forall i, j | 0 <= i < |m.procs[a].slots| && 0 <= j < |q.slots| && m.procs[a].slots[i].frame >= 0
      ensures m.procs[a].slots[i].frame != q.slots[j].frame
    {
      OwnedIsTaken(g, m, a, i);
      assert frames[j] in frames;
    }
  }

  lemma GrantedIsCovered(g: Geometry, m: Memory, pid: nat, n: nat, q: Process)
    requires Inv(g, m) && (pid in m.procs ==> Bare(m.procs[pid])) && q.slots == EmptySlots(Assign(m.bitmap, n).frames)
    ensures Covered(Memory(m.procs[pid := q], Assign(m.bitmap, n).bitmap, m.ram))
  {
    hide ProcOk, Counted, Apart, GeometryOk, RamOk;
    var r := Assign(m.bitmap, n);
    var procs := m.procs[pid := q];
    AssignGrants(m.bitmap, n);
    forall f | 0 <= f < |r.bitmap| && r.bitmap[f] ensures exists a :: a in procs && Owns(procs[a], f) {
      if f in r.frames {
        var i :| 0 <= i < |r.frames| && r.frames[i] == f;
        assert q.slots[i].frame == f;
        assert pid in procs && Owns(procs[pid], f);
      } else {
        var a :| a in m.procs && Owns(m.procs[a], f);
        assert a in procs && Owns(procs[a], f);
      }
    }
  }

  lemma GrantedIsCounted(g: Geometry, m: Memory, pid: nat, q: Process)
    requires GeometryOk(g) && AllOk(g, m) && Counted(g, m)
    requires FreeCount(m.bitmap) >= g.framesPerProcess && (pid in m.procs ==> Bare(m.procs[pid])) && Resident(q)
    ensures Counted(g, Memory(m.procs[pid := q], Assign(m.bitmap, g.framesPerProcess).bitmap, m.ram))
  {
    hide ProcOk, Resident, FreeCount;
    var m' := Memory(m.procs[pid := q], Assign(m.bitmap, g.framesPerProcess).bitmap, m.ram);
    AssignGrants(m.bitmap, g.framesPerProcess);
    ResidentIsNotBare(g, m, pid);
    assert Residents(m') == Residents(m) + {pid};
    assert g.framesPerProcess * (|Residents(m)| + 1) == g.framesPerProcess * |Residents(m)| + g.framesPerProcess;
  }

  lemma GrantedProcess(g: Geometry, m: Memory, p: Process)
    requires FreeCount(m.bitmap) >= g.framesPerProcess
    requires |p.swap| <= |p.pages| && p.hand < g.framesPerProcess
    requires forall k :: 0 <= k < |p.swap| ==> |p.swap[k]| == g.pageSize
    requires forall k :: 0 <= k < |p.pages| ==> !p.pages[k].present && !p.pages[k].modified
    ensures var r := Assign(m.bitmap, g.framesPerProcess);
            var q := p.(slots := EmptySlots(r.frames));
            ProcOk(g, q, r.bitmap, m.ram) && Resident(q)
  {
    hide ProcOk;
    var r := Assign(m.bitmap, g.framesPerProcess);
    AssignGrants(m.bitmap, g.framesPerProcess);
    forall i | 0 <= i < |r.frames| ensures r.frames[i] < |r.bitmap| && r.bitmap[r.frames[i]] {
      assert r.frames[i] in r.frames;
    }
    FramesGranted(g, p, r.bitmap, m.ram, r.frames);
  }

  /** A process without frames - new, or suspended - is given as many as a process gets. */
  lemma FramesGiven(g: Geometry, m: Memory, pid: nat, p: Process)
    requires Inv(g, m) && FreeCount(m.bitmap) >= g.framesPerProcess && (pid in m.procs ==> Bare(m.procs[pid]))
    requires |p.swap| <= |p.pages| && p.hand < g.framesPerProcess
    requires forall k :: 0 <= k < |p.swap| ==> |p.swap[k]| == g.pageSize
    requires forall k :: 0 <= k < |p.pages| ==> !p.pages[k].present && !p.pages[k].modified
    ensures var r := Assign(m.bitmap, g.framesPerProcess);
            Inv(g, Memory(m.procs[pid := p.(slots := EmptySlots(r.frames))], r.bitmap, m.ram))
  {
    hide ProcOk, Covered, Counted, Disjoint, Resident, Bare;
    var r := Assign(m.bitmap, g.framesPerProcess);
    var q := p.(slots := EmptySlots(r.frames));
    GrantedProcess(g, m, p);
    forall a | a in m.procs && a != pid
      ensures ProcOk(g, m.procs[a], r.bitmap, m.ram) && Disjoint(m.procs[a], q) && Disjoint(q, m.procs[a])
    {
      NeighbourGranted(g, m, a, g.framesPerProcess);
      GrantedIsDisjoint(g, m, a, g.framesPerProcess, q);
    }
    GrantedIsCovered(g, m, pid, g.framesPerProcess, q);
    GrantedIsCounted(g, m, pid, q);
  }

  // Taking the frames of a process.

  /** What release does to the bits, in terms of ownership. */
  lemma ReleasedByOwner(g: Geometry, m: Memory, pid: nat)
    requires Inv(g, m) && pid in m.procs && Resident(m.procs[pid])
    ensures var p, r := m.procs[pid], Released(m.bitmap, m.procs[pid].slots);
            && FreeCount(r) == FreeCount(m.bitmap) + g.framesPerProcess
            && forall f: nat :: f < |m.bitmap| ==> (r[f] <==> m.bitmap[f] && !Owns(p, f))
  {
    hide Covered, Counted, Apart, PageOk;
    var p := m.procs[pid];
    forall i | 0 <= i < |p.slots| ensures 0 <= p.slots[i].frame < |m.bitmap| && m.bitmap[p.slots[i].frame] {
      OwnedIsTaken(g, m, pid, i);
    }
    ReleaseClears(m.bitmap, p.slots);
  }

  /** The processes that keep their frames when pid gives its up. */
  lemma NeighbourReleased(g: Geometry, m: Memory, pid: nat, a: nat)
    requires Inv(g, m) && pid in m.procs && a in m.procs && a != pid && Resident(m.procs[pid])
    ensures ProcOk(g, m.procs[a], Released(m.bitmap, m.procs[pid].slots), m.ram)
  {
    hide PageOk, Covered, Counted;
    ReleasedByOwner(g, m, pid);
    assert Disjoint(m.procs[pid], m.procs[a]);
    forall f: nat | f < |m.bitmap| && Owns(m.procs[a], f)
      ensures m.bitmap[f] == Released(m.bitmap, m.procs[pid].slots)[f]
    {
      var i :| 0 <= i < |m.procs[a].slots| && m.procs[a].slots[i].frame == f;
      OwnedIsTaken(g, m, a, i);
    }
    Undisturbed(g, m.procs[a], m.bitmap, m.ram, Released(m.bitmap, m.procs[pid].slots), m.ram);
  }

  lemma ReleasedIsCovered(g: Geometry, m: Memory, pid: nat, procs: map<nat, Process>)
    requires Inv(g, m) && pid in m.procs && Resident(m.procs[pid])
    requires forall a :: a in m.procs && a != pid ==> a in procs && procs[a] == m.procs[a]
    ensures Covered(Memory(procs, Released(m.bitmap, m.procs[pid].slots), m.ram))
  {
    hide ProcOk, Counted, Apart, FreeCount;
    var r := Released(m.bitmap, m.procs[pid].slots);
    ReleasedByOwner(g, m, pid);
    forall f | 0 <= f < |r| && r[f] ensures exists a :: a in procs && Owns(procs[a], f) {
      var a :| a in m.procs && Owns(m.procs[a], f);
      assert a in procs && Owns(procs[a], f);
    }
  }

  lemma ReleasedIsCounted(g: Geometry, m: Memory, pid: nat, procs: map<nat, Process>)
    requires Inv(g, m) && pid in m.procs && Resident(m.procs[pid])
    requires forall a :: a in procs ==> a in m.procs && (a != pid ==> procs[a] == m.procs[a])
    requires forall a :: a in m.procs && a != pid ==> a in procs
    requires pid in procs ==> !Resident(procs[pid])
    ensures Counted(g, Memory(procs, Released(m.bitmap, m.procs[pid].slots), m.ram))
  {
    hide ProcOk, Resident, FreeCount, Apart, Covered;
    var m' := Memory(procs, Released(m.bitmap, m.procs[pid].slots), m.ram);
    ReleasedByOwner(g, m, pid);
    assert Residents(m') == Residents(m) - {pid};
    assert g.framesPerProcess * (|Residents(m)| - 1) == g.framesPerProcess * |Residents(m)| - g.framesPerProcess;
  }

  lemma BareIsDisjoint(p: Process, q: Process)
    requires Bare(p)
    ensures Disjoint(p, q) && Disjoint(q, p)
  {
  }

  lemma FramesTaken(g: Geometry, m: Memory, pid: nat, procs: map<nat, Process>)
    requires Inv(g, m) && pid in m.procs && Resident(m.procs[pid])
    requires forall a :: a in procs ==> a in m.procs && (a != pid ==> procs[a] == m.procs[a])
    requires forall a :: a in m.procs && a != pid ==> a in procs
    requires pid in procs ==> Bare(procs[pid]) && ProcOk(g, procs[pid], Released(m.bitmap, m.procs[pid].slots), m.ram)
    ensures Inv(g, Memory(procs, Released(m.bitmap, m.procs[pid].slots), m.ram))
  {
    hide ProcOk, Covered, Counted, Disjoint, Resident, Bare;
    var r := Released(m.bitmap, m.procs[pid].slots);
    forall a | a in procs ensures ProcOk(g, procs[a], r, m.ram) {
      if a != pid { NeighbourReleased(g, m, pid, a); }
    }
    forall a, b | a in procs && b in procs && a != b ensures Disjoint(procs[a], procs[b]) {
      if a == pid || b == pid { BareIsDisjoint(procs[pid], procs[if a == pid then b else a]); }
    }
    if pid in procs { BareIsNotResident(g, procs[pid], r, m.ram); }
    ReleasedIsCovered(g, m, pid, procs);
    ReleasedIsCounted(g, m, pid, procs);
  }

  lemma BareIsNotResident(g: Geometry, p: Process, bitmap: seq<bool>, ram: seq<Page>)
    requires GeometryOk(g) && ProcOk(g, p, bitmap, ram) && Bare(p)
    ensures !Resident(p)
  {
    assert p.slots[0].frame == -1;
  }
}
