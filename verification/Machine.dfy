/** The kernel, the memory and the CPU together. The memory is large enough for the multiprogramming level; then it
    always has the frames a request needs, the running process always finds its page tables, and it reads what it
    wrote. */
module Machine {
  import opened Processes
  import K = Kernel
  import L = KernelLaws
  import S = KernelSafety
  import C = KernelConservation
  import A = KernelAdmission
  import R = KernelReplies
  import H = KernelHandles
  import P = Paging
  import F = PagingRefinement
  import V = PagingRuns

  /** The kernel with the memory it talks to, and what the memory has served so far. */
  datatype State = State(k: K.State, m: P.System, served: seq<P.Event>)

  /** A step of the kernel, the CPU loop or the memory server; or an access of the CPU to the memory. */
  datatype Step = Schedule(e: K.Step) | Access(a: P.Event)

  function EventOf(r: K.Request): P.Event {
    match r
    case ProcessNew(pid, size) => P.New(pid, size)
    case ProcessResume(pid, _) => P.Resume(pid)
    case ProcessSuspend(pid, _) => P.Suspend(pid)
    case ProcessExit(pid, _) => P.Event.Exit(pid)
  }

  predicate Running(k: K.State, pid: nat) { |K.At(k.at, K.CpuRunning)| > 0 && K.At(k.at, K.CpuRunning)[0].pid == pid }

  /** What makes a step possible, on the side of those that take it. That the memory can serve it is a theorem, not a
      condition: nothing is asked of free frames, nor that the memory knows the process, nor that it holds frames. The
      double send and the handler that overtakes another one are left out. */
  ghost predicate Possible(c: K.Config, g: P.Geometry, s: State, e: Step) {
    match e
    case Schedule(e) => K.Enabled(c, s.k, e) && !K.SendsTwice(s.k, e) && !K.Overtakes(s.k, e)
    case Access(Translate(pid, k)) => Running(s.k, pid) && (pid in s.m.m.procs ==> k < |s.m.m.procs[pid].swap|)
    case Access(Load(o)) => s.m.t.At? && o + 4 <= g.pageSize
    case Access(Store(o, word)) => s.m.t.At? && o + 4 <= g.pageSize && |word| == 4
    case Access(_) => false
  }

  ghost predicate LargeEnough(c: K.Config, g: P.Geometry) {
    P.GeometryOk(g) && g.framesInMemory >= c.multiprogrammingLevel * g.framesPerProcess
  }

  /** Kernel and memory agree on who holds frames and who has tables, and the PCBs and requests name those tables. */
  ghost predicate Together(c: K.Config, g: P.Geometry, s: State) {
    && LargeEnough(c, g) && P.Sound(g, s.m)
    && A.Admits(c, s.k) && H.Kept(c, s.k) && H.Handled(s.k)
    && s.k.given.Keys == s.m.m.procs.Keys && s.k.resident == P.Residents(s.m.m)
  }

  // ---- The memory can serve what it is asked ------------------------------------------

  lemma RequestFits(c: K.Config, g: P.Geometry, s: State)
    requires Together(c, g, s) && |s.k.requests| > 0
    ensures P.Enabled(g, s.m, EventOf(s.k.requests[0]))
  {
    hide P.Resident, P.AllOk, P.Apart, P.Covered, P.Counted, P.FreeCount, S.Safe, C.Conserved, A.ReadOff, R.Accounted,
         H.Handled;
    var r := s.k.requests[0];
    assert A.Welcome(A.Holding, c.multiprogrammingLevel, s.k.resident, r);
    assert A.Welcome(A.Known, c.multiprogrammingLevel, s.m.m.procs.Keys, r);
    if r.ProcessNew? || r.ProcessResume? {
      V.RoomForOneMore(g, s.m.m, c.multiprogrammingLevel);
    }
  }

  /** Nobody can come to hold frames but by a request for them. */
  lemma {:induction false} NoRequestNoChange(pids: set<nat>, requests: seq<K.Request>, pid: nat)
    requires pid in A.Eventually(A.Holding, pids, requests) && R.Asked(R.Creation, pid, requests) == 0
    ensures pid in pids
    decreases |requests|
  {
    if requests != [] {
      NoRequestNoChange(A.Changed(A.Holding, pids, requests[0]), requests[1..], pid);
    }
  }

  lemma OneCopyInAll(at: K.Places, pid: nat, x: K.Place, i: nat)
    requires x != K.Nowhere && x != K.MemoryInitQ && i < |K.At(at, x)| && K.At(at, x)[i].pid == pid
    requires C.Copies(at, pid) <= 1
    ensures L.Occurrences(K.At(at, K.MemoryInitQ), pid) == 0
  {
    hide C.Copies;
    if L.Occurrences(K.At(at, K.MemoryInitQ), pid) > 0 {
      var j := C.OccurrenceIndex(K.At(at, K.MemoryInitQ), pid);
      C.TwoCopies(at, pid, x, i, K.MemoryInitQ, j);
    }
  }

  lemma RunningCounts(at: K.Places, pid: nat)
    requires |K.At(at, K.CpuRunning)| > 0 && K.At(at, K.CpuRunning)[0].pid == pid
    ensures A.Held(A.Holding, at, pid) > 0
  {
    hide A.Held, L.Occurrences, K.Without, K.Take, C.Copies, L.Tally;
    A.HeldTake(A.Holding, at, K.CpuRunning, 0, pid);
    A.HeldIsNonNegative(A.Holding, K.Take(at, K.CpuRunning, 0), pid);
  }

  /** The process on the CPU holds its frames: what it asked for has been served, and nothing takes it away. */
  lemma RunningIsResident(c: K.Config, g: P.Geometry, s: State, pid: nat)
    requires Together(c, g, s) && Running(s.k, pid)
    ensures pid in s.k.resident
  {
    hide P.Sound, LargeEnough, S.Safe, A.Held, C.Copies, P.Residents, H.Handled;
    RunningCounts(s.k.at, pid);
    assert C.Copies(s.k.at, pid) <= 1;
    OneCopyInAll(s.k.at, pid, K.CpuRunning, 0);
    assert R.Asked(R.Creation, pid, s.k.requests) + R.Answered(R.Creation, pid, s.k.replies)
        == L.Occurrences(K.At(s.k.at, K.MemoryInitQ), pid);
    NoRequestNoChange(s.k.resident, s.k.requests, pid);
  }

  lemma AccessFits(c: K.Config, g: P.Geometry, s: State, a: P.Event)
    requires Together(c, g, s) && Possible(c, g, s, Access(a))
    ensures P.Enabled(g, s.m, a)
  {
    hide P.Resident, P.Sound, A.Admits, H.Kept, H.Handled, LargeEnough;
    if a.Translate? { RunningIsResident(c, g, s, a.pid); }
  }

  // ---- Steps of both ------------------------------------------------------------------

  ghost predicate AsksMemory(s: State, e: Step) { e.Access? || K.Serves(s.k, e.e) }

  function AskedOf(s: State, e: Step): P.Event
    requires e.Access? || K.Serves(s.k, e.e)
  {
    match e
    case Schedule(_) => EventOf(s.k.requests[0])
    case Access(a) => a
  }

  /** The memory is asked for something it can do. */
  lemma MemoryIsReady(c: K.Config, g: P.Geometry, s: State, e: Step)
    requires Together(c, g, s) && Possible(c, g, s, e) && AsksMemory(s, e)
    ensures P.Sound(g, s.m) && P.Enabled(g, s.m, AskedOf(s, e))
  {
    hide P.Sound, P.Enabled, A.Admits, H.Kept, H.Handled, LargeEnough, P.Residents;
    if e.Access? { AccessFits(c, g, s, e.a); } else { RequestFits(c, g, s); }
  }

  ghost function Apply(c: K.Config, g: P.Geometry, s: State, e: Step): State
    requires Together(c, g, s) && Possible(c, g, s, e)
  {
    var k := if e.Schedule? then K.Apply(c, s.k, e.e) else s.k;
    if AsksMemory(s, e) then
      MemoryIsReady(c, g, s, e);
      State(k, F.Apply(g, s.m, AskedOf(s, e)), s.served + [AskedOf(s, e)])
    else State(k, s.m, s.served)
  }

  /** What a request does to the sets both sides know. */
  lemma SameSets(g: P.Geometry, m: P.System, r: K.Request)
    requires P.Sound(g, m) && P.Enabled(g, m, EventOf(r)) && P.Sound(g, F.Apply(g, m, EventOf(r)))
    ensures var m' := F.Apply(g, m, EventOf(r)).m;
            && m'.procs.Keys == A.Changed(A.Known, m.m.procs.Keys, r)
            && P.Residents(m') == A.Changed(A.Holding, P.Residents(m.m), r)
  {
    hide P.AllOk, P.Apart, P.Covered, P.Counted, P.RamOk, P.Created, P.Suspended, P.Released, P.Assign;
    var e := EventOf(r);
    var m' := F.Apply(g, m, e).m;
    ResidentAfter(g, m, r);
    assert m'.procs.Keys == A.Changed(A.Known, m.m.procs.Keys, r);
  }

  lemma ResidentAfter(g: P.Geometry, m: P.System, r: K.Request)
    requires P.Sound(g, m) && P.Enabled(g, m, EventOf(r)) && P.Sound(g, F.Apply(g, m, EventOf(r)))
    ensures var m' := F.Apply(g, m, EventOf(r)).m;
            && (forall a :: a in m.m.procs && a != r.pid ==> a in m'.procs && m'.procs[a] == m.m.procs[a])
            && (forall a :: a in m'.procs && a != r.pid ==> a in m.m.procs)
            && (r.pid in m'.procs <==> !r.ProcessExit?)
            && (r.pid in m'.procs ==> (P.Resident(m'.procs[r.pid]) <==> r.ProcessNew? || r.ProcessResume?))
  {
    hide P.Covered, P.Apart, P.RamOk, P.SlotOk, P.PageOk, P.Released, P.Counted;
    var m' := F.Apply(g, m, EventOf(r)).m;
    if r.ProcessSuspend? { assert m'.procs[r.pid].slots[0].frame == -1; }
  }

  lemma AccessKeepsSets(g: P.Geometry, m: P.System, a: P.Event)
    requires P.Sound(g, m) && P.Enabled(g, m, a) && (a.Translate? || a.Load? || a.Store?)
        && P.Sound(g, F.Apply(g, m, a))
    ensures var m' := F.Apply(g, m, a).m; m'.procs.Keys == m.m.procs.Keys && P.Residents(m') == P.Residents(m.m)
  {
    hide P.Inv, P.Resident, P.Translated;
    AccessKeepsProcesses(g, m, a);
  }

  lemma AccessKeepsProcesses(g: P.Geometry, m: P.System, a: P.Event)
    requires P.Sound(g, m) && P.Enabled(g, m, a) && (a.Translate? || a.Load? || a.Store?)
        && P.Sound(g, F.Apply(g, m, a))
    ensures var m' := F.Apply(g, m, a).m;
            && m'.procs.Keys == m.m.procs.Keys
            && forall p :: p in m.m.procs ==> P.Resident(m'.procs[p]) == P.Resident(m.m.procs[p])
  {
    hide P.Covered, P.Apart, P.RamOk, P.SlotOk, P.PageOk, P.Counted, P.Translated;
    if a.Translate? { V.TranslateKeepsResidence(g, m.m, a.pid, a.page); }
  }

  // ---- Together, always ---------------------------------------------------------------

  lemma KernelSideKept(c: K.Config, g: P.Geometry, s: State, e: K.Step)
    requires Together(c, g, s) && K.Enabled(c, s.k, e) && !K.SendsTwice(s.k, e) && !K.Overtakes(s.k, e)
    ensures var k := K.Apply(c, s.k, e);
            && A.Admits(c, k) && H.Kept(c, k) && H.Handled(k)
            && k.given.Keys == A.Served(A.Known, s.k, e, s.m.m.procs.Keys)
            && k.resident == A.Served(A.Holding, s.k, e, P.Residents(s.m.m))
  {
    hide P.Sound, LargeEnough, P.Residents, A.Admits, H.Kept, H.Handled, K.Apply, K.Enabled, A.Served, K.SendsTwice,
         K.Overtakes;
    A.AdmitsKept(c, s.k, e);
    A.ResidentsAreHolders(c, s.k, e);
    H.KeptKept(c, s.k, e);
    H.HandledKept(c, s.k, e);
    H.GivenAreKnown(c, s.k, e);
  }

  lemma MemorySideKept(c: K.Config, g: P.Geometry, s: State, e: Step)
    requires Together(c, g, s) && Possible(c, g, s, e) && AsksMemory(s, e)
    requires P.Sound(g, s.m) && P.Enabled(g, s.m, AskedOf(s, e))
    ensures var m := F.Apply(g, s.m, AskedOf(s, e));
            && P.Sound(g, m)
            && m.m.procs.Keys
                == (if e.Schedule? then A.Served(A.Known, s.k, e.e, s.m.m.procs.Keys) else s.m.m.procs.Keys)
            && P.Residents(m.m) == if e.Schedule? then A.Served(A.Holding, s.k, e.e, P.Residents(s.m.m))
                else P.Residents(s.m.m)
  {
    hide P.Sound, P.Enabled, P.Residents, F.Apply, LargeEnough, A.Admits, H.Kept, H.Handled, K.Enabled, V.FlatOf,
         V.FlatApply;
    V.Refines(g, s.m, AskedOf(s, e));
    if e.Access? { AccessKeepsSets(g, s.m, e.a); } else { SameSets(g, s.m, s.k.requests[0]); }
  }

  lemma TogetherKept(c: K.Config, g: P.Geometry, s: State, e: Step)
    requires Together(c, g, s) && Possible(c, g, s, e)
    ensures Together(c, g, Apply(c, g, s, e))
  {
    hide P.Sound, P.Enabled, P.Residents, F.Apply, LargeEnough, A.Admits, H.Kept, H.Handled, K.Enabled, K.Apply,
         Possible, EventOf;
    PossibleStep(c, g, s, e);
    if e.Schedule? { KernelSideKept(c, g, s, e.e); }
    if AsksMemory(s, e) {
      MemoryIsReady(c, g, s, e);
      MemorySideKept(c, g, s, e);
    }
  }

  lemma PossibleStep(c: K.Config, g: P.Geometry, s: State, e: Step)
    requires Possible(c, g, s, e)
    ensures e.Schedule? ==> K.Enabled(c, s.k, e.e) && !K.SendsTwice(s.k, e.e) && !K.Overtakes(s.k, e.e)
  {
  }

  // ---- Runs ---------------------------------------------------------------------------

  function Initial(c: K.Config, g: P.Geometry): State { State(K.Initial(c), V.Initial(g), []) }

  lemma TogetherInitially(c: K.Config, g: P.Geometry)
    requires LargeEnough(c, g)
    ensures Together(c, g, Initial(c, g))
  {
    hide P.Sound, A.Admits, H.Kept, H.Handled;
    V.InitiallySound(g);
    A.InitiallyAdmits(c);
    H.HandledInitially(c);
    InitiallyNobody(c, g);
  }

  lemma InitiallyNobody(c: K.Config, g: P.Geometry)
    ensures V.Initial(g).m.procs.Keys == {} && P.Residents(V.Initial(g).m) == {}
    ensures K.Initial(c).resident == {} && K.Initial(c).given.Keys == {}
  {
  }

  ghost predicate Runs(c: K.Config, g: P.Geometry, es: seq<Step>)
    requires LargeEnough(c, g)
    decreases |es|, 0
  {
    es == [] || (Runs(c, g, es[..|es| - 1]) && Possible(c, g, After(c, g, es[..|es| - 1]), es[|es| - 1]))
  }

  ghost function After(c: K.Config, g: P.Geometry, es: seq<Step>): (s: State)
    requires LargeEnough(c, g) && Runs(c, g, es)
    ensures Together(c, g, s)
    decreases |es|, 1
  {
    if es == [] then
      TogetherInitially(c, g);
      Initial(c, g)
    else
      var s := After(c, g, es[..|es| - 1]);
      TogetherKept(c, g, s, es[|es| - 1]);
      Apply(c, g, s, es[|es| - 1])
  }

  /** Cross-component admission. In every state the two programs reach, the memory can do what the kernel or the CPU
      asks of it next: a creation or a resumption finds all the frames of one more process, a suspension or an exit
      finds a process with frames, and the running process finds its tables. */
  lemma MemoryNeverLacksFrames(c: K.Config, g: P.Geometry, es: seq<Step>, s: State, e: Step)
    requires LargeEnough(c, g) && Runs(c, g, es) && s == After(c, g, es)
    requires Possible(c, g, s, e) && AsksMemory(s, e)
    ensures P.Enabled(g, s.m, AskedOf(s, e))
  {
    hide P.Enabled, Together, Possible, After, Runs, AsksMemory;
    MemoryIsReady(c, g, s, e);
  }

  /** What the memory has served is a run of the paged memory. */
  lemma {:induction false} ServedIsARun(c: K.Config, g: P.Geometry, es: seq<Step>)
    requires LargeEnough(c, g) && Runs(c, g, es)
    ensures var s := After(c, g, es); V.Runs(g, s.served) && V.After(g, s.served) == s.m
    decreases |es|
  {
    hide Together, Possible, P.Sound, P.Enabled, F.Apply, EventOf, K.Apply;
    if es != [] {
      ServedIsARun(c, g, es[..|es| - 1]);
      var s, e := After(c, g, es[..|es| - 1]), es[|es| - 1];
      if AsksMemory(s, e) {
        MemoryIsReady(c, g, s, e);
        OneMoreServed(g, s.served, AskedOf(s, e));
      }
    }
  }

  lemma OneMoreServed(g: P.Geometry, served: seq<P.Event>, a: P.Event)
    requires P.GeometryOk(g) && V.Runs(g, served) && P.Enabled(g, V.After(g, served), a)
    ensures V.Runs(g, served + [a]) && V.After(g, served + [a]) == F.Apply(g, V.After(g, served), a)
  {
    hide P.Sound, P.Enabled, F.Apply;
    assert (served + [a])[..|served|] == served;
  }

  /** The memory answers a read with the bytes that the requests it has served wrote last. */
  ghost predicate ReadsBack(g: P.Geometry, m: P.System, served: seq<P.Event>, o: nat) {
    && P.Sound(g, m) && P.Enabled(g, m, P.Load(o))
    && forall i: nat :: i < 4 ==> F.Answer(g, m, o)[i] == V.LastByte(served, m.t.pid, m.t.page, o + i)
  }

  /** The whole machine is transparent to a process: whatever the scheduler, the suspensions and the page faults do, the
      running process reads at each address the byte it wrote there last, and zero before. */
  lemma ProcessesReadWhatTheyWrote(c: K.Config, g: P.Geometry, es: seq<Step>, s: State, o: nat)
    requires LargeEnough(c, g) && Runs(c, g, es) && s == After(c, g, es)
    requires Possible(c, g, s, Access(P.Load(o)))
    ensures ReadsBack(g, s.m, s.served, o)
  {
    hide A.Admits, H.Kept, H.Handled, P.Sound, P.Residents, After, Runs, V.Runs, V.After, V.LastByte;
    ServedIsARun(c, g, es);
    forall i: nat | i < 4 ensures F.Answer(g, s.m, o)[i] == V.LastByte(s.served, s.m.t.pid, s.m.t.page, o + i) {
      V.ReadsReturnTheLastWrite(g, s.served, s.m, o, i);
    }
  }
}
