/** The program of the memory server inside the whole machine. It is asked by the requests the kernel sends and by the
    accesses of the CPU, with the indexes the PCBs carry; what it relies on always holds, and it goes where the
    machine goes. */
module MachineServer {
  import opened Processes
  import opened MemoryServer
  import K = Kernel
  import S = KernelSafety
  import A = KernelAdmission
  import H = KernelHandles
  import P = Paging
  import F = PagingRefinement
  import V = PagingRuns
  import T = Tables
  import D = MemoryStore
  import U = Mmu
  import M = Machine

  /** The server is the memory of the machine, and it has the processes under the indexes it has given. */
  ghost predicate Stands(server: Server, g: P.Geometry, s: M.State)
    reads server, server.bitmap, server.memory
  {
    server.g == g && server.Valid() && server.Abs() == s.m.m && server.clients == s.k.given
  }

  /** memory_init. */
  method Start(g: P.Geometry, memorySize: nat, ghost c: K.Config) returns (server: Server)
    requires P.GeometryOk(g) && g.framesInMemory == memorySize / g.pageSize
    ensures Stands(server, g, M.Initial(c, g)) && fresh(server)
  {
    server := new Server(g, memorySize);
  }

  // ---- Requests of the kernel ---------------------------------------------------------

  /** What a request finds in the server. */
  ghost predicate Finds(clients: map<nat, Handle>, m: P.Memory, r: K.Request) {
    if r.ProcessNew? then r.pid !in clients
    else r.pid in clients && clients[r.pid] == r.handle && r.pid in m.procs
         && |m.procs[r.pid].swap| <= |m.procs[r.pid].pages| && (!r.ProcessResume? ==> P.Resident(m.procs[r.pid]))
  }

  ghost function MemoryAfter(g: P.Geometry, clients: map<nat, Handle>, m: P.Memory, r: K.Request): P.Memory
    requires P.GeometryOk(g) && Finds(clients, m, r)
  {
    match r
    case ProcessNew(pid, size) => F.NewStep(g, m, pid, size)
    case ProcessResume(pid, _) => F.ResumeStep(g, m, pid)
    case ProcessSuspend(pid, _) => F.SuspendStep(m, pid)
    case ProcessExit(pid, _) => F.ExitStep(m, pid)
  }

  /** The handlers of the kernel's requests, process_new, process_suspend, process_exit and the resumption, with the
      indexes the request brings. */
  method HandleRequest(server: Server, r: K.Request) returns (handle: Handle)
    requires server.Valid() && P.Inv(server.g, server.Abs()) && Finds(server.clients, server.Abs(), r)
    modifies server, server.bitmap
    ensures server.Valid() && server.clients == K.Given(old(server.clients), r, handle)
    ensures server.Abs() == MemoryAfter(server.g, old(server.clients), old(server.Abs()), r)
  {
    hide P.Inv, P.Resident, F.NewStep, F.SuspendStep, F.ResumeStep, F.ExitStep;
    match r {
      case ProcessNew(pid, size) =>
        var pt, fi := server.ProcessNew(pid, size);
        handle := Handle(pt, fi);
      case ProcessResume(pid, h) =>
        server.ProcessResume(pid, h.fi);
        handle := h;
      case ProcessSuspend(pid, h) =>
        server.ProcessSuspend(pid, h.pt, h.fi);
        handle := h;
      case ProcessExit(pid, h) =>
        server.ProcessExit(pid, h.pt, h.fi);
        handle := h;
    }
  }

  function Service(handle: Handle): M.Step { M.Schedule(K.Memory(handle)) }

  lemma ServiceIsPossible(c: K.Config, g: P.Geometry, s: M.State, handle: Handle)
    requires M.Together(c, g, s) && |s.k.requests| > 0
    ensures M.Possible(c, g, s, Service(handle)) && M.AsksMemory(s, Service(handle))
  {
    hide P.Sound, S.Balances, S.Checked, S.Messages, H.Kept, H.Handled, A.Agreed;
    assert S.Owns(K.Handlers, K.PointOf(s.k, K.Handlers));
  }

  /** Every request finds what it relies on. */
  lemma RequestFindsItsProcess(c: K.Config, g: P.Geometry, s: M.State)
    requires M.Together(c, g, s) && |s.k.requests| > 0
    ensures P.Inv(g, s.m.m) && Finds(s.k.given, s.m.m, s.k.requests[0])
  {
    hide P.Apart, P.Covered, P.Counted, A.Admits, H.Kept, H.PcbsTold, H.RepliesRight, P.Resident, P.Residents,
         M.LargeEnough;
    M.RequestFits(c, g, s);
    assert s.k.requests[0] in s.k.requests;
  }

  /** The machine after the service. */
  lemma Serviced(c: K.Config, g: P.Geometry, s: M.State, handle: Handle)
    requires M.Together(c, g, s) && |s.k.requests| > 0 && M.Possible(c, g, s, Service(handle)) && P.GeometryOk(g)
    requires Finds(s.k.given, s.m.m, s.k.requests[0])
    ensures var s', r := M.Apply(c, g, s, Service(handle)), s.k.requests[0];
            s'.m.m == MemoryAfter(g, s.k.given, s.m.m, r) && s'.k.given == K.Given(s.k.given, r, handle)
  {
    hide P.Sound, P.Enabled, P.Resident, A.Admits, H.Kept, H.Handled, P.Residents, K.Enabled, K.SendsTwice,
         F.NewStep, F.SuspendStep, F.ResumeStep, F.ExitStep;
    ServiceIsPossible(c, g, s, handle);
    M.MemoryIsReady(c, g, s, Service(handle));
  }

  /** One request is served: the server does to its tables, frames and files what the machine's step says. */
  method Serve(server: Server, r: K.Request, ghost c: K.Config, ghost g: P.Geometry, ghost s: M.State)
    returns (handle: Handle)
    requires M.Together(c, g, s) && |s.k.requests| > 0 && r == s.k.requests[0] && Stands(server, g, s)
    modifies server, server.bitmap
    ensures M.Possible(c, g, s, Service(handle)) && Stands(server, g, M.Apply(c, g, s, Service(handle)))
  {
    hide M.Together, M.Possible, M.Apply, P.Inv, Finds, MemoryAfter;
    RequestFindsItsProcess(c, g, s);
    handle := HandleRequest(server, r);
    ServiceIsPossible(c, g, s, handle);
    Serviced(c, g, s, handle);
  }

  // ---- Accesses of the CPU ------------------------------------------------------------

  /** The process on the CPU, with the indexes of its PCB, holds its frames and has the page. */
  ghost predicate Reaches(g: P.Geometry, s: M.State, pcb: Pcb, page: nat) {
    && P.Inv(g, s.m.m) && H.Has(s.k.given, pcb.pid, HandleOf(pcb)) && pcb.pid in s.m.m.procs
    && P.Resident(s.m.m.procs[pcb.pid]) && page < |s.m.m.procs[pcb.pid].swap|
  }

  lemma ToldOnTheCpu()
    ensures H.Told(K.CpuRunning)
  {
  }

  /** So the MMU can walk its tables. */
  lemma CanWalk(g: P.Geometry, s: M.State, server: Server, pcb: Pcb, a: nat)
    requires Stands(server, g, s) && P.GeometryOk(g) && Reaches(g, s, pcb, a / g.pageSize)
    ensures U.CanReach(server, pcb.pid, pcb.pageTable, pcb.framesIndex, a)
  {
    hide P.Inv, P.Resident;
  }

  /** The machine takes an access of the CPU from s to s'. */
  ghost predicate Accessed(c: K.Config, g: P.Geometry, s: M.State, a: P.Event, s': M.State) {
    M.Together(c, g, s) && M.Possible(c, g, s, M.Access(a)) && s' == M.Apply(c, g, s, M.Access(a))
  }

  lemma AccessedInMachine(c: K.Config, g: P.Geometry, s: M.State, a: P.Event, s': M.State)
    requires Accessed(c, g, s, a, s')
    ensures P.Sound(g, s.m) && P.Enabled(g, s.m, a) && P.GeometryOk(g)
    ensures s'.k == s.k && s'.m == F.Apply(g, s.m, a) && s'.served == s.served + [a]
    ensures s.k.given.Keys == s.m.m.procs.Keys
  {
    hide P.Inv, P.Enabled, P.Residents, A.Admits, H.Kept, H.Handled, F.Apply, M.Possible;
    M.MemoryIsReady(c, g, s, M.Access(a));
  }

  lemma TranslatesLive(g: P.Geometry, m: P.System, pid: nat, k: nat)
    requires P.Sound(g, m) && P.Enabled(g, m, P.Translate(pid, k))
    ensures F.Live(g, m.m, pid) && k < |m.m.procs[pid].swap|
    ensures var t := F.TranslateStep(g, m.m, pid, k); F.Apply(g, m, P.Translate(pid, k)) == t && t.t.At?
  {
    hide P.ProcOk, P.Apart, P.Covered, P.Counted, P.Resident, P.Translated;
  }

  predicate OnTheCpu(s: M.State, pcb: Pcb) { |K.At(s.k.at, K.CpuRunning)| > 0 && pcb == K.At(s.k.at, K.CpuRunning)[0] }

  lemma RunningReaches(c: K.Config, g: P.Geometry, s: M.State, pcb: Pcb, page: nat, s': M.State)
    requires Accessed(c, g, s, P.Translate(pcb.pid, page), s') && OnTheCpu(s, pcb)
    ensures Reaches(g, s, pcb, page)
  {
    hide P.Inv, A.Admits, H.Kept, H.RequestsRight, H.RepliesRight, H.Has, P.Residents, M.LargeEnough, P.Resident, K.At,
         K.Enabled, M.Apply;
    M.AccessFits(c, g, s, P.Translate(pcb.pid, page));
    assert pcb in K.At(s.k.at, K.CpuRunning);
    ToldOnTheCpu();
  }

  /** The MMU translates an address of the process on the CPU, with the indexes of its PCB. */
  method Translate(server: Server, pcb: Pcb, a: nat, ghost c: K.Config, ghost g: P.Geometry, ghost s: M.State,
          ghost s': M.State)
    returns (physical: nat)
    requires P.GeometryOk(g) && Accessed(c, g, s, P.Translate(pcb.pid, a / g.pageSize), s') && Stands(server, g, s)
    requires OnTheCpu(s, pcb)
    modifies server, server.memory
    ensures Stands(server, g, s') && s'.m.t.At? && s'.m.t.frame >= 0
    ensures physical == T.Number(s'.m.t.frame, U.Split(g, a).offset, g.pageSize)
  {
    hide Accessed, Reaches, U.CanReach, P.Inv, P.Resident, P.Sound, P.Enabled, F.TranslateStep, F.Live, F.Apply,
         D.AllLinked, D.ProcessesOf;
    ghost var page := a / g.pageSize;
    RunningReaches(c, g, s, pcb, page, s');
    AccessedInMachine(c, g, s, P.Translate(pcb.pid, page), s');
    CanWalk(g, s, server, pcb, a);
    TranslatesLive(g, s.m, pcb.pid, page);
    physical := U.Translate(server, pcb.pid, pcb.pageTable, pcb.framesIndex, a);
  }

  /** What the last translation left still holds, and what a read answers with and does. */
  lemma LoadDoes(g: P.Geometry, m: P.System, o: nat)
    requires P.Sound(g, m) && P.Enabled(g, m, P.Load(o))
    ensures P.Inv(g, m.m) && m.t.At? && m.t.pid in m.m.procs && m.t.page < |m.m.procs[m.t.pid].pages|
    ensures o + 4 <= g.pageSize
    ensures var e := m.m.procs[m.t.pid].pages[m.t.page]; e.present && e.frame == m.t.frame && 0 <= e.frame < |m.m.ram|
    ensures |m.m.ram[m.t.frame]| == g.pageSize && F.Answer(g, m, o) == m.m.ram[m.t.frame][o..o + 4]
    ensures F.Apply(g, m, P.Load(o)).m
         == m.m.(procs := m.m.procs[m.t.pid := P.Touched(m.m.procs[m.t.pid], m.t.page, false)])
  {
    hide P.AllOk, P.Apart, P.Covered, P.Counted, P.Touched;
    F.SoundIsPointed(g, m);
  }

  /** What a write does. */
  lemma StoreDoes(g: P.Geometry, m: P.System, o: nat, word: seq<byte>)
    requires P.Sound(g, m) && P.Enabled(g, m, P.Store(o, word))
    ensures P.Sound(g, m) && P.Enabled(g, m, P.Load(o)) && |word| == 4
    ensures m.t.pid in m.m.procs && m.t.page < |m.m.procs[m.t.pid].pages| && 0 <= m.t.frame < |m.m.ram|
    ensures o + 4 <= |m.m.ram[m.t.frame]|
    ensures F.Apply(g, m, P.Store(o, word)).m
         == m.m.(procs := m.m.procs[m.t.pid := P.Touched(m.m.procs[m.t.pid], m.t.page, true)],
                 ram := m.m.ram[m.t.frame := P.Overwrite(m.m.ram[m.t.frame], o, word)])
  {
    hide P.AllOk, P.Apart, P.Covered, P.Counted, P.Touched, P.Overwrite;
    F.SoundIsPointed(g, m);
  }

  lemma ClientsAreProcesses(server: Server)
    requires server.Valid()
    ensures server.Abs().procs.Keys == server.clients.Keys
  {
  }

  /** memory_read, as the CPU asks for it. */
  method Load(server: Server, physical: nat, ghost o: nat, ghost c: K.Config, ghost g: P.Geometry, ghost s: M.State,
          ghost s': M.State)
    returns (value: seq<byte>)
    requires Accessed(c, g, s, P.Load(o), s') && Stands(server, g, s) && s.m.t.At? && s.m.t.frame >= 0
    requires physical == T.Number(s.m.t.frame, o, g.pageSize)
    modifies server
    ensures Stands(server, g, s')
    ensures Answers(g, s.m, o, value)
  {
    hide Accessed, P.Inv, P.Sound, P.Enabled, F.Apply, F.Answer, P.Touched, D.AllLinked, D.ProcessesOf, T.Chunks;
    AccessedInMachine(c, g, s, P.Load(o), s');
    LoadDoes(g, s.m, o);
    ClientsAreProcesses(server);
    value := server.MemoryRead(physical, s.m.t.pid, s.m.t.page, o);
  }

  /** The word is what the memory of the machine answers. */
  ghost predicate Answers(g: P.Geometry, m: P.System, o: nat, value: seq<byte>) {
    P.Sound(g, m) && P.Enabled(g, m, P.Load(o)) && value == F.Answer(g, m, o)
  }

  /** So over the runs of the machine a read brings what the process wrote last. */
  lemma AnswersAreLastWritten(c: K.Config, g: P.Geometry, es: seq<M.Step>, s: M.State, o: nat, value: seq<byte>)
    requires M.LargeEnough(c, g) && M.Runs(c, g, es) && s == M.After(c, g, es)
    requires M.Possible(c, g, s, M.Access(P.Load(o)))
    requires Answers(g, s.m, o, value)
    ensures s.m.t.At? && |value| == 4
    ensures forall i: nat :: i < 4 ==> value[i] == V.LastByte(s.served, s.m.t.pid, s.m.t.page, o + i)
  {
    hide M.LargeEnough, M.Runs, M.After, M.Possible, M.Together, V.LastByte, P.Sound;
    M.ProcessesReadWhatTheyWrote(c, g, es, s, o);
  }

  /** memory_write, as the CPU asks for it. */
  method Store(server: Server, physical: nat, value: seq<byte>, ghost o: nat, ghost c: K.Config, ghost g: P.Geometry,
          ghost s: M.State,
               ghost s': M.State)
    requires Accessed(c, g, s, P.Store(o, value), s') && Stands(server, g, s) && s.m.t.At? && s.m.t.frame >= 0
    requires physical == T.Number(s.m.t.frame, o, g.pageSize)
    modifies server, server.memory
    ensures Stands(server, g, s')
  {
    hide Accessed, P.Inv, P.Sound, P.Enabled, F.Apply, F.Answer, P.Touched, P.Overwrite, D.AllLinked, D.ProcessesOf,
         T.Chunks;
    AccessedInMachine(c, g, s, P.Store(o, value), s');
    StoreDoes(g, s.m, o, value);
    LoadDoes(g, s.m, o);
    ClientsAreProcesses(server);
    server.MemoryWrite(physical, value, s.m.t.pid, s.m.t.page, o);
  }

  /** Every other step of the machine leaves the server alone. */
  lemma OthersLeaveTheServer(c: K.Config, g: P.Geometry, s: M.State, e: M.Step, server: Server)
    requires M.Together(c, g, s) && M.Possible(c, g, s, e) && !M.AsksMemory(s, e) && Stands(server, g, s)
    ensures Stands(server, g, M.Apply(c, g, s, e))
  {
    hide M.Together, M.Possible, D.AllLinked, D.ProcessesOf, K.PlacesAfter, K.CountAfter, K.HeadersAfter,
         K.HistoryAfter;
  }
}
