/** Runs of the scheduler, built step by step: what each step does to the parts of the state the runs depend on. */
module KernelReach {
  import opened Processes
  import opened Kernel
  import opened KernelLaws
  import opened KernelSafety
  import opened KernelConservation
  import opened KernelHistory

  // ---- The effect of a step, piece by piece -------------------------------------------

  lemma StaysPut(c: Config, s: State, e: Step)
    requires ShapeOf(e).from == Nowhere && !Receives(e) && !Sorts(e)
    ensures Apply(c, s, e).at == s.at
  {
    hide ShapeOf, CountAfter, HeadersAfter, HistoryAfter, Sent, RepliesAfter, Residents;
  }

  predicate OneMoves(s: State, e: Step) {
    && ShapeOf(e).from != Nowhere && ShapeOf(e).from != ShapeOf(e).to && !Receives(e) && !Sorts(e) && Index(e) == 0
    && |At(s.at, ShapeOf(e).from)| > 0 && !SendsTwice(s, e)
  }

  lemma MovesInPlaces(c: Config, s: State, e: Step)
    requires OneMoves(s, e)
    ensures var h := ShapeOf(e);
            Apply(c, s, e).at == Put(Kernel.Take(s.at, h.from, 0), h.to, Carried(c, s, e, At(s.at, h.from)[0]))
  {
    hide ShapeOf, CountAfter, HeadersAfter, HistoryAfter, Sent, RepliesAfter, Residents, Carried, SendsTwice, Put,
         Kernel.Take;
  }

  lemma HeadMoves(at: Places, from: Place, to: Place, moved: Pcb, y: Place)
    requires from != to && |At(at, from)| > 0
    ensures At(Put(Kernel.Take(at, from, 0), to, moved), y)
         == if y == from then At(at, y)[1..] else if y == to then At(at, y) + [moved] else At(at, y)
  {
  }

  // ---- What the steps of the run look at ----------------------------------------------

  datatype Points = Points(handlers: Point, toReady: Point, toExec: Point, memory: Point)

  datatype Counters = Counters(
    numbered: nat, received: nat, anyForReady: nat, multiprogram: nat, tableReady: nat,
    mutexFree: nat, readyForExec: nat, cpuFree: nat, interruptWire: nat, interruption: nat)

  datatype Queues = Queues(
    newQ: seq<Pcb>, suspendedReadyQ: seq<Pcb>, admitting: seq<Pcb>, memoryInitQ: seq<Pcb>,
    hand: seq<Pcb>, readyQ: seq<Pcb>, cpuInbox: seq<Pcb>, cpuRunning: seq<Pcb>)

  datatype View = View(
    t: Points, n: Counters, q: Queues,
    requests: seq<Request>, replies: seq<Reply>, pid: nat, loaded: seq<nat>, stuck: bool)

  function ViewOf(s: State): View {
    View(Points(PointOf(s, Handlers), PointOf(s, ToReady), PointOf(s, ToExec), PointOf(s, MemoryListener)),
         Counters(N(s, Numbered), N(s, Received), N(s, AnyForReady), N(s, Multiprogram), N(s, TableReady),
                  N(s, MutexFree), N(s, ReadyForExec), N(s, CpuFree), N(s, InterruptWire), N(s, Interruption)),
         Queues(At(s.at, NewQ), At(s.at, SuspendedReadyQ), At(s.at, AdmittingHand), At(s.at, MemoryInitQ),
                At(s.at, ToReadyHand), At(s.at, ReadyQ), At(s.at, CpuInbox), At(s.at, CpuRunning)),
         s.requests, s.replies, s.pid, s.loaded, s.stuck)
  }

  /** What a process leaves through: the return from the CPU and the exit. */
  datatype Departures = Departures(
    listener: Point, exit: Point, toExit: nat,
    outbox: seq<Pcb>, exitQ: seq<Pcb>, exitHand: seq<Pcb>, memoryExitQ: seq<Pcb>, headers: seq<CpuHeader>)

  function DeparturesOf(s: State): Departures {
    Departures(PointOf(s, DispatchListener), PointOf(s, ExitProcess), N(s, ToExit),
               At(s.at, CpuOutbox), At(s.at, ExitQ), At(s.at, ExitHand), At(s.at, MemoryExitQ), s.headers)
  }

  /** The steps of the run, where they may be taken. */
  predicate Legal(c: Config, v: View, e: Step) { v.t.handlers == Anywhere && Allowed(c, v, e) }

  predicate Allowed(c: Config, v: View, e: Step) {
    match e
    case Console(LoadPid) => true
    case Console(StorePid(i)) => v.n.numbered == 0 && |v.loaded| == 1 && i == 0
    case Console(Receive(_, _, _)) => v.n.numbered > 0
    case Console(ReceivePost) => v.n.received > 0
    case Admit(TokenAny) => v.t.toReady == AwaitAny && v.n.anyForReady > 0
    case Admit(TokenCredit) => v.t.toReady == AwaitCredit && v.n.multiprogram > 0
    case Admit(SeeNoSuspended) => v.t.toReady == ChooseQueue && v.q.suspendedReadyQ == []
    case Admit(SeeNew) => v.t.toReady == CheckNew && v.q.newQ != []
    case Admit(PopNew) => v.t.toReady == TakeNew && v.q.newQ != []
    case Admit(SendNew) => v.t.toReady == RequestTables && v.q.admitting != []
    case Admit(TokenTables) => v.t.toReady == AwaitTables && v.n.tableReady > 0
    case Memory(_) => v.requests != []
    case Answer(HandleTables) =>
      && v.t.memory == Waiting && v.q.memoryInitQ != [] && v.replies != []
      && v.replies[0].MemoryReady? && v.replies[0].pid == v.q.memoryInitQ[0].pid
    case Answer(TablesGiven) => v.t.memory == PostTables
    case PutToReady(t, EnqueueSrt) =>
      c.srt && t == ToReady && v.t.toReady == Enqueue(t) && v.n.mutexFree > 0 && v.q.hand != []
    case PutToReady(t, EnqueueFifo) =>
      !c.srt && t == ToReady && v.t.toReady == Enqueue(t) && v.n.mutexFree > 0 && v.q.hand != []
    case PutToReady(t, CheckIdle) => t == ToReady && v.t.toReady == Check(t) && v.n.cpuFree > 0
    case PutToReady(t, CheckBusy) => t == ToReady && v.t.toReady == Check(t) && v.n.cpuFree == 0
    case PutToReady(t, SortReady(q)) => t == ToReady && v.t.toReady == Sort(t) && q == v.q.readyQ && |q| == 1
    case PutToReady(t, PostReady) => t == ToReady && v.t.toReady == Post(t)
    case Exec(TokenReady) => v.t.toExec == AwaitReady && v.n.readyForExec > 0
    case Exec(TokenCpu) => v.t.toExec == AwaitCpu && v.n.cpuFree > 0
    case Exec(DispatchHead(_)) => v.t.toExec == Dispatch && v.n.mutexFree > 0 && v.q.readyQ != []
    case Exec(ReadTime(_)) => v.t.toExec == Timing
    case Cpu(CpuReceive) => v.q.cpuInbox != [] && v.q.cpuRunning == [] && !v.stuck
    case Cpu(CpuInterrupted) => v.n.interruptWire > 0 && v.n.interruption == 0
    case _ => false
  }

  /** No PCB is sent twice, the handlers take turns and the clock goes on, at one step and all along a run. */
  predicate Proceeds(s: State, e: Step) { !SendsTwice(s, e) && !Overtakes(s, e) && Ticks(s, e) }

  lemma LegalAdmission(c: Config, s: State, e: Step)
    requires (e.Console? || e.Admit? || e.Memory?) && Legal(c, ViewOf(s), e)
    ensures Enabled(c, s, e) && !SendsTwice(s, e) && (Ticks(s, e) ==> Proceeds(s, e))
  {
  }

  lemma LegalReadying(c: Config, s: State, e: Step)
    requires e.PutToReady? && Legal(c, ViewOf(s), e)
    ensures Enabled(c, s, e) && !SendsTwice(s, e) && (Ticks(s, e) ==> Proceeds(s, e))
  {
  }

  lemma LegalDispatch(c: Config, s: State, e: Step)
    requires e.Exec? && Legal(c, ViewOf(s), e)
    ensures Enabled(c, s, e) && !SendsTwice(s, e) && (Ticks(s, e) ==> Proceeds(s, e))
  {
  }

  lemma LegalAnswer(c: Config, s: State, e: Step)
    requires e.Answer? && Legal(c, ViewOf(s), e)
    ensures Enabled(c, s, e) && !SendsTwice(s, e) && (Ticks(s, e) ==> Proceeds(s, e))
  {
  }

  lemma LegalOnTheCpu(c: Config, s: State, e: Step)
    requires e.Cpu? && Legal(c, ViewOf(s), e)
    ensures Enabled(c, s, e) && !SendsTwice(s, e) && (Ticks(s, e) ==> Proceeds(s, e))
  {
  }

  lemma LegalIsEnabled(c: Config, s: State, e: Step)
    requires Legal(c, ViewOf(s), e)
    ensures Enabled(c, s, e) && !SendsTwice(s, e) && (Ticks(s, e) ==> Proceeds(s, e))
  {
    hide Enabled, SendsTwice, Proceeds, Ticks, ViewOf;
    if e.Console? || e.Admit? || e.Memory? { LegalAdmission(c, s, e); }
    else if e.PutToReady? { LegalReadying(c, s, e); }
    else if e.Exec? { LegalDispatch(c, s, e); }
    else if e.Answer? { LegalAnswer(c, s, e); }
    else { LegalOnTheCpu(c, s, e); }
  }

  // ---- The view after a step ----------------------------------------------------------

  function Goto(t: Points, h: Shape): Points {
    Points(if h.thread == Handlers then h.next else t.handlers,
           if h.thread == ToReady then h.next else t.toReady,
           if h.thread == ToExec then h.next else t.toExec,
           if h.thread == MemoryListener then h.next else t.memory)
  }

  function Change(n: nat, x: Counter, h: Shape): nat {
    var m := n - B(h.wait == x) + B(h.post == x);
    if m >= 0 then m else 0
  }

  function Count(n: Counters, h: Shape): Counters {
    Counters(Change(n.numbered, Numbered, h), Change(n.received, Received, h),
             Change(n.anyForReady, AnyForReady, h), Change(n.multiprogram, Multiprogram, h),
             Change(n.tableReady, TableReady, h), Change(n.mutexFree, MutexFree, h),
             Change(n.readyForExec, ReadyForExec, h), Change(n.cpuFree, CpuFree, h),
             Change(n.interruptWire, InterruptWire, h), Change(n.interruption, Interruption, h))
  }

  lemma CounterChanges(c: Config, s: State, e: Step, x: Counter)
    requires Startable(s, e) && x != Nothing
    ensures N(Apply(c, s, e), x) == Change(N(s, x), x, ShapeOf(e))
  {
    hide ShapeOf, Apply, Startable;
    PointsAndCounters(c, s, e);
  }

  lemma ThreadsChange(c: Config, s: State, e: Step)
    requires Startable(s, e)
    ensures ViewOf(Apply(c, s, e)).t == Goto(ViewOf(s).t, ShapeOf(e))
  {
    hide ShapeOf, Apply, Startable, N, At;
    PointsAndCounters(c, s, e);
  }

  lemma CountersChange(c: Config, s: State, e: Step)
    requires Startable(s, e)
    ensures ViewOf(Apply(c, s, e)).n == Count(ViewOf(s).n, ShapeOf(e))
  {
    hide ShapeOf, Apply, Startable, Change, N, PointOf, At;
    CounterChanges(c, s, e, Numbered); CounterChanges(c, s, e, Received); CounterChanges(c, s, e, AnyForReady);
    CounterChanges(c, s, e, Multiprogram);
    CounterChanges(c, s, e, TableReady); CounterChanges(c, s, e, MutexFree); CounterChanges(c, s, e, ReadyForExec);
    CounterChanges(c, s, e, CpuFree); CounterChanges(c, s, e, InterruptWire); CounterChanges(c, s, e, Interruption);
  }

  /** What leaves and what comes to a place. */
  function Shift(q: seq<Pcb>, x: Place, h: Shape, moved: Pcb): seq<Pcb> {
    if h.from == x then Rest(q) else if h.to == x then q + [moved] else q
  }

  function ShiftAll(q: Queues, h: Shape, moved: Pcb): Queues {
    Queues(Shift(q.newQ, NewQ, h, moved), Shift(q.suspendedReadyQ, SuspendedReadyQ, h, moved),
           Shift(q.admitting, AdmittingHand, h, moved), Shift(q.memoryInitQ, MemoryInitQ, h, moved),
           Shift(q.hand, ToReadyHand, h, moved), Shift(q.readyQ, ReadyQ, h, moved),
           Shift(q.cpuInbox, CpuInbox, h, moved), Shift(q.cpuRunning, CpuRunning, h, moved))
  }

  lemma PlaceChanges(c: Config, s: State, e: Step, x: Place)
    requires OneMoves(s, e)
    ensures At(Apply(c, s, e).at, x)
        == Shift(At(s.at, x), x, ShapeOf(e), Carried(c, s, e, At(s.at, ShapeOf(e).from)[0]))
  {
    hide ShapeOf, Apply, Carried, SendsTwice, Put, Kernel.Take;
    MovesInPlaces(c, s, e);
    HeadMoves(s.at, ShapeOf(e).from, ShapeOf(e).to, Carried(c, s, e, At(s.at, ShapeOf(e).from)[0]), x);
  }

  lemma QueuesChange(c: Config, s: State, e: Step)
    requires OneMoves(s, e)
    ensures ViewOf(Apply(c, s, e)).q
        == ShiftAll(ViewOf(s).q, ShapeOf(e), Carried(c, s, e, At(s.at, ShapeOf(e).from)[0]))
  {
    hide ShapeOf, Apply, Carried, SendsTwice, Shift, N, PointOf;
    PlaceChanges(c, s, e, NewQ); PlaceChanges(c, s, e, SuspendedReadyQ); PlaceChanges(c, s, e, AdmittingHand);
    PlaceChanges(c, s, e, MemoryInitQ); PlaceChanges(c, s, e, ToReadyHand); PlaceChanges(c, s, e, ReadyQ);
    PlaceChanges(c, s, e, CpuInbox); PlaceChanges(c, s, e, CpuRunning);
  }

  // ---- Steps away from the departures -------------------------------------------------

  predicate OfArrival(e: Step) {
    || e.Console? || e.Admit? || e.PutToReady? || e.Exec? || e.Memory?
    || (e.Answer? && (e.answer.HandleTables? || e.answer.TablesGiven?))
    || (e.Cpu? && (e.cpu.CpuReceive? || e.cpu.CpuInterrupted?))
  }

  predicate OfDepartures(x: Place) { x.CpuOutbox? || x.ExitQ? || x.ExitHand? || x.MemoryExitQ? }

  lemma ArrivalShapes(e: Step)
    requires OfArrival(e) && Proper(e)
    ensures var h := ShapeOf(e);
            && h.thread != DispatchListener && h.thread != ExitProcess && h.wait != ToExit && h.post != ToExit
            && !OfDepartures(h.from) && !OfDepartures(h.to)
  {
  }

  lemma LegalArrives(c: Config, v: View, e: Step)
    requires Legal(c, v, e)
    ensures OfArrival(e) && Proper(e)
  {
  }

  lemma HeadersStay(s: State, e: Step)
    requires OfArrival(e)
    ensures HeadersAfter(s, e) == s.headers
  {
  }

  lemma DeparturesStay(c: Config, s: State, e: Step)
    requires OfArrival(e) && Enabled(c, s, e) && !SendsTwice(s, e)
    ensures DeparturesOf(Apply(c, s, e)) == DeparturesOf(s)
  {
    hide ShapeOf, SendsTwice, OfArrival, Guard, PlacesAfter, CountAfter, HeadersAfter, HistoryAfter, Sent, RepliesAfter,
         Residents, Given, N, PointOf;
    ArrivalShapes(e);
    HeadersStay(s, e);
    PointsAndCounters(c, s, e);
    PlaceUnchanged(c, s, e, CpuOutbox);
    PlaceUnchanged(c, s, e, ExitQ);
    PlaceUnchanged(c, s, e, ExitHand);
    PlaceUnchanged(c, s, e, MemoryExitQ);
  }

  // ---- Runs ---------------------------------------------------------------------------

  ghost predicate Regular(c: Config, s: State, steps: seq<Step>) {
    Runs(c, s, steps) && Guarded(c, s, steps) && InTurn(c, s, steps) && Ticking(c, s, steps)
  }

  /** A run with neither defect comes to this state. */
  ghost predicate Reached(c: Config, s: State) {
    exists steps :: Regular(c, Initial(c), steps) && After(c, Initial(c), steps) == s
  }

  lemma {:induction false} OneMore(c: Config, s: State, steps: seq<Step>, e: Step)
    requires Regular(c, s, steps) && Enabled(c, After(c, s, steps), e) && Proceeds(After(c, s, steps), e)
    ensures Regular(c, s, steps + [e]) && After(c, s, steps + [e]) == Apply(c, After(c, s, steps), e)
    decreases |steps|
  {
    hide Enabled, Apply, SendsTwice, Overtakes, Ticks;
    if steps == [] {
      assert steps + [e] == [e] && [e][1..] == [];
      assert Regular(c, Apply(c, s, e), []);
    } else {
      assert (steps + [e])[0] == steps[0] && (steps + [e])[1..] == steps[1..] + [e];
      OneMore(c, Apply(c, s, steps[0]), steps[1..], e);
    }
  }

  lemma Take(c: Config, s: State, e: Step) returns (s': State)
    requires Reached(c, s) && Enabled(c, s, e) && Proceeds(s, e)
    ensures s' == Apply(c, s, e) && Reached(c, s')
  {
    hide Enabled, Apply, Proceeds, Runs, Guarded, InTurn, Ticking, After, Initial;
    var steps :| Regular(c, Initial(c), steps) && After(c, Initial(c), steps) == s;
    OneMore(c, Initial(c), steps, e);
    s' := Apply(c, s, e);
  }

  // ---- One step of the run ------------------------------------------------------------

  predicate Waits(e: Step) {
    ShapeOf(e).from == Nowhere && !Loads(e) && !Stores(e) && !Receives(e) && !Sorts(e) && !e.Memory? && !TakesReply(e)
  }

  lemma WaitElsewhere(c: Config, s: State, e: Step)
    requires Waits(e) && !SendsTwice(s, e)
    ensures ViewOf(Apply(c, s, e)).q == ViewOf(s).q
    ensures var s' := Apply(c, s, e);
            && s'.requests == s.requests && s'.replies == s.replies
            && s'.pid == s.pid && s'.loaded == s.loaded && s'.stuck == s.stuck
  {
    hide CountAfter, HeadersAfter, HistoryAfter, Residents, PlacesAfter;
    StaysPut(c, s, e);
  }

  /** The steps of the run that only wait and post, on the view. */
  function Waited(v: View, e: Step): View {
    match e
    case Console(ReceivePost) => v.(n := v.n.(received := Less(v.n.received), anyForReady := v.n.anyForReady + 1))
    case Admit(TokenAny) => v.(t := v.t.(toReady := AwaitCredit), n := v.n.(anyForReady := Less(v.n.anyForReady)))
    case Admit(TokenCredit) => v.(t := v.t.(toReady := ChooseQueue), n := v.n.(multiprogram := Less(v.n.multiprogram)))
    case Admit(SeeNoSuspended) => v.(t := v.t.(toReady := CheckNew))
    case Admit(SeeNew) => v.(t := v.t.(toReady := TakeNew))
    case Admit(TokenTables) => v.(t := v.t.(toReady := Enqueue(ToReady)), n := v.n.(tableReady := Less(v.n.tableReady)))
    case Answer(TablesGiven) => v.(t := v.t.(memory := Waiting), n := v.n.(tableReady := v.n.tableReady + 1))
    case PutToReady(_, CheckIdle) => v.(t := v.t.(toReady := Sort(ToReady)))
    case PutToReady(_, CheckBusy) =>
      v.(t := v.t.(toReady := AwaitInterrupt(ToReady)), n := v.n.(interruptWire := v.n.interruptWire + 1))
    case PutToReady(_, PostReady) => v.(t := v.t.(toReady := AwaitAny), n := v.n.(readyForExec := v.n.readyForExec + 1))
    case Exec(TokenReady) => v.(t := v.t.(toExec := AwaitCpu), n := v.n.(readyForExec := Less(v.n.readyForExec)))
    case Exec(TokenCpu) => v.(t := v.t.(toExec := Dispatch), n := v.n.(cpuFree := Less(v.n.cpuFree)))
    case Exec(ReadTime(_)) => v.(t := v.t.(toExec := AwaitReady), n := v.n.(mutexFree := v.n.mutexFree + 1))
    case Cpu(CpuInterrupted) =>
      v.(n := v.n.(interruptWire := Less(v.n.interruptWire), interruption := v.n.interruption + 1))
    case _ => v
  }

  function Less(n: nat): nat { if n > 0 then n - 1 else 0 }

  predicate OnlyWaits(e: Step) {
    match e
    case Console(ReceivePost) => true
    case Admit(a) => a.TokenAny? || a.TokenCredit? || a.SeeNoSuspended? || a.SeeNew? || a.TokenTables?
    case Answer(a) => a.TablesGiven?
    case PutToReady(t, p) => t == ToReady && (p.CheckIdle? || p.CheckBusy? || p.PostReady?)
    case Exec(x) => x.TokenReady? || x.TokenCpu? || x.ReadTime?
    case Cpu(x) => x.CpuInterrupted?
    case _ => false
  }

  lemma AdmissionGoes(v: View, e: Step)
    requires OnlyWaits(e) && (e.Admit? || e.Console?) && v.t.handlers == Anywhere
    ensures Waits(e) && Goto(v.t, ShapeOf(e)) == Waited(v, e).t
  {
  }

  lemma AdmissionCounts(v: View, e: Step)
    requires OnlyWaits(e) && (e.Admit? || e.Console?)
    ensures v.(t := Waited(v, e).t, n := Count(v.n, ShapeOf(e))) == Waited(v, e)
  {
  }

  lemma ReadyingGoes(v: View, e: Step)
    requires OnlyWaits(e) && (e.PutToReady?) && v.t.handlers == Anywhere
    ensures Waits(e) && Goto(v.t, ShapeOf(e)) == Waited(v, e).t
  {
  }

  lemma ReadyingCounts(v: View, e: Step)
    requires OnlyWaits(e) && (e.PutToReady?)
    ensures v.(t := Waited(v, e).t, n := Count(v.n, ShapeOf(e))) == Waited(v, e)
  {
  }

  lemma AnsweringGoes(v: View, e: Step)
    requires OnlyWaits(e) && (e.Answer? || e.Exec? || e.Cpu?) && v.t.handlers == Anywhere
    ensures Waits(e) && Goto(v.t, ShapeOf(e)) == Waited(v, e).t
  {
  }

  lemma AnsweringCounts(v: View, e: Step)
    requires OnlyWaits(e) && (e.Answer? || e.Exec? || e.Cpu?)
    ensures v.(t := Waited(v, e).t, n := Count(v.n, ShapeOf(e))) == Waited(v, e)
  {
  }

  lemma WaitsAsSaid(v: View, e: Step)
    requires OnlyWaits(e) && v.t.handlers == Anywhere
    ensures Waits(e) && v.(t := Goto(v.t, ShapeOf(e)), n := Count(v.n, ShapeOf(e))) == Waited(v, e)
  {
    hide Waits, Goto, Count, ShapeOf, Waited;
    if e.Admit? || e.Console? { AdmissionGoes(v, e); AdmissionCounts(v, e); }
    else if e.PutToReady? { ReadyingGoes(v, e); ReadyingCounts(v, e); }
    else { AnsweringGoes(v, e); AnsweringCounts(v, e); }
  }

  lemma OthersDoNotTick(s: State, e: Step)
    requires OnlyWaits(e) || IsSpecial(e)
    ensures Ticks(s, e)
  {
  }

  lemma TakeWait(c: Config, s: State, e: Step) returns (s': State)
    requires Reached(c, s) && Legal(c, ViewOf(s), e) && OnlyWaits(e)
    ensures Reached(c, s') && ViewOf(s') == Waited(ViewOf(s), e)
    ensures DeparturesOf(s') == DeparturesOf(s)
  {
    hide DeparturesOf, OfArrival, Waits, Apply, Guard, SendsTwice, Proceeds, Ticks, ShapeOf, Goto, Count, Reached,
         Startable, Waited, OnlyWaits, Allowed;
    WaitsAsSaid(ViewOf(s), e);
    OthersDoNotTick(s, e);
    LegalIsEnabled(c, s, e);
    LegalArrives(c, ViewOf(s), e);
    DeparturesStay(c, s, e);
    s' := Take(c, s, e);
    ThreadsChange(c, s, e);
    CountersChange(c, s, e);
    WaitElsewhere(c, s, e);
  }

  /** The moves of the run, and the PCB as it arrives. */
  predicate Carries(v: View, e: Step, moved: Pcb) {
    match e
    case Admit(PopNew) => v.q.newQ != [] && moved == v.q.newQ[0]
    case Admit(SendNew) => v.q.admitting != [] && moved == v.q.admitting[0]
    case PutToReady(t, EnqueueSrt) => t == ToReady && v.q.hand != [] && moved == v.q.hand[0]
    case PutToReady(t, EnqueueFifo) => t == ToReady && v.q.hand != [] && moved == v.q.hand[0]
    case Answer(HandleTables) =>
      && v.q.memoryInitQ != [] && v.replies != [] && v.replies[0].MemoryReady?
      && moved == v.q.memoryInitQ[0].(pageTable := v.replies[0].handle.pt, framesIndex := v.replies[0].handle.fi)
    case Exec(DispatchHead(_)) => v.q.readyQ != [] && moved == v.q.readyQ[0]
    case Cpu(CpuReceive) => v.q.cpuInbox != [] && moved == v.q.cpuInbox[0]
    case _ => false
  }

  function SentBy(v: View, e: Step): seq<Request> {
    if e == Admit(SendNew) && v.q.admitting != [] then [ProcessNew(v.q.admitting[0].pid, v.q.admitting[0].size)] else []
  }

  lemma CarriedAsSaid(c: Config, s: State, e: Step, moved: Pcb)
    requires Carries(ViewOf(s), e, moved)
    ensures OneMoves(s, e) && Carried(c, s, e, At(s.at, ShapeOf(e).from)[0]) == moved
    ensures Sent(s, e) == SentBy(ViewOf(s), e) && !Serves(s, e)
  {
  }

  lemma MoveElsewhere(c: Config, s: State, e: Step, moved: Pcb)
    requires Carries(ViewOf(s), e, moved)
    ensures var v, s' := ViewOf(s), Apply(c, s, e);
            && s'.requests == v.requests + SentBy(v, e)
            && s'.replies == (if TakesReply(e) then Rest(v.replies) else v.replies)
            && s'.pid == s.pid && s'.loaded == s.loaded && s'.stuck == s.stuck
  {
    CarriedAsSaid(c, s, e, moved);
    hide CountAfter, HeadersAfter, HistoryAfter, Residents, PlacesAfter, Sent, SentBy, Carried;
  }

  /** The moves of the run, on the view. */
  function MovedTo(v: View, e: Step, moved: Pcb): View {
    match e
    case Admit(PopNew) =>
      v.(t := v.t.(toReady := RequestTables), q := v.q.(newQ := Rest(v.q.newQ), admitting := v.q.admitting + [moved]))
    case Admit(SendNew) =>
      v.(t := v.t.(toReady := AwaitTables), requests := v.requests + SentBy(v, e),
         q := v.q.(admitting := Rest(v.q.admitting), memoryInitQ := v.q.memoryInitQ + [moved]))
    case PutToReady(_, EnqueueSrt) =>
      v.(t := v.t.(toReady := Check(ToReady)), n := v.n.(mutexFree := Less(v.n.mutexFree)),
         q := v.q.(hand := Rest(v.q.hand), readyQ := v.q.readyQ + [moved]))
    case PutToReady(_, EnqueueFifo) =>
      v.(t := v.t.(toReady := Post(ToReady)), q := v.q.(hand := Rest(v.q.hand), readyQ := v.q.readyQ + [moved]))
    case Answer(HandleTables) =>
      v.(t := v.t.(memory := PostTables), replies := Rest(v.replies),
         q := v.q.(memoryInitQ := Rest(v.q.memoryInitQ), hand := v.q.hand + [moved]))
    case Exec(DispatchHead(_)) =>
      v.(t := v.t.(toExec := Timing), n := v.n.(mutexFree := Less(v.n.mutexFree)),
         q := v.q.(readyQ := Rest(v.q.readyQ), cpuInbox := v.q.cpuInbox + [moved]))
    case Cpu(CpuReceive) => v.(q := v.q.(cpuInbox := Rest(v.q.cpuInbox), cpuRunning := v.q.cpuRunning + [moved]))
    case _ => v
  }

  function AfterMove(v: View, e: Step, moved: Pcb): View {
    var h := ShapeOf(e);
    View(Goto(v.t, h), Count(v.n, h), ShiftAll(v.q, h, moved), v.requests + SentBy(v, e),
         if TakesReply(e) then Rest(v.replies) else v.replies, v.pid, v.loaded, v.stuck)
  }

  lemma MovedThreads(v: View, e: Step, moved: Pcb)
    requires Carries(v, e, moved) && v.t.handlers == Anywhere
    ensures Goto(v.t, ShapeOf(e)) == MovedTo(v, e, moved).t
  {
    hide SentBy, Rest;
  }

  lemma AdmittedCounters(v: View, e: Step, moved: Pcb)
    requires Carries(v, e, moved) && (e.Admit? || e.Answer?)
    ensures Count(v.n, ShapeOf(e)) == MovedTo(v, e, moved).n
  {
    hide SentBy, Rest;
  }

  lemma ReadiedCounters(v: View, e: Step, moved: Pcb)
    requires Carries(v, e, moved) && (e.PutToReady? || e.Exec? || e.Cpu?)
    ensures Count(v.n, ShapeOf(e)) == MovedTo(v, e, moved).n
  {
    hide SentBy, Rest;
  }

  lemma AdmittedQueues(v: View, e: Step, moved: Pcb)
    requires Carries(v, e, moved) && (e.Admit? || e.Answer?)
    ensures ShiftAll(v.q, ShapeOf(e), moved) == MovedTo(v, e, moved).q
  {
    hide SentBy;
  }

  lemma ReadiedQueues(v: View, e: Step, moved: Pcb)
    requires Carries(v, e, moved) && (e.PutToReady? || e.Exec? || e.Cpu?)
    ensures ShiftAll(v.q, ShapeOf(e), moved) == MovedTo(v, e, moved).q
  {
    hide SentBy;
  }

  lemma MovedPlaces(v: View, e: Step, moved: Pcb)
    requires Carries(v, e, moved)
    ensures Count(v.n, ShapeOf(e)) == MovedTo(v, e, moved).n
    ensures ShiftAll(v.q, ShapeOf(e), moved) == MovedTo(v, e, moved).q
  {
    hide MovedTo, Count, ShiftAll, ShapeOf;
    if e.Admit? || e.Answer? {
      AdmittedCounters(v, e, moved);
      AdmittedQueues(v, e, moved);
    } else {
      ReadiedCounters(v, e, moved);
      ReadiedQueues(v, e, moved);
    }
  }

  lemma MovedMessages(v: View, e: Step, moved: Pcb)
    requires Carries(v, e, moved)
    ensures var w := MovedTo(v, e, moved);
            && w.requests == v.requests + SentBy(v, e)
            && w.replies == (if TakesReply(e) then Rest(v.replies) else v.replies)
            && w.pid == v.pid && w.loaded == v.loaded && w.stuck == v.stuck
  {
    assert v.requests + [] == v.requests;
  }

  lemma MovesAsSaid(v: View, e: Step, moved: Pcb)
    requires Carries(v, e, moved) && v.t.handlers == Anywhere
    ensures AfterMove(v, e, moved) == MovedTo(v, e, moved)
  {
    hide Carries, MovedTo, Goto, Count, ShiftAll, ShapeOf, SentBy, TakesReply;
    MovedThreads(v, e, moved);
    MovedPlaces(v, e, moved);
    MovedMessages(v, e, moved);
  }

  lemma TakeMove(c: Config, s: State, e: Step, moved: Pcb) returns (s': State)
    requires Reached(c, s) && Legal(c, ViewOf(s), e) && Carries(ViewOf(s), e, moved) && Ticks(s, e)
    ensures Reached(c, s') && ViewOf(s') == MovedTo(ViewOf(s), e, moved)
    ensures DeparturesOf(s') == DeparturesOf(s)
  {
    hide DeparturesOf, OfArrival, Apply, Guard, SendsTwice, Proceeds, Ticks, ShapeOf, Goto, Count, ShiftAll, Reached,
         Startable, Carries, SentBy, OneMoves, Carried, MovedTo, Allowed;
    LegalIsEnabled(c, s, e);
    LegalArrives(c, ViewOf(s), e);
    DeparturesStay(c, s, e);
    s' := Take(c, s, e);
    CarriedAsSaid(c, s, e, moved);
    ThreadsChange(c, s, e);
    CountersChange(c, s, e);
    QueuesChange(c, s, e);
    MoveElsewhere(c, s, e, moved);
    MovesAsSaid(ViewOf(s), e, moved);
  }

  /** The steps that do more or less than to wait, to post and to move. */
  function Special(c: Config, v: View, e: Step): View {
    match e
    case Console(LoadPid) => v.(loaded := v.loaded + [v.pid])
    case Console(StorePid(_)) =>
      if |v.loaded| > 0 then v.(n := v.n.(numbered := v.n.numbered + 1), pid := v.loaded[0] + 1, loaded := []) else v
    case Console(Receive(_, _, instructions)) =>
      var p := Pcb(v.pid, e.receive.size, e.receive.socket, instructions, 0, 0, 0,
                   c.initialEstimate, c.initialEstimate, 0, 0);
      v.(n := v.n.(numbered := Less(v.n.numbered), received := v.n.received + 1), q := v.q.(newQ := v.q.newQ + [p]))
    case PutToReady(t, SortReady(_)) => v.(t := v.t.(toReady := Post(t)), n := v.n.(mutexFree := v.n.mutexFree + 1))
    case Memory(handle) =>
      v.(requests := Rest(v.requests),
         replies := v.replies + if v.requests != [] then ReplyTo(v.requests[0], handle) else [])
    case _ => v
  }

  predicate IsSpecial(e: Step) { Loads(e) || Stores(e) || Receives(e) || (Sorts(e) && e.t == ToReady) || e.Memory? }

  lemma NumberingElsewhere(c: Config, s: State, e: Step)
    requires (Loads(e) || Stores(e)) && Legal(c, ViewOf(s), e)
    ensures Elsewhere(c, s, e, Special(c, ViewOf(s), e))
  {
    hide CountAfter, HeadersAfter, HistoryAfter, Residents, Given;
  }

  lemma ReceivingElsewhere(c: Config, s: State, e: Step)
    requires Receives(e)
    ensures Elsewhere(c, s, e, Special(c, ViewOf(s), e))
  {
    hide CountAfter, HeadersAfter, HistoryAfter, Residents, Given;
  }

  lemma SortingElsewhere(c: Config, s: State, e: Step)
    requires Sorts(e) && e.t == ToReady && Legal(c, ViewOf(s), e)
    ensures Elsewhere(c, s, e, Special(c, ViewOf(s), e))
  {
    hide CountAfter, HeadersAfter, HistoryAfter, Residents, Given;
  }

  lemma ServingElsewhere(c: Config, s: State, e: Step)
    requires e.Memory? && Legal(c, ViewOf(s), e)
    ensures Elsewhere(c, s, e, Special(c, ViewOf(s), e))
  {
    hide CountAfter, HeadersAfter, HistoryAfter, Residents, Given, ReplyTo;
  }

  /** All but the threads and the counters is as the view v has it. */
  predicate Elsewhere(c: Config, s: State, e: Step, v: View) {
    var s' := Apply(c, s, e);
    && ViewOf(s').q == v.q && s'.requests == v.requests && s'.replies == v.replies
    && s'.pid == v.pid && s'.loaded == v.loaded && s'.stuck == v.stuck
  }

  lemma SpecialElsewhere(c: Config, s: State, e: Step)
    requires IsSpecial(e) && Legal(c, ViewOf(s), e)
    ensures Elsewhere(c, s, e, Special(c, ViewOf(s), e))
  {
    hide Elsewhere, Special, Legal;
    if Loads(e) || Stores(e) { NumberingElsewhere(c, s, e); }
    else if Receives(e) { ReceivingElsewhere(c, s, e); }
    else if Sorts(e) { SortingElsewhere(c, s, e); }
    else { ServingElsewhere(c, s, e); }
  }

  lemma SpecialThreads(c: Config, v: View, e: Step)
    requires IsSpecial(e) && Legal(c, v, e)
    ensures Goto(v.t, ShapeOf(e)) == Special(c, v, e).t
  {
  }

  lemma SpecialCounters(c: Config, v: View, e: Step)
    requires IsSpecial(e) && Legal(c, v, e)
    ensures Count(v.n, ShapeOf(e)) == Special(c, v, e).n
  {
  }

  lemma TakeSpecial(c: Config, s: State, e: Step) returns (s': State)
    requires Reached(c, s) && Legal(c, ViewOf(s), e) && IsSpecial(e)
    ensures Reached(c, s') && ViewOf(s') == Special(c, ViewOf(s), e)
    ensures DeparturesOf(s') == DeparturesOf(s)
  {
    hide DeparturesOf, OfArrival, Legal, Apply, Guard, SendsTwice, Proceeds, Ticks, ShapeOf, Goto, Count, Reached,
         Startable, Special, IsSpecial;
    OthersDoNotTick(s, e);
    LegalIsEnabled(c, s, e);
    LegalArrives(c, ViewOf(s), e);
    DeparturesStay(c, s, e);
    s' := Take(c, s, e);
    ThreadsChange(c, s, e);
    CountersChange(c, s, e);
    SpecialElsewhere(c, s, e);
    SpecialThreads(c, ViewOf(s), e);
    SpecialCounters(c, ViewOf(s), e);
  }

  // ---- Steps of a departure -----------------------------------------------------------

  predicate NextIs(q: seq<Pcb>, op: Operation) {
    && q != [] && q[0].programCounter < |q[0].instructions|
    && var i := q[0].instructions[q[0].programCounter];
       OperationOf(i.id) == op && (op.Io? ==> |i.params| > 0)
  }

  /** The steps by which a process leaves the CPU for its exit, where they may be taken, and the PCB that moves. */
  predicate Departs(v: View, d: Departures, e: Step, moved: Pcb) {
    match e
    case Cpu(ExecuteExit) =>
      && v.t.handlers == Anywhere && v.n.interruption == 0 && NextIs(v.q.cpuRunning, Operation.Exit)
      && moved == Advanced(v.q.cpuRunning[0])
    case Return(HandleExit) =>
      d.listener == Listening && d.outbox != [] && moved == d.outbox[0] && d.headers != [] && d.headers[0] == ExitCall
    case Return(ExitGivesExit) => d.listener == ExitPostExit
    case Exit(TokenExit) => d.exit == AwaitExit && d.toExit > 0
    case Exit(PopExit) => d.exit == TakeExit && d.exitQ != [] && moved == d.exitQ[0]
    case Exit(SendExit) => d.exit == RequestExit && d.exitHand != [] && moved == d.exitHand[0]
    case Answer(HandleExitDone(i)) =>
      && i == 0 && v.t.memory == Waiting && d.memoryExitQ != [] && moved == d.memoryExitQ[0]
      && v.replies != [] && v.replies[0] == ExitReady(moved.pid)
    case Answer(ExitGivesCredit) => v.t.memory == PostExitCredit
    case _ => false
  }

  predicate DepartsByWaiting(e: Step) {
    e == Return(ExitGivesExit) || e == Step.Exit(TokenExit) || e == Answer(ExitGivesCredit)
  }

  lemma DepartsFromTheCpu(c: Config, s: State, e: Step, moved: Pcb)
    requires Departs(ViewOf(s), DeparturesOf(s), e, moved) && (e.Cpu? || e.Return?)
    ensures Enabled(c, s, e) && Proceeds(s, e) && !SendsTwice(s, e)
    ensures !DepartsByWaiting(e) ==> OneMoves(s, e) && Carried(c, s, e, At(s.at, ShapeOf(e).from)[0]) == moved
  {
  }

  lemma DepartsFromTheKernel(c: Config, s: State, e: Step, moved: Pcb)
    requires Departs(ViewOf(s), DeparturesOf(s), e, moved) && (e.Exit? || e.Answer?)
    ensures Enabled(c, s, e) && Proceeds(s, e) && !SendsTwice(s, e)
    ensures !DepartsByWaiting(e) ==> OneMoves(s, e) && Carried(c, s, e, At(s.at, ShapeOf(e).from)[0]) == moved
  {
  }

  lemma DepartsIsEnabled(c: Config, s: State, e: Step, moved: Pcb)
    requires Departs(ViewOf(s), DeparturesOf(s), e, moved)
    ensures Enabled(c, s, e) && Proceeds(s, e) && !SendsTwice(s, e)
    ensures !DepartsByWaiting(e) ==> OneMoves(s, e) && Carried(c, s, e, At(s.at, ShapeOf(e).from)[0]) == moved
  {
    hide Enabled, Proceeds, SendsTwice, OneMoves, Carried, ShapeOf, ViewOf, DeparturesOf, DepartsByWaiting;
    if e.Cpu? || e.Return? { DepartsFromTheCpu(c, s, e, moved); } else { DepartsFromTheKernel(c, s, e, moved); }
  }

  /** What these steps do to the view, */
  function DepartedView(v: View, e: Step, moved: Pcb): View {
    match e
    case Cpu(_) => v.(q := v.q.(cpuRunning := Rest(v.q.cpuRunning)))
    case Exit(SendExit) => v.(requests := v.requests + [ProcessExit(moved.pid, HandleOf(moved))])
    case Answer(HandleExitDone(_)) => v.(t := v.t.(memory := PostExitCredit), replies := Rest(v.replies))
    case Answer(ExitGivesCredit) => v.(t := v.t.(memory := Waiting), n := v.n.(multiprogram := v.n.multiprogram + 1))
    case _ => v
  }

  /** and to the departures. */
  function Departed(d: Departures, e: Step, moved: Pcb): Departures {
    match e
    case Cpu(_) => d.(outbox := d.outbox + [moved], headers := d.headers + [ExitCall])
    case Return(HandleExit) =>
      d.(listener := ExitPostExit, outbox := Rest(d.outbox), headers := Rest(d.headers), exitQ := d.exitQ + [moved])
    case Return(_) => d.(listener := ExitPostCpu, toExit := d.toExit + 1)
    case Exit(TokenExit) => d.(exit := TakeExit, toExit := Less(d.toExit))
    case Exit(PopExit) => d.(exit := RequestExit, exitQ := Rest(d.exitQ), exitHand := d.exitHand + [moved])
    case Exit(SendExit) => d.(exit := AwaitExit, exitHand := Rest(d.exitHand), memoryExitQ := d.memoryExitQ + [moved])
    case Answer(HandleExitDone(_)) => d.(memoryExitQ := Rest(d.memoryExitQ))
    case _ => d
  }

  lemma DepartedThreads(v: View, d: Departures, e: Step, moved: Pcb)
    requires Departs(v, d, e, moved) && v.t.handlers == Anywhere
    ensures Goto(v.t, ShapeOf(e)) == DepartedView(v, e, moved).t
  {
    hide NextIs, Advanced, Rest;
  }

  lemma DepartedCounters(v: View, d: Departures, e: Step, moved: Pcb)
    requires Departs(v, d, e, moved)
    ensures Count(v.n, ShapeOf(e)) == DepartedView(v, e, moved).n
  {
    hide NextIs, Advanced, Rest;
  }

  lemma ReturnedQueues(v: View, d: Departures, e: Step, moved: Pcb)
    requires Departs(v, d, e, moved) && (e.Cpu? || e.Return?)
    ensures ShiftAll(v.q, ShapeOf(e), moved) == DepartedView(v, e, moved).q
  {
    hide NextIs, Advanced, Rest;
  }

  lemma ExitedQueues(v: View, d: Departures, e: Step, moved: Pcb)
    requires Departs(v, d, e, moved) && e.Exit?
    ensures ShiftAll(v.q, ShapeOf(e), moved) == DepartedView(v, e, moved).q
  {
    hide NextIs, Advanced, Rest;
  }

  lemma AnsweredQueues(v: View, d: Departures, e: Step, moved: Pcb)
    requires Departs(v, d, e, moved) && e.Answer?
    ensures ShiftAll(v.q, ShapeOf(e), moved) == DepartedView(v, e, moved).q
  {
    hide NextIs, Advanced, Rest;
  }

  lemma DepartedQueues(v: View, d: Departures, e: Step, moved: Pcb)
    requires Departs(v, d, e, moved)
    ensures ShiftAll(v.q, ShapeOf(e), moved) == DepartedView(v, e, moved).q
  {
    hide ShapeOf, ShiftAll, DepartedView;
    if e.Cpu? || e.Return? { ReturnedQueues(v, d, e, moved); }
    else if e.Exit? { ExitedQueues(v, d, e, moved); }
    else { AnsweredQueues(v, d, e, moved); }
  }

  lemma DepartedMessages(c: Config, s: State, e: Step, moved: Pcb)
    requires Departs(ViewOf(s), DeparturesOf(s), e, moved)
    ensures var w, s' := DepartedView(ViewOf(s), e, moved), Apply(c, s, e);
            && s'.requests == w.requests && s'.replies == w.replies
            && s'.pid == w.pid && s'.loaded == w.loaded && s'.stuck == w.stuck
    ensures HeadersAfter(s, e) == Departed(DeparturesOf(s), e, moved).headers
  {
    hide PlacesAfter, CountAfter, HistoryAfter, Residents, Given;
  }

  lemma DepartedPlace(c: Config, s: State, e: Step, moved: Pcb, x: Place)
    requires Departs(ViewOf(s), DeparturesOf(s), e, moved) && x != Nowhere
    ensures At(Apply(c, s, e).at, x) == Shift(At(s.at, x), x, ShapeOf(e), moved)
  {
    hide ViewOf, DeparturesOf, Departs, Apply, OneMoves, Carried, Shift, Proceeds, SendsTwice, Enabled, ShapeOf,
         DepartsByWaiting;
    DepartsIsEnabled(c, s, e, moved);
    if DepartsByWaiting(e) { DepartsInPlace(c, s, e, moved, x); } else { PlaceChanges(c, s, e, x); }
  }

  lemma DepartsInPlace(c: Config, s: State, e: Step, moved: Pcb, x: Place)
    requires DepartsByWaiting(e) && x != Nowhere
    ensures At(Apply(c, s, e).at, x) == Shift(At(s.at, x), x, ShapeOf(e), moved)
  {
    hide CountAfter, HeadersAfter, HistoryAfter, Sent, RepliesAfter, Residents, Given;
  }

  lemma DepartedAll(c: Config, s: State, e: Step, moved: Pcb)
    requires Departs(ViewOf(s), DeparturesOf(s), e, moved)
    ensures ViewOf(Apply(c, s, e)).q == ShiftAll(ViewOf(s).q, ShapeOf(e), moved)
  {
    hide ShapeOf, Apply, Departs, Shift, N, PointOf, DeparturesOf;
    DepartedPlace(c, s, e, moved, NewQ); DepartedPlace(c, s, e, moved, SuspendedReadyQ);
    DepartedPlace(c, s, e, moved, AdmittingHand); DepartedPlace(c, s, e, moved, MemoryInitQ);
    DepartedPlace(c, s, e, moved, ToReadyHand); DepartedPlace(c, s, e, moved, ReadyQ);
    DepartedPlace(c, s, e, moved, CpuInbox); DepartedPlace(c, s, e, moved, CpuRunning);
  }

  /** The departures after a step, as its shape has it. */
  function Passed(d: Departures, h: Shape, moved: Pcb, headers: seq<CpuHeader>): Departures {
    Departures(if h.thread == DispatchListener then h.next else d.listener,
               if h.thread == ExitProcess then h.next else d.exit,
               Change(d.toExit, ToExit, h), Shift(d.outbox, CpuOutbox, h, moved), Shift(d.exitQ, ExitQ, h, moved),
               Shift(d.exitHand, ExitHand, h, moved), Shift(d.memoryExitQ, MemoryExitQ, h, moved), headers)
  }

  lemma PassedAsSaid(v: View, d: Departures, e: Step, moved: Pcb)
    requires Departs(v, d, e, moved)
    ensures Passed(d, ShapeOf(e), moved, Departed(d, e, moved).headers) == Departed(d, e, moved)
  {
    hide NextIs, Advanced, Rest;
  }

  lemma DeparturesChange(c: Config, s: State, e: Step, moved: Pcb)
    requires Departs(ViewOf(s), DeparturesOf(s), e, moved) && Startable(s, e)
    ensures DeparturesOf(Apply(c, s, e)) == Passed(DeparturesOf(s), ShapeOf(e), moved, HeadersAfter(s, e))
  {
    hide ShapeOf, PlacesAfter, CountAfter, HeadersAfter, HistoryAfter, Sent, RepliesAfter, Residents, Given, Departs,
         Shift, N, PointOf, ViewOf, Startable, Change;
    PointsAndCounters(c, s, e);
    CounterChanges(c, s, e, ToExit);
    DepartedPlace(c, s, e, moved, CpuOutbox); DepartedPlace(c, s, e, moved, ExitQ);
    DepartedPlace(c, s, e, moved, ExitHand); DepartedPlace(c, s, e, moved, MemoryExitQ);
  }

  lemma TakeDeparture(c: Config, s: State, e: Step, moved: Pcb) returns (s': State)
    requires Reached(c, s) && ViewOf(s).t.handlers == Anywhere && Departs(ViewOf(s), DeparturesOf(s), e, moved)
    ensures Reached(c, s')
    ensures ViewOf(s') == DepartedView(ViewOf(s), e, moved) && DeparturesOf(s') == Departed(DeparturesOf(s), e, moved)
  {
    hide DeparturesOf, Departs, Departed, DepartedView, Passed, Apply, Guard, SendsTwice, Proceeds, ShapeOf, Goto,
         Count, ShiftAll, Reached, Startable, OneMoves, Carried, HeadersAfter;
    var v, d := ViewOf(s), DeparturesOf(s);
    DepartsIsEnabled(c, s, e, moved);
    s' := Take(c, s, e);
    ThreadsChange(c, s, e);
    CountersChange(c, s, e);
    DepartedAll(c, s, e, moved);
    DepartedMessages(c, s, e, moved);
    DepartedThreads(v, d, e, moved);
    DepartedCounters(v, d, e, moved);
    DepartedQueues(v, d, e, moved);
    DeparturesChange(c, s, e, moved);
    PassedAsSaid(v, d, e, moved);
  }

  // ---- The run ------------------------------------------------------------------------

  /** to_ready waits for a process, memory is idle, and nobody is being admitted. */
  predicate Quiet(v: View) {
    && v.t.handlers == Anywhere && v.t.toReady == AwaitAny && v.t.memory == Waiting
    && v.loaded == [] && v.n.numbered == 0 && v.n.received == 0 && v.n.anyForReady == 0 && v.n.tableReady == 0
    && v.n.mutexFree == 1
    && v.q.newQ == [] && v.q.suspendedReadyQ == [] && v.q.admitting == [] && v.q.memoryInitQ == [] && v.q.hand == []
    && v.requests == [] && v.replies == [] && !v.stuck
  }

  predicate Vacant(d: Departures) { d == Departures(Listening, AwaitExit, 0, [], [], [], [], []) }

  function NewPcb(c: Config, pid: nat, instructions: seq<Instruction>): Pcb {
    Pcb(pid, 0, 1, instructions, 0, 0, 0, c.initialEstimate, c.initialEstimate, 0, 0)
  }

  /** A process arrives, */
  lemma Arrived(c: Config, s: State, instructions: seq<Instruction>) returns (s': State)
    requires Reached(c, s) && Quiet(ViewOf(s))
    ensures Reached(c, s') && DeparturesOf(s') == DeparturesOf(s)
    ensures var v := ViewOf(s);
            ViewOf(s') ==
              v.(t := v.t.(toReady := AwaitCredit), q := v.q.(newQ := [NewPcb(c, v.pid + 1, instructions)]),
                 pid := v.pid + 1)
  {
    hide Reached, DeparturesOf, ViewOf;
    s' := TakeSpecial(c, s, Console(LoadPid));
    s' := TakeSpecial(c, s', Console(StorePid(0)));
    s' := TakeSpecial(c, s', Console(Receive(0, 1, instructions)));
    s' := TakeWait(c, s', Console(ReceivePost));
    s' := TakeWait(c, s', Admit(TokenAny));
  }

  /** to_ready picks it, */
  lemma Picked(c: Config, s: State) returns (s': State)
    requires Reached(c, s) && ViewOf(s).t.handlers == Anywhere && ViewOf(s).t.toReady == AwaitCredit
    requires ViewOf(s).n.multiprogram > 0 && ViewOf(s).q.suspendedReadyQ == [] && ViewOf(s).q.newQ != []
    ensures Reached(c, s') && DeparturesOf(s') == DeparturesOf(s)
    ensures var v := ViewOf(s);
            ViewOf(s') == v.(t := v.t.(toReady := TakeNew), n := v.n.(multiprogram := v.n.multiprogram - 1))
  {
    hide Reached, DeparturesOf, ViewOf;
    s' := TakeWait(c, s, Admit(TokenCredit));
    s' := TakeWait(c, s', Admit(SeeNoSuspended));
    s' := TakeWait(c, s', Admit(SeeNew));
  }

  /** asks memory for it, */
  lemma AskedFor(c: Config, s: State, p: Pcb) returns (s': State)
    requires Reached(c, s) && ViewOf(s).t.handlers == Anywhere && ViewOf(s).t.toReady == TakeNew
    requires ViewOf(s).q.newQ == [p] && ViewOf(s).q.admitting == [] && ViewOf(s).q.memoryInitQ == []
    requires ViewOf(s).requests == []
    ensures Reached(c, s') && DeparturesOf(s') == DeparturesOf(s)
    ensures var v := ViewOf(s);
            ViewOf(s') ==
              v.(t := v.t.(toReady := AwaitTables), q := v.q.(newQ := [], memoryInitQ := [p]),
                 requests := [ProcessNew(p.pid, p.size)])
  {
    hide Reached, DeparturesOf, ViewOf;
    s' := TakeMove(c, s, Admit(PopNew), p);
    s' := TakeMove(c, s', Admit(SendNew), p);
  }

  /** is answered, */
  lemma IsAnswered(c: Config, s: State, p: Pcb) returns (s': State)
    requires Reached(c, s) && ViewOf(s).t.handlers == Anywhere && ViewOf(s).t.memory == Waiting
    requires ViewOf(s).q.memoryInitQ == [p]
    requires ViewOf(s).requests == [ProcessNew(p.pid, p.size)] && ViewOf(s).replies == [] && ViewOf(s).q.hand == []
    requires p.pageTable == p.framesIndex == 0
    ensures Reached(c, s') && DeparturesOf(s') == DeparturesOf(s)
    ensures var v := ViewOf(s);
            ViewOf(s') ==
              v.(n := v.n.(tableReady := v.n.tableReady + 1), q := v.q.(memoryInitQ := [], hand := [p]),
                 requests := [])
  {
    hide Reached, DeparturesOf, ViewOf;
    s' := TakeSpecial(c, s, Memory(Handle(0, 0)));
    s' := TakeMove(c, s', Answer(HandleTables), p);
    s' := TakeWait(c, s', Answer(TablesGiven));
  }

  /** and puts it into ready_q. */
  lemma Enqueued(c: Config, s: State, p: Pcb) returns (s': State)
    requires c.srt && Reached(c, s) && ViewOf(s).t.handlers == Anywhere && ViewOf(s).t.toReady == AwaitTables
    requires ViewOf(s).n.tableReady > 0 && ViewOf(s).n.mutexFree == 1 && ViewOf(s).q.hand == [p]
    ensures Reached(c, s') && DeparturesOf(s') == DeparturesOf(s)
    ensures var v := ViewOf(s);
            ViewOf(s') ==
              v.(t := v.t.(toReady := Check(ToReady)), n := v.n.(tableReady := v.n.tableReady - 1, mutexFree := 0),
                 q := v.q.(hand := [], readyQ := v.q.readyQ + [p]))
  {
    hide Reached, DeparturesOf, ViewOf;
    s' := TakeWait(c, s, Admit(TokenTables));
    s' := TakeMove(c, s', PutToReady(ToReady, EnqueueSrt), p);
  }

  lemma Requested(c: Config, s: State, instructions: seq<Instruction>) returns (s': State)
    requires Reached(c, s) && Quiet(ViewOf(s)) && ViewOf(s).n.multiprogram > 0
    ensures Reached(c, s') && DeparturesOf(s') == DeparturesOf(s)
    ensures var v := ViewOf(s);
            var p := NewPcb(c, v.pid + 1, instructions);
            ViewOf(s') == v.(t := v.t.(toReady := AwaitTables), n := v.n.(multiprogram := v.n.multiprogram - 1),
                             q := v.q.(memoryInitQ := [p]), requests := [ProcessNew(p.pid, p.size)], pid := v.pid + 1)
  {
    hide Reached, DeparturesOf, ViewOf, NewPcb;
    var p := NewPcb(c, ViewOf(s).pid + 1, instructions);
    s' := Arrived(c, s, instructions);
    s' := Picked(c, s');
    s' := AskedFor(c, s', p);
  }

  lemma NewPcbHasNoTables(c: Config, pid: nat, instructions: seq<Instruction>)
    ensures var p := NewPcb(c, pid, instructions); p.pageTable == p.framesIndex == 0
  {
  }

  lemma QuietMemory(v: View)
    requires Quiet(v)
    ensures v.t.handlers == Anywhere && v.t.memory == Waiting && v.requests == [] && v.replies == []
    ensures v.q.memoryInitQ == [] && v.q.hand == [] && v.n.tableReady == 0
  {
  }

  lemma Tabled(c: Config, s: State, instructions: seq<Instruction>) returns (s': State)
    requires Reached(c, s) && Quiet(ViewOf(s)) && ViewOf(s).n.multiprogram > 0
    ensures Reached(c, s') && DeparturesOf(s') == DeparturesOf(s)
    ensures var v := ViewOf(s);
            ViewOf(s') ==
              v.(t := v.t.(toReady := AwaitTables),
                 n := v.n.(multiprogram := v.n.multiprogram - 1, tableReady := 1),
                 q := v.q.(hand := [NewPcb(c, v.pid + 1, instructions)]), pid := v.pid + 1)
  {
    hide Reached, DeparturesOf, ViewOf, NewPcb, Quiet;
    QuietMemory(ViewOf(s));
    NewPcbHasNoTables(c, ViewOf(s).pid + 1, instructions);
    s' := Requested(c, s, instructions);
    s' := IsAnswered(c, s', NewPcb(c, ViewOf(s).pid + 1, instructions));
  }

  lemma Readied(c: Config, s: State, instructions: seq<Instruction>) returns (s': State)
    requires c.srt && Reached(c, s) && Quiet(ViewOf(s)) && ViewOf(s).n.multiprogram > 0
    ensures Reached(c, s') && DeparturesOf(s') == DeparturesOf(s)
    ensures var v := ViewOf(s);
            ViewOf(s') ==
              v.(t := v.t.(toReady := Check(ToReady)),
                 n := v.n.(multiprogram := v.n.multiprogram - 1, mutexFree := 0),
                 q := v.q.(readyQ := v.q.readyQ + [NewPcb(c, v.pid + 1, instructions)]), pid := v.pid + 1)
  {
    hide Reached, DeparturesOf, ViewOf, NewPcb;
    s' := Tabled(c, s, instructions);
    s' := Enqueued(c, s', NewPcb(c, ViewOf(s).pid + 1, instructions));
  }

  /** The CPU is free: put_to_ready sorts ready_q */
  lemma SortedInPut(c: Config, s: State) returns (s': State)
    requires Reached(c, s) && ViewOf(s).t.handlers == Anywhere && ViewOf(s).t.toReady == Check(ToReady)
    requires ViewOf(s).n.cpuFree > 0 && |ViewOf(s).q.readyQ| == 1
    ensures Reached(c, s') && DeparturesOf(s') == DeparturesOf(s)
    ensures var v := ViewOf(s);
            ViewOf(s') == v.(t := v.t.(toReady := Post(ToReady)), n := v.n.(mutexFree := v.n.mutexFree + 1))
  {
    hide Reached, DeparturesOf, ViewOf;
    s' := TakeWait(c, s, PutToReady(ToReady, CheckIdle));
    s' := TakeSpecial(c, s', PutToReady(ToReady, SortReady(ViewOf(s).q.readyQ)));
  }

  /** and ends, */
  lemma PutDone(c: Config, s: State) returns (s': State)
    requires Reached(c, s) && ViewOf(s).t.handlers == Anywhere && ViewOf(s).t.toReady == Check(ToReady)
    requires ViewOf(s).n.cpuFree > 0 && |ViewOf(s).q.readyQ| == 1
    ensures Reached(c, s') && DeparturesOf(s') == DeparturesOf(s)
    ensures var v := ViewOf(s);
            ViewOf(s') ==
              v.(t := v.t.(toReady := AwaitAny),
                 n := v.n.(mutexFree := v.n.mutexFree + 1, readyForExec := v.n.readyForExec + 1))
  {
    hide Reached, DeparturesOf, ViewOf;
    s' := SortedInPut(c, s);
    s' := TakeWait(c, s', PutToReady(ToReady, PostReady));
  }

  /** Under FIFO put_to_ready has nothing to ask. */
  lemma PutUnderFifo(c: Config, s: State, p: Pcb) returns (s': State)
    requires !c.srt && Reached(c, s) && ViewOf(s).t.handlers == Anywhere && ViewOf(s).t.toReady == AwaitTables
    requires ViewOf(s).n.tableReady > 0 && ViewOf(s).n.mutexFree == 1 && ViewOf(s).q.hand == [p]
    ensures Reached(c, s') && DeparturesOf(s') == DeparturesOf(s)
    ensures var v := ViewOf(s);
            ViewOf(s') == v.(t := v.t.(toReady := AwaitAny),
                             n := v.n.(tableReady := v.n.tableReady - 1, readyForExec := v.n.readyForExec + 1),
                             q := v.q.(hand := [], readyQ := v.q.readyQ + [p]))
  {
    hide Reached, DeparturesOf, ViewOf;
    s' := TakeWait(c, s, Admit(TokenTables));
    s' := TakeMove(c, s', PutToReady(ToReady, EnqueueFifo), p);
    s' := TakeWait(c, s', PutToReady(ToReady, PostReady));
  }

  /** to_exec gets its tokens, */
  lemma MayDispatch(c: Config, s: State) returns (s': State)
    requires Reached(c, s) && ViewOf(s).t.handlers == Anywhere && ViewOf(s).t.toExec == AwaitReady
    requires ViewOf(s).n.cpuFree > 0 && ViewOf(s).n.readyForExec > 0
    ensures Reached(c, s') && DeparturesOf(s') == DeparturesOf(s)
    ensures var v := ViewOf(s);
            ViewOf(s') ==
              v.(t := v.t.(toExec := Dispatch),
                 n := v.n.(readyForExec := v.n.readyForExec - 1, cpuFree := v.n.cpuFree - 1))
  {
    hide Reached, DeparturesOf, ViewOf;
    s' := TakeWait(c, s, Exec(TokenReady));
    s' := TakeWait(c, s', Exec(TokenCpu));
  }

  /** A first process is the only one in ready_q. */
  predicate IsFirst(c: Config, v: View, p: Pcb) {
    && Quiet(v) && v.t.toExec == AwaitReady && v.n.readyForExec == 1 && v.n.cpuFree == 1 && v.n.interruption == 0
    && v.n.multiprogram == c.multiprogrammingLevel - 1 && v.q.readyQ == [p] && v.q.cpuInbox == []
    && v.q.cpuRunning == []
  }

  lemma FirstUnderSrt(c: Config, instructions: seq<Instruction>) returns (s: State)
    requires c.multiprogrammingLevel > 0 && c.srt
    ensures Reached(c, s) && Vacant(DeparturesOf(s)) && IsFirst(c, ViewOf(s), NewPcb(c, 1, instructions))
  {
    hide Reached, DeparturesOf, Initial, ViewOf, NewPcb, Vacant;
    ReachedInitially(c);
    s := Readied(c, Initial(c), instructions);
    s := PutDone(c, s);
  }

  lemma FirstUnderFifo(c: Config, instructions: seq<Instruction>) returns (s: State)
    requires c.multiprogrammingLevel > 0 && !c.srt
    ensures Reached(c, s) && Vacant(DeparturesOf(s)) && IsFirst(c, ViewOf(s), NewPcb(c, 1, instructions))
  {
    hide Reached, DeparturesOf, Initial, ViewOf, NewPcb, Vacant;
    ReachedInitially(c);
    s := Tabled(c, Initial(c), instructions);
    s := PutUnderFifo(c, s, NewPcb(c, 1, instructions));
  }

  /** A first process comes as far as the dispatch, under either algorithm. */
  lemma FirstToDispatch(c: Config, instructions: seq<Instruction>) returns (s: State)
    requires c.multiprogrammingLevel > 0
    ensures Reached(c, s) && Vacant(DeparturesOf(s)) && Quiet(ViewOf(s))
    ensures var v := ViewOf(s);
            && v.t.toExec == Dispatch && v.n.cpuFree == 0 && v.n.interruption == 0
            && v.n.multiprogram == c.multiprogrammingLevel - 1
            && v.q.readyQ == [NewPcb(c, 1, instructions)] && v.q.cpuInbox == [] && v.q.cpuRunning == []
  {
    hide Reached, DeparturesOf, ViewOf, NewPcb, Vacant;
    if c.srt { s := FirstUnderSrt(c, instructions); } else { s := FirstUnderFifo(c, instructions); }
    s := MayDispatch(c, s);
  }

  /** the CPU gets the process, */
  lemma SentToCpu(c: Config, s: State, p: Pcb) returns (s': State)
    requires Reached(c, s) && ViewOf(s).t.handlers == Anywhere && ViewOf(s).t.toExec == Dispatch
    requires ViewOf(s).n.mutexFree > 0
    requires ViewOf(s).q.readyQ == [p] && ViewOf(s).q.cpuInbox == [] && ViewOf(s).q.cpuRunning == [] && !ViewOf(s).stuck
    ensures Reached(c, s') && DeparturesOf(s') == DeparturesOf(s)
    ensures var v := ViewOf(s);
            ViewOf(s') == v.(t := v.t.(toExec := Timing), n := v.n.(mutexFree := v.n.mutexFree - 1),
                             q := v.q.(readyQ := [], cpuRunning := [p]))
  {
    hide Reached, DeparturesOf, ViewOf;
    s' := TakeMove(c, s, Exec(DispatchHead(s.toExecTime + 1)), p);
    s' := TakeMove(c, s', Cpu(CpuReceive), p);
  }

  /** and to_exec reads the clock. */
  lemma Dispatched(c: Config, s: State, p: Pcb) returns (s': State)
    requires Reached(c, s) && ViewOf(s).t.handlers == Anywhere && ViewOf(s).t.toExec == Dispatch
    requires ViewOf(s).n.mutexFree > 0
    requires ViewOf(s).q.readyQ == [p] && ViewOf(s).q.cpuInbox == [] && ViewOf(s).q.cpuRunning == [] && !ViewOf(s).stuck
    ensures Reached(c, s') && DeparturesOf(s') == DeparturesOf(s)
    ensures var v := ViewOf(s);
            ViewOf(s') == v.(t := v.t.(toExec := AwaitReady), q := v.q.(readyQ := [], cpuRunning := [p]))
  {
    hide Reached, DeparturesOf, ViewOf;
    s' := SentToCpu(c, s, p);
    s' := TakeWait(c, s', Exec(ReadTime(0)));
  }

  /** The CPU is busy: put_to_ready sends it an interruption, */
  lemma InterruptionSent(c: Config, s: State) returns (s': State)
    requires Reached(c, s) && ViewOf(s).t.handlers == Anywhere && ViewOf(s).t.toReady == Check(ToReady)
    requires ViewOf(s).n.cpuFree == 0
    ensures Reached(c, s') && DeparturesOf(s') == DeparturesOf(s)
    ensures var v := ViewOf(s);
            ViewOf(s') ==
              v.(t := v.t.(toReady := AwaitInterrupt(ToReady)), n := v.n.(interruptWire := v.n.interruptWire + 1))
  {
    hide Reached, DeparturesOf, ViewOf;
    s' := TakeWait(c, s, PutToReady(ToReady, CheckBusy));
  }

  /** and the CPU notices. */
  lemma Interrupted(c: Config, s: State) returns (s': State)
    requires Reached(c, s) && ViewOf(s).t.handlers == Anywhere && ViewOf(s).t.toReady == Check(ToReady)
    requires ViewOf(s).n.cpuFree == 0 && ViewOf(s).n.interruption == 0
    ensures Reached(c, s') && ViewOf(s').n.interruption == 1 && ViewOf(s').q == ViewOf(s).q
    ensures ViewOf(s').t.handlers == Anywhere
  {
    hide Reached, DeparturesOf, ViewOf;
    s' := InterruptionSent(c, s);
    s' := TakeWait(c, s', Cpu(CpuInterrupted));
  }

  lemma ReachedInitially(c: Config)
    ensures Reached(c, Initial(c)) && Quiet(ViewOf(Initial(c))) && Vacant(DeparturesOf(Initial(c)))
    ensures var v := ViewOf(Initial(c));
            && v.n == Counters(0, 0, 0, c.multiprogrammingLevel, 0, 1, 0, 1, 0, 0) && v.t.toExec == AwaitReady
            && v.q.readyQ == [] && v.q.cpuInbox == [] && v.q.cpuRunning == [] && v.pid == 0
  {
    InitialView(c);
    InitialDepartures(c);
    hide ViewOf, DeparturesOf, Initial;
    assert Regular(c, Initial(c), []) && After(c, Initial(c), []) == Initial(c);
  }

  lemma InitialView(c: Config)
    ensures var v := ViewOf(Initial(c));
            && Quiet(v)
            && v.n == Counters(0, 0, 0, c.multiprogrammingLevel, 0, 1, 0, 1, 0, 0) && v.t.toExec == AwaitReady
            && v.q.readyQ == [] && v.q.cpuInbox == [] && v.q.cpuRunning == [] && v.pid == 0
  {
  }

  lemma InitialDepartures(c: Config)
    ensures Vacant(DeparturesOf(Initial(c)))
  {
  }

  lemma IsAsSeen(s: State)
    ensures var v := ViewOf(s);
            && v.t.handlers == PointOf(s, Handlers) && v.t.toReady == PointOf(s, ToReady)
            && v.t.toExec == PointOf(s, ToExec)
            && v.n.interruptWire == N(s, InterruptWire) && v.n.interruption == N(s, Interruption)
            && v.q.cpuInbox == At(s.at, CpuInbox) && v.q.cpuRunning == At(s.at, CpuRunning)
  {
  }

  // ---- Programs -----------------------------------------------------------------------

  function IoProgram(): seq<Instruction> { [Instruction(Ascii("I/O"), [5])] }

  function ExitProgram(): seq<Instruction> { [Instruction(Ascii("EXIT"), [])] }

  lemma IoStarts(c: Config)
    ensures NextIs([NewPcb(c, 1, IoProgram())], Operation.Io)
  {
    assert |Ascii("NO_OP")| == 5 && |Ascii("I/O")| == 3;
  }

  lemma ExitStarts(c: Config)
    ensures NextIs([NewPcb(c, 1, ExitProgram())], Operation.Exit)
  {
    assert |Ascii("NO_OP")| == 5 && |Ascii("I/O")| == 3 && |Ascii("READ")| == 4 && |Ascii("EXIT")| == 4;
    assert |Ascii("WRITE")| == 5 && |Ascii("COPY")| == 4;
    assert Ascii("EXIT")[0] == 69 && Ascii("READ")[0] == 82 && Ascii("COPY")[0] == 67;
  }

  // ---- A process leaves ---------------------------------------------------------------

  /** The process on the CPU exits, the kernel has it */
  lemma Exited(c: Config, s: State, p: Pcb) returns (s': State)
    requires Reached(c, s) && ViewOf(s).t.handlers == Anywhere && ViewOf(s).n.interruption == 0
    requires Vacant(DeparturesOf(s))
    requires ViewOf(s).q.cpuRunning == [p] && NextIs([p], Operation.Exit)
    ensures Reached(c, s') && ViewOf(s') == ViewOf(s).(q := ViewOf(s).q.(cpuRunning := []))
    ensures DeparturesOf(s') == Departures(ExitPostCpu, AwaitExit, 1, [], [Advanced(p)], [], [], [])
  {
    hide Reached, ViewOf, DeparturesOf, NextIs, Advanced;
    s' := TakeDeparture(c, s, Cpu(ExecuteExit), Advanced(p));
    s' := TakeDeparture(c, s', Return(HandleExit), Advanced(p));
    s' := TakeDeparture(c, s', Return(ExitGivesExit), p);
  }

  /** and tells memory, */
  lemma ExitRequested(c: Config, s: State, p: Pcb) returns (s': State)
    requires Reached(c, s) && ViewOf(s).t.handlers == Anywhere
    requires DeparturesOf(s) == Departures(ExitPostCpu, AwaitExit, 1, [], [p], [], [], [])
    ensures Reached(c, s')
    ensures ViewOf(s') == ViewOf(s).(requests := ViewOf(s).requests + [ProcessExit(p.pid, HandleOf(p))])
    ensures DeparturesOf(s') == Departures(ExitPostCpu, AwaitExit, 0, [], [], [], [p], [])
  {
    hide Reached, ViewOf, DeparturesOf;
    s' := TakeDeparture(c, s, Step.Exit(TokenExit), p);
    s' := TakeDeparture(c, s', Step.Exit(PopExit), p);
    s' := TakeDeparture(c, s', Step.Exit(SendExit), p);
  }

  /** which answers; its credit is given back. */
  lemma ExitAnswered(c: Config, s: State, p: Pcb) returns (s': State)
    requires Reached(c, s) && ViewOf(s).t.handlers == Anywhere && ViewOf(s).t.memory == Waiting
    requires ViewOf(s).requests == [ProcessExit(p.pid, HandleOf(p))] && ViewOf(s).replies == []
    requires DeparturesOf(s) == Departures(ExitPostCpu, AwaitExit, 0, [], [], [], [p], [])
    ensures Reached(c, s')
    ensures ViewOf(s') == ViewOf(s).(requests := [], n := ViewOf(s).n.(multiprogram := ViewOf(s).n.multiprogram + 1))
    ensures DeparturesOf(s') == Departures(ExitPostCpu, AwaitExit, 0, [], [], [], [], [])
  {
    hide Reached, ViewOf, DeparturesOf;
    s' := TakeSpecial(c, s, Memory(Handle(0, 0)));
    s' := TakeDeparture(c, s', Answer(HandleExitDone(0)), p);
    s' := TakeDeparture(c, s', Answer(ExitGivesCredit), p);
  }

  /** All that while the dispatch listener has not given back cpu_free. */
  lemma Gone(c: Config, s: State, p: Pcb) returns (s': State)
    requires Reached(c, s) && ViewOf(s).t.handlers == Anywhere && ViewOf(s).n.interruption == 0
    requires Vacant(DeparturesOf(s))
    requires ViewOf(s).t.memory == Waiting && ViewOf(s).requests == [] && ViewOf(s).replies == []
    requires ViewOf(s).q.cpuRunning == [p] && NextIs([p], Operation.Exit)
    ensures Reached(c, s')
    ensures var v := ViewOf(s);
            ViewOf(s') == v.(n := v.n.(multiprogram := v.n.multiprogram + 1), q := v.q.(cpuRunning := []))
  {
    hide Reached, ViewOf, DeparturesOf, NextIs, Advanced;
    s' := Exited(c, s, p);
    s' := ExitRequested(c, s', Advanced(p));
    s' := ExitAnswered(c, s', Advanced(p));
  }
}
