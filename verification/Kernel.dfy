/** The scheduler of kernel/src/kernel.c, with the CPU loop and the memory server it talks to, as a transition
    system. A step is one semaphore operation, one queue operation or one critical section of one thread. Every
    step has a shape: the program point it leaves and reaches, the counter it waits on and the one it posts, and
    the place a PCB leaves and the place it enters. */
module Kernel {
  import opened Processes

  datatype Config = Config(
    srt: bool,                   // ALGORITMO_PLANIFICACION is SRT
    multiprogrammingLevel: nat,
    maxBlockedTime: int,
    initialEstimate: nat,
    alpha: real)

  // ---- Where a PCB can be, what is counted, where a thread can stand ------------------

  /** The kernel's queues, the local variables that hold a PCB between two steps, and the CPU. */
  datatype Place =
    | NewQ | ReadyQ | MemoryInitQ | MemoryExitQ | BlockedQ | SuspendedBlockedQ | SuspendedReadyQ | ExitQ
    | Finished                   // exit acknowledged to the console
    | AdmittingHand              // new_to_ready, before memory is asked for frames
    | ResumingHand               // suspended_to_ready, before memory is asked for frames
    | ToReadyHand                // to_ready, afterwards
    | IoHand                     // io_listener, the process still in memory
    | SuspendingHand             // io_listener, suspension requested
    | SleepingHand               // io_listener, I/O of a suspended process
    | ExitHand                   // exit_process
    | CpuInbox | CpuRunning | CpuOutbox
    | Nowhere

  /** The semaphores of kernel.c:20-29, and five more counters: receive_process handlers that have stored pid and
      not yet read it back, those that have queued and not yet posted, execution_mutex when free, interrupts sent, and
      new_interruption. */
  datatype Counter =
    | Multiprogram | CpuFree | InterruptReady | ProcessForIo | AnyForReady | ReadyForExec | TableReady | ToExit
    | SuspensionDone | Numbered | Received | MutexFree | InterruptWire | Interruption
    | Nothing

  datatype Thread = Handlers | ToReady | IoListener | ToExec | ExitProcess | DispatchListener | MemoryListener

  datatype Point =
    | Anywhere
    // to_ready, kernel.c:341-385 and 430-448
    | AwaitAny | AwaitCredit | ChooseQueue | TakeSuspended | CheckNew | TakeNew
    | RequestTables | AwaitTables | RequestResume
    // put_to_ready, kernel.c:387-428, as called by to_ready or by io_listener
    | Enqueue(t: Thread) | Check(t: Thread) | AwaitInterrupt(t: Thread) | Sort(t: Thread) | Post(t: Thread)
    // io_listener, kernel.c:118-232
    | AwaitIo | CheckBlocked | TakeBlocked | TakeSuspendedBlocked | RequestSuspension | AwaitSuspension
    | EnterSuspended | PostCredit | PostIo | SleepSuspended | PostAny
    // to_exec, kernel.c:303-339
    | AwaitReady | AwaitCpu | Dispatch | Timing
    // exit_process, kernel.c:274-301
    | AwaitExit | TakeExit | RequestExit
    // io_op, exit_op and handle_interruption, kernel.c:534-622
    | Listening | IoPostCpu | IoPostIo | ExitPostExit | ExitPostCpu
    | PreemptPostReady | PreemptPostCpu | PreemptPostDone
    // table_index_success, suspension_success and exit_process_success, kernel.c:450-532
    | Waiting | PostTables | PostExitCredit

  datatype CpuHeader = IoCall | ExitCall | InterruptDispatch

  datatype Request =
    | ProcessNew(pid: nat, size: nat)
    | ProcessResume(pid: nat, handle: Handle)
    | ProcessSuspend(pid: nat, handle: Handle)
    | ProcessExit(pid: nat, handle: Handle)

  datatype Reply = MemoryReady(pid: nat, handle: Handle) | SuspensionReady | ExitReady(pid: nat)

  /** What a console gives with a program: the size of the process, and the socket to answer on. */
  datatype Origin = Origin(size: nat, socket: nat)

  /** What no variable of the program holds: the program each pid came with, the instructions executed for it,
      when it was last dispatched, the CPU time its current burst had used up to then, who was dispatched last, when
      each pid's last I/O call was handled, when io_listener has taken it for a suspension since, and what its console
      gave. */
  datatype History = History(
    program: map<nat, seq<Instruction>>,
    executed: map<nat, seq<Instruction>>,
    dispatched: map<nat, int>,
    burst: map<nat, int>,
    last: nat,
    blocked: map<nat, int>,
    taken: map<nat, int>,
    origin: map<nat, Origin>)

  type Places = map<Place, seq<Pcb>>

  datatype State = State(
    pid: nat,                    // the global that receive_process increments, and then reads back
    loaded: seq<nat>,            // what handlers have loaded from it to increment it
    at: Places,
    count: map<Counter, nat>,
    point: map<Thread, Point>,
    headers: seq<CpuHeader>,     // of the packets in CpuOutbox
    stuck: bool,                 // the CPU thread is blocked for ever on cpu_bussy
    requests: seq<Request>,      // sent to memory, in order
    replies: seq<Reply>,
    resident: set<nat>,          // the pids that hold frames
    given: map<nat, Handle>,     // the indexes memory has answered with, for the pids it knows
    toExecTime: int,
    history: History)

  function At(at: Places, x: Place): seq<Pcb> { if x in at then at[x] else [] }

  function Rest<T>(q: seq<T>): seq<T> { if |q| > 0 then q[1..] else [] }

  /** The PCB at position i of a place; nobody's has pid 0. */
  function PcbAt(at: Places, x: Place, i: nat): Pcb {
    if i < |At(at, x)| then At(at, x)[i] else Pcb(0, 0, 0, [], 0, 0, 0, 0, 0, 0, 0)
  }

  function PidAt(at: Places, x: Place, i: nat): nat { PcbAt(at, x, i).pid }

  function N(s: State, x: Counter): nat { if x in s.count then s.count[x] else 0 }

  function PointOf(s: State, t: Thread): Point { if t in s.point then s.point[t] else Anywhere }

  /** kernel.c:10-31; waiting_for_suspension starts at 1. */
  function Initial(c: Config): State {
    State(0, [], map[],
          map[Multiprogram := c.multiprogrammingLevel, CpuFree := 1, SuspensionDone := 1, MutexFree := 1],
          map[ToReady := AwaitAny, IoListener := AwaitIo, ToExec := AwaitReady, ExitProcess := AwaitExit,
              DispatchListener := Listening, MemoryListener := Waiting],
          [], false, [], [], {}, map[], 0, History(map[], map[], map[], map[], 0, map[], map[], map[]))
  }

  // ---- Steps, by the thread that takes them -------------------------------------------

  /** The load and the store of the increment of kernel.c:251, kernel.c:252-258, which reads pid back, and
      kernel.c:264. Every console has a handler of its own, so the steps of several handlers interleave. */
  datatype ReceiveStep =
    | LoadPid | StorePid(handler: nat) | Receive(size: nat, socket: nat, instructions: seq<Instruction>) | ReceivePost

  datatype AdmitStep =
    | TokenAny | TokenCredit | SeeSuspended | SeeNoSuspended | SeeNew | SeeNothing
    | PopSuspendedReady | SendResume | PopNew | SendNew | TokenTables

  datatype PutStep =
    | EnqueueSrt | EnqueueFifo | CheckBusy | CheckIdle | TokenInterrupt | SortReady(sorted: seq<Pcb>) | PostReady

  datatype IoStep =
    | TokenIo | SeeBlocked | SeeNoBlocked | PopBlockedInTime(now: int) | PopBlockedTooLong(now: int)
    | SendSuspend | TokenSuspension | PushSuspendedBlocked | GiveCredit | GiveIo
    | PopSuspendedBlocked | PushSuspendedReady | GiveAny

  /** DispatchHead takes execution_mutex and sends the PCB; ReadTime reads the clock and gives the mutex back. */
  datatype ExecStep = TokenReady | TokenCpu | DispatchHead(now: int) | ReadTime(now: int)

  datatype ExitStep = TokenExit | PopExit | SendExit

  datatype ReturnStep =
    | HandleIo(now: int) | IoFreesCpu | IoGivesIo
    | HandleExit | ExitGivesExit | ExitFreesCpu
    | HandleInterrupt(now: int) | PreemptGivesReady | PreemptFreesCpu | PreemptDone

  datatype AnswerStep =
    | HandleTables | TablesGiven | HandleSuspension | HandleExitDone(index: nat) | ExitGivesCredit

  datatype CpuStep =
    | CpuReceive | CpuInterrupted | CpuInterruptedAgain | ExecuteStay | ExecuteYield | ExecuteIo | ExecuteExit

  datatype Step =
    | Console(receive: ReceiveStep)
    | Admit(admit: AdmitStep)
    | PutToReady(t: Thread, put: PutStep)    // called by to_ready or by io_listener
    | Io(io: IoStep)
    | Exec(exec: ExecStep)
    | Exit(exit: ExitStep)
    | Return(return_: ReturnStep)
    | Answer(answer: AnswerStep)
    | Cpu(cpu: CpuStep)
    | Memory(handle: Handle)                 // serves a request, and answers a creation with the indexes

  datatype Shape = Shape(
    thread: Thread, here: Point, next: Point,
    wait: Counter, post: Counter,
    from: Place, to: Place)

  /** A step that only waits or posts. */
  function Sem(t: Thread, here: Point, next: Point, wait: Counter, post: Counter): Shape {
    Shape(t, here, next, wait, post, Nowhere, Nowhere)
  }

  /** A step that moves a PCB. */
  function Move(t: Thread, here: Point, next: Point, from: Place, to: Place): Shape {
    Shape(t, here, next, Nothing, Nothing, from, to)
  }

  function ReceiveShape(r: ReceiveStep): Shape {
    match r
    case LoadPid => Sem(Handlers, Anywhere, Anywhere, Nothing, Nothing)
    case StorePid(_) => Sem(Handlers, Anywhere, Anywhere, Nothing, Numbered)
    case Receive(_, _, _) => Shape(Handlers, Anywhere, Anywhere, Numbered, Received, Nowhere, NewQ)
    case ReceivePost => Sem(Handlers, Anywhere, Anywhere, Received, AnyForReady)
  }

  function AdmitShape(r: AdmitStep): Shape {
    match r
    case TokenAny => Sem(ToReady, AwaitAny, AwaitCredit, AnyForReady, Nothing)
    case TokenCredit => Sem(ToReady, AwaitCredit, ChooseQueue, Multiprogram, Nothing)
    case SeeSuspended => Sem(ToReady, ChooseQueue, TakeSuspended, Nothing, Nothing)
    case SeeNoSuspended => Sem(ToReady, ChooseQueue, CheckNew, Nothing, Nothing)
    case SeeNew => Sem(ToReady, CheckNew, TakeNew, Nothing, Nothing)
    case SeeNothing => Sem(ToReady, CheckNew, AwaitAny, Nothing, Nothing)
    case PopSuspendedReady => Move(ToReady, TakeSuspended, RequestResume, SuspendedReadyQ, ResumingHand)
    case SendResume => Move(ToReady, RequestResume, AwaitTables, ResumingHand, MemoryInitQ)
    case PopNew => Move(ToReady, TakeNew, RequestTables, NewQ, AdmittingHand)
    case SendNew => Move(ToReady, RequestTables, AwaitTables, AdmittingHand, MemoryInitQ)
    case TokenTables => Sem(ToReady, AwaitTables, Enqueue(ToReady), TableReady, Nothing)
  }

  function Home(t: Thread): Point { if t == IoListener then AwaitIo else AwaitAny }

  function Hand(t: Thread): Place { if t == IoListener then IoHand else ToReadyHand }

  function PutShape(t: Thread, r: PutStep): Shape {
    match r
    case EnqueueSrt => Shape(t, Enqueue(t), Check(t), MutexFree, Nothing, Hand(t), ReadyQ)
    case EnqueueFifo => Shape(t, Enqueue(t), Post(t), Nothing, Nothing, Hand(t), ReadyQ)
    case CheckBusy => Sem(t, Check(t), AwaitInterrupt(t), Nothing, InterruptWire)
    case CheckIdle => Sem(t, Check(t), Sort(t), Nothing, Nothing)
    case TokenInterrupt => Sem(t, AwaitInterrupt(t), Sort(t), InterruptReady, Nothing)
    case SortReady(_) => Sem(t, Sort(t), Post(t), Nothing, MutexFree)
    case PostReady => Sem(t, Post(t), Home(t), Nothing, ReadyForExec)
  }

  function IoShape(r: IoStep): Shape {
    match r
    case TokenIo => Sem(IoListener, AwaitIo, CheckBlocked, ProcessForIo, Nothing)
    case SeeBlocked => Sem(IoListener, CheckBlocked, TakeBlocked, Nothing, Nothing)
    case SeeNoBlocked => Sem(IoListener, CheckBlocked, TakeSuspendedBlocked, Nothing, Nothing)
    case PopBlockedInTime(_) => Move(IoListener, TakeBlocked, Enqueue(IoListener), BlockedQ, IoHand)
    case PopBlockedTooLong(_) => Move(IoListener, TakeBlocked, RequestSuspension, BlockedQ, IoHand)
    case SendSuspend => Move(IoListener, RequestSuspension, AwaitSuspension, IoHand, SuspendingHand)
    case TokenSuspension => Sem(IoListener, AwaitSuspension, EnterSuspended, SuspensionDone, Nothing)
    case PushSuspendedBlocked => Move(IoListener, EnterSuspended, PostCredit, SuspendingHand, SuspendedBlockedQ)
    case GiveCredit => Sem(IoListener, PostCredit, PostIo, Nothing, Multiprogram)
    case GiveIo => Sem(IoListener, PostIo, AwaitIo, Nothing, ProcessForIo)
    case PopSuspendedBlocked => Move(IoListener, TakeSuspendedBlocked, SleepSuspended, SuspendedBlockedQ, SleepingHand)
    case PushSuspendedReady => Move(IoListener, SleepSuspended, PostAny, SleepingHand, SuspendedReadyQ)
    case GiveAny => Sem(IoListener, PostAny, AwaitIo, Nothing, AnyForReady)
  }

  function ExecShape(r: ExecStep): Shape {
    match r
    case TokenReady => Sem(ToExec, AwaitReady, AwaitCpu, ReadyForExec, Nothing)
    case TokenCpu => Sem(ToExec, AwaitCpu, Dispatch, CpuFree, Nothing)
    case DispatchHead(_) => Shape(ToExec, Dispatch, Timing, MutexFree, Nothing, ReadyQ, CpuInbox)
    case ReadTime(_) => Sem(ToExec, Timing, AwaitReady, Nothing, MutexFree)
  }

  function ExitShape(r: ExitStep): Shape {
    match r
    case TokenExit => Sem(ExitProcess, AwaitExit, TakeExit, ToExit, Nothing)
    case PopExit => Move(ExitProcess, TakeExit, RequestExit, ExitQ, ExitHand)
    case SendExit => Move(ExitProcess, RequestExit, AwaitExit, ExitHand, MemoryExitQ)
  }

  function ReturnShape(r: ReturnStep): Shape {
    match r
    case HandleIo(_) => Move(DispatchListener, Listening, IoPostCpu, CpuOutbox, BlockedQ)
    case IoFreesCpu => Sem(DispatchListener, IoPostCpu, IoPostIo, Nothing, CpuFree)
    case IoGivesIo => Sem(DispatchListener, IoPostIo, Listening, Nothing, ProcessForIo)
    case HandleExit => Move(DispatchListener, Listening, ExitPostExit, CpuOutbox, ExitQ)
    case ExitGivesExit => Sem(DispatchListener, ExitPostExit, ExitPostCpu, Nothing, ToExit)
    case ExitFreesCpu => Sem(DispatchListener, ExitPostCpu, Listening, Nothing, CpuFree)
    case HandleInterrupt(_) => Move(DispatchListener, Listening, PreemptPostReady, CpuOutbox, ReadyQ)
    case PreemptGivesReady => Sem(DispatchListener, PreemptPostReady, PreemptPostCpu, Nothing, ReadyForExec)
    case PreemptFreesCpu => Sem(DispatchListener, PreemptPostCpu, PreemptPostDone, Nothing, CpuFree)
    case PreemptDone => Sem(DispatchListener, PreemptPostDone, Listening, Nothing, InterruptReady)
  }

  function AnswerShape(r: AnswerStep): Shape {
    match r
    case HandleTables => Move(MemoryListener, Waiting, PostTables, MemoryInitQ, ToReadyHand)
    case TablesGiven => Sem(MemoryListener, PostTables, Waiting, Nothing, TableReady)
    case HandleSuspension => Sem(MemoryListener, Waiting, Waiting, Nothing, SuspensionDone)
    case HandleExitDone(_) => Move(MemoryListener, Waiting, PostExitCredit, MemoryExitQ, Finished)
    case ExitGivesCredit => Sem(MemoryListener, PostExitCredit, Waiting, Nothing, Multiprogram)
  }

  function CpuShape(r: CpuStep): Shape {
    match r
    case CpuReceive => Move(Handlers, Anywhere, Anywhere, CpuInbox, CpuRunning)
    case CpuInterrupted => Sem(Handlers, Anywhere, Anywhere, InterruptWire, Interruption)
    case CpuInterruptedAgain => Sem(Handlers, Anywhere, Anywhere, InterruptWire, Nothing)
    case ExecuteStay => Move(Handlers, Anywhere, Anywhere, CpuRunning, CpuRunning)
    case ExecuteYield => Shape(Handlers, Anywhere, Anywhere, Interruption, Nothing, CpuRunning, CpuOutbox)
    case ExecuteIo => Move(Handlers, Anywhere, Anywhere, CpuRunning, CpuOutbox)
    case ExecuteExit => Move(Handlers, Anywhere, Anywhere, CpuRunning, CpuOutbox)
  }

  function ShapeOf(e: Step): Shape {
    match e
    case Console(r) => ReceiveShape(r)
    case Admit(r) => AdmitShape(r)
    case PutToReady(t, r) => PutShape(t, r)
    case Io(r) => IoShape(r)
    case Exec(r) => ExecShape(r)
    case Exit(r) => ExitShape(r)
    case Return(r) => ReturnShape(r)
    case Answer(r) => AnswerShape(r)
    case Cpu(r) => CpuShape(r)
    case Memory(_) => Sem(Handlers, Anywhere, Anywhere, Nothing, Nothing)
  }

  // ---- Guards -------------------------------------------------------------------------

  /** kernel/src/utils.c SJF_sort. */
  predicate SjfSort(a: Pcb, b: Pcb) { ToSigned(a.leftBurst) <= ToSigned(b.leftBurst) }

  ghost predicate Sorted(q: seq<Pcb>) {
    forall i, j :: 0 <= i < j < |q| ==> SjfSort(q[i], q[j])
  }

  /** The contract of list_sort. */
  ghost predicate SortOf(sorted: seq<Pcb>, q: seq<Pcb>) {
    Sorted(sorted) && multiset(sorted) == multiset(q)
  }

  /** kernel.c:140-151: the I/O ends before the process has been blocked for too long. */
  predicate InTime(c: Config, pcb: Pcb, now: int) {
    ToSigned(ToU32(c.maxBlockedTime - (now - pcb.blockedTime) - pcb.pendingIo)) >= 0
  }

  /** The CPU has a next instruction for its PCB and knows the operation; I/O has its parameter. */
  predicate CanExecute(s: State) {
    && |At(s.at, CpuRunning)| > 0
    && var pcb := At(s.at, CpuRunning)[0];
       && pcb.programCounter < |pcb.instructions|
       && var i := pcb.instructions[pcb.programCounter];
          && !OperationOf(i.id).Dead?
          && (OperationOf(i.id).Io? ==> |i.params| > 0)
  }

  function Fetched(s: State): Instruction
    requires CanExecute(s)
  {
    At(s.at, CpuRunning)[0].instructions[At(s.at, CpuRunning)[0].programCounter]
  }

  predicate Next(s: State, op: Operation) { CanExecute(s) && OperationOf(Fetched(s).id) == op }

  predicate NextIsLocal(s: State) { CanExecute(s) && !Next(s, Operation.Io) && !Next(s, Operation.Exit) }

  predicate Executes(e: Step) {
    e.Cpu? && (e.cpu.ExecuteStay? || e.cpu.ExecuteYield? || e.cpu.ExecuteIo? || e.cpu.ExecuteExit?)
  }

  predicate HeaderIs(s: State, h: CpuHeader) { |s.headers| > 0 && s.headers[0] == h }

  /** The branch condition of the step, beyond its shape. Where a reply of memory names a pid nobody waits for, the
      kernel terminates itself; no step stands for that. */
  ghost predicate Guard(c: Config, s: State, e: Step) {
    match e
    case Console(StorePid(i)) => i < |s.loaded|
    case Admit(SeeSuspended) => |At(s.at, SuspendedReadyQ)| > 0
    case Admit(SeeNoSuspended) => |At(s.at, SuspendedReadyQ)| == 0
    case Admit(SeeNew) => |At(s.at, NewQ)| > 0
    case Admit(SeeNothing) => |At(s.at, NewQ)| == 0
    case PutToReady(_, EnqueueSrt) => c.srt
    case PutToReady(_, EnqueueFifo) => !c.srt && N(s, MutexFree) > 0
    case PutToReady(_, CheckBusy) => N(s, CpuFree) == 0
    case PutToReady(_, CheckIdle) => N(s, CpuFree) > 0
    case PutToReady(_, SortReady(sorted)) => SortOf(sorted, At(s.at, ReadyQ))
    case Io(SeeBlocked) => |At(s.at, BlockedQ)| > 0
    case Io(SeeNoBlocked) => |At(s.at, BlockedQ)| == 0
    case Io(PopBlockedInTime(now)) => |At(s.at, BlockedQ)| > 0 && InTime(c, At(s.at, BlockedQ)[0], now)
    case Io(PopBlockedTooLong(now)) => |At(s.at, BlockedQ)| > 0 && !InTime(c, At(s.at, BlockedQ)[0], now)
    case Return(HandleIo(_)) => HeaderIs(s, IoCall)
    case Return(HandleExit) => HeaderIs(s, ExitCall)
    case Return(HandleInterrupt(_)) => HeaderIs(s, InterruptDispatch)
    case Answer(HandleTables) =>
      |s.replies| > 0 && s.replies[0].MemoryReady? && PidAt(s.at, MemoryInitQ, 0) == s.replies[0].pid
    case Answer(HandleSuspension) => |s.replies| > 0 && s.replies[0].SuspensionReady?
    case Answer(HandleExitDone(i)) =>
      |s.replies| > 0 && s.replies[0].ExitReady? && PidAt(s.at, MemoryExitQ, i) == s.replies[0].pid
    case Cpu(CpuReceive) => |At(s.at, CpuRunning)| == 0 && !s.stuck
    case Cpu(CpuInterrupted) => N(s, Interruption) == 0
    case Cpu(CpuInterruptedAgain) => N(s, Interruption) > 0
    case Cpu(ExecuteStay) => NextIsLocal(s) && N(s, Interruption) == 0
    case Cpu(ExecuteYield) => NextIsLocal(s)
    case Cpu(ExecuteIo) => Next(s, Operation.Io)
    case Cpu(ExecuteExit) => Next(s, Operation.Exit)
    case Memory(_) => |s.requests| > 0
    case _ => true
  }

  /** The position in its place of the PCB that moves; all but one step take the head. */
  function Index(e: Step): nat { if e.Answer? && e.answer.HandleExitDone? then e.answer.index else 0 }

  /** Only to_ready and io_listener call put_to_ready. */
  predicate Proper(e: Step) { e.PutToReady? ==> e.t == ToReady || e.t == IoListener }

  /** The thread stands where the step begins, its semaphore has a unit and its place a PCB. */
  predicate Startable(s: State, e: Step) {
    var h := ShapeOf(e);
    && PointOf(s, h.thread) == h.here
    && (!h.wait.Nothing? ==> N(s, h.wait) > 0)
    && (!h.from.Nowhere? ==> Index(e) < |At(s.at, h.from)|)
  }

  ghost predicate Enabled(c: Config, s: State, e: Step) {
    Proper(e) && Startable(s, e) && Guard(c, s, e)
  }

  // ---- Effects ------------------------------------------------------------------------

  /** kernel.c:552, on the uint32_t field. */
  function Preempted(pcb: Pcb, slice: int): Pcb {
    pcb.(leftBurst := ToU32(ToSigned(pcb.leftBurst) - slice))
  }

  /** kernel.c:587: real, as the int the uint32_t expression is stored in. */
  function RealBurst(pcb: Pcb, slice: int): int {
    ToSigned(ToU32(pcb.burstEstimation - ToSigned(pcb.leftBurst) + slice))
  }

  function Scale(a: real, x: real): real { a * x }

  function Blend(alpha: real, x: real, y: real): real { Scale(alpha, x) + Scale(1.0 - alpha, y) }

  /** kernel.c:588. */
  function Estimate(alpha: real, burst: int, estimate: nat): nat {
    ToU32(Blend(alpha, burst as real, estimate as real).Floor)
  }

  /** kernel.c:584-598. */
  function Reestimated(c: Config, pcb: Pcb, toExec: int, now: int): Pcb {
    var e := Estimate(c.alpha, RealBurst(pcb, now - toExec), pcb.burstEstimation);
    pcb.(burstEstimation := e, leftBurst := e, blockedTime := ToU32(now))
  }

  function Advanced(pcb: Pcb): Pcb { pcb.(programCounter := pcb.programCounter + 1) }

  /** The PCB as it arrives, given the PCB that leaves. */
  function Carried(c: Config, s: State, e: Step, pcb: Pcb): Pcb {
    match e
    case Io(PopBlockedTooLong(now)) =>
      pcb.(pendingIo := ToU32(pcb.pendingIo - (c.maxBlockedTime - (now - pcb.blockedTime))))
    case Return(HandleIo(now)) => Reestimated(c, pcb, s.toExecTime, now)
    case Return(HandleInterrupt(now)) => Preempted(pcb, now - s.toExecTime)
    case Answer(HandleTables) =>
      if |s.replies| > 0 && s.replies[0].MemoryReady?
      then pcb.(pageTable := s.replies[0].handle.pt, framesIndex := s.replies[0].handle.fi) else pcb
    case Cpu(ExecuteIo) =>
      if CanExecute(s) && |Fetched(s).params| > 0 then Advanced(pcb).(pendingIo := Fetched(s).params[0])
          else Advanced(pcb)
    case _ => if Executes(e) then Advanced(pcb) else pcb
  }

  function Without(q: seq<Pcb>, i: nat): seq<Pcb> { if i < |q| then q[..i] + q[i + 1..] else q }

  function Take(at: Places, x: Place, i: nat): Places { at[x := Without(At(at, x), i)] }

  function Put(at: Places, x: Place, pcb: Pcb): Places { at[x := At(at, x) + [pcb]] }

  /** cpu.c:217-225: a pending interruption makes the CPU send the PCB of an I/O call or an exit a second time;
      it then blocks for ever on cpu_bussy. */
  predicate SendsTwice(s: State, e: Step) {
    e.Cpu? && (e.cpu.ExecuteIo? || e.cpu.ExecuteExit?) && N(s, Interruption) > 0
  }

  /** kernel.c:251-252: a handler stores pid while another one is between its load and its reading back. */
  predicate Overtakes(s: State, e: Step) { Stores(e) && (|s.loaded| > 1 || N(s, Numbered) > 0) }

  /** The pid read back has been read before: another handler has it. */
  predicate Rereads(s: State, e: Step) { Receives(e) && s.pid in s.history.program }

  /** kernel.c:241-256. */
  function Created(c: Config, s: State, r: ReceiveStep): Pcb
    requires r.Receive?
  {
    Pcb(s.pid, r.size, r.socket, r.instructions, 0, 0, 0, c.initialEstimate, c.initialEstimate, 0, 0)
  }

  predicate Loads(e: Step) { e.Console? && e.receive.LoadPid? }

  predicate Stores(e: Step) { e.Console? && e.receive.StorePid? }

  predicate Receives(e: Step) { e.Console? && e.receive.Receive? }

  predicate Sorts(e: Step) { e.PutToReady? && e.put.SortReady? }

  function PlacesAfter(c: Config, s: State, e: Step): Places {
    var h := ShapeOf(e);
    if Receives(e) then Put(s.at, NewQ, Created(c, s, e.receive))
    else if Sorts(e) then s.at[ReadyQ := e.put.sorted]
    else if !h.from.Nowhere? && Index(e) < |At(s.at, h.from)| then
      var pcb := Carried(c, s, e, At(s.at, h.from)[Index(e)]);
      var moved := Put(Take(s.at, h.from, Index(e)), h.to, pcb);
      if SendsTwice(s, e) then Put(moved, CpuOutbox, pcb) else moved
    else s.at
  }

  function CountAfter(s: State, h: Shape): map<Counter, nat> {
    var less := if h.wait.Nothing? then s.count
        else s.count[h.wait := if N(s, h.wait) > 0 then N(s, h.wait) - 1 else 0];
    if h.post.Nothing? then less else less[h.post := (if h.post in less then less[h.post] else 0) + 1]
  }

  function HeadersAfter(s: State, e: Step): seq<CpuHeader> {
    var again := if SendsTwice(s, e) then [InterruptDispatch] else [];
    match e
    case Cpu(ExecuteYield) => s.headers + [InterruptDispatch]
    case Cpu(ExecuteIo) => s.headers + [IoCall] + again
    case Cpu(ExecuteExit) => s.headers + [ExitCall] + again
    case Return(HandleIo(_)) => Rest(s.headers)
    case Return(HandleExit) => Rest(s.headers)
    case Return(HandleInterrupt(_)) => Rest(s.headers)
    case _ => s.headers
  }

  /** The CPU time of pid's current burst, at a moment it is about to leave the CPU. */
  function BurstSoFar(h: History, pid: nat, now: int): int {
    (if pid in h.burst then h.burst[pid] else 0) + now - (if pid in h.dispatched then h.dispatched[pid] else 0)
  }

  function HistoryAfter(s: State, e: Step): History {
    var h := s.history;
    if Executes(e) && CanExecute(s) then
      var pid := PidAt(s.at, CpuRunning, 0);
      h.(executed := h.executed[pid := (if pid in h.executed then h.executed[pid] else []) + [Fetched(s)]])
    else match e
    case Console(Receive(size, socket, instructions)) =>
      h.(program := h.program[s.pid := instructions], executed := h.executed[s.pid := []],
         burst := h.burst[s.pid := 0], origin := h.origin[s.pid := Origin(size, socket)])
    case Exec(DispatchHead(now)) =>
      var pid := PidAt(s.at, ReadyQ, 0);
      h.(dispatched := h.dispatched[pid := now], last := pid)
    case Exec(ReadTime(now)) => h.(dispatched := h.dispatched[h.last := now])
    case Return(HandleIo(now)) =>
      var pid := PidAt(s.at, CpuOutbox, 0);
      h.(burst := h.burst[pid := 0], blocked := h.blocked[pid := now], taken := h.taken - {pid})
    case Io(PopBlockedTooLong(now)) => h.(taken := h.taken[PidAt(s.at, BlockedQ, 0) := now])
    case Return(HandleInterrupt(now)) =>
      var pid := PidAt(s.at, CpuOutbox, 0);
      h.(burst := h.burst[pid := BurstSoFar(h, pid, now)])
    case _ => h
  }

  /** What memory does with a request, in the order of arrival. */
  function Residents(resident: set<nat>, request: Request): set<nat> {
    match request
    case ProcessNew(pid, _) => resident + {pid}
    case ProcessResume(pid, _) => resident + {pid}
    case ProcessSuspend(pid, _) => resident - {pid}
    case ProcessExit(pid, _) => resident - {pid}
  }

  function Given(given: map<nat, Handle>, request: Request, handle: Handle): map<nat, Handle> {
    match request
    case ProcessNew(pid, _) => given[pid := handle]
    case ProcessExit(pid, _) => given - {pid}
    case _ => given
  }

  /** A process that comes back has its tables and its list of frames still. */
  function ReplyTo(request: Request, handle: Handle): seq<Reply> {
    match request
    case ProcessNew(pid, _) => [MemoryReady(pid, handle)]
    case ProcessResume(pid, h) => [MemoryReady(pid, h)]
    case ProcessSuspend(_, _) => [SuspensionReady]
    case ProcessExit(pid, _) => [ExitReady(pid)]
  }

  /** The request the step sends, about the PCB it moves. ProcessResume is the repair of kernel.c:380, where only a
      comment asks memory to bring the process back: to_ready asks and waits as it does for a new process. */
  function Sent(s: State, e: Step): seq<Request> {
    match e
    case Admit(SendNew) => var pcb := PcbAt(s.at, AdmittingHand, 0); [ProcessNew(pcb.pid, pcb.size)]
    case Admit(SendResume) => var pcb := PcbAt(s.at, ResumingHand, 0); [ProcessResume(pcb.pid, HandleOf(pcb))]
    case Io(SendSuspend) => var pcb := PcbAt(s.at, IoHand, 0); [ProcessSuspend(pcb.pid, HandleOf(pcb))]
    case Exit(SendExit) => var pcb := PcbAt(s.at, ExitHand, 0); [ProcessExit(pcb.pid, HandleOf(pcb))]
    case _ => []
  }

  predicate TakesReply(e: Step) {
    e.Answer? && (e.answer.HandleTables? || e.answer.HandleSuspension? || e.answer.HandleExitDone?)
  }

  predicate Serves(s: State, e: Step) { e.Memory? && |s.requests| > 0 }

  function RepliesAfter(s: State, e: Step): seq<Reply> {
    if Serves(s, e) then s.replies + ReplyTo(s.requests[0], e.handle)
    else if TakesReply(e) then Rest(s.replies)
    else s.replies
  }

  /** The global and what the handlers have of it. */
  function PidAfter(s: State, e: Step): nat {
    if Stores(e) && e.receive.handler < |s.loaded| then s.loaded[e.receive.handler] + 1 else s.pid
  }

  function LoadedAfter(s: State, e: Step): seq<nat> {
    if Loads(e) then s.loaded + [s.pid]
    else if Stores(e) && e.receive.handler < |s.loaded|
        then s.loaded[..e.receive.handler] + s.loaded[e.receive.handler + 1..]
    else s.loaded
  }

  function Apply(c: Config, s: State, e: Step): State {
    var h := ShapeOf(e);
    State(
      PidAfter(s, e),
      LoadedAfter(s, e),
      PlacesAfter(c, s, e),
      CountAfter(s, h),
      s.point[h.thread := h.next],
      HeadersAfter(s, e),
      s.stuck || SendsTwice(s, e),
      (if Serves(s, e) then Rest(s.requests) else s.requests) + Sent(s, e),
      RepliesAfter(s, e),
      if Serves(s, e) then Residents(s.resident, s.requests[0]) else s.resident,
      if Serves(s, e) then Given(s.given, s.requests[0], e.handle) else s.given,
      if e.Exec? && e.exec.ReadTime? then e.exec.now else s.toExecTime,
      HistoryAfter(s, e))
  }

  // ---- Runs ---------------------------------------------------------------------------

  /** Every step is enabled when it is taken. */
  ghost predicate Runs(c: Config, s: State, steps: seq<Step>)
    decreases |steps|
  {
    steps == [] || (Enabled(c, s, steps[0]) && Runs(c, Apply(c, s, steps[0]), steps[1..]))
  }

  ghost function After(c: Config, s: State, steps: seq<Step>): State
    requires Runs(c, s, steps)
    decreases |steps|
  {
    if steps == [] then s else After(c, Apply(c, s, steps[0]), steps[1..])
  }

  /** No interruption is pending when an I/O call or an exit executes. */
  ghost predicate Guarded(c: Config, s: State, steps: seq<Step>)
    requires Runs(c, s, steps)
    decreases |steps|
  {
    steps == [] || (!SendsTwice(s, steps[0]) && Guarded(c, Apply(c, s, steps[0]), steps[1..]))
  }

  /** No handler stores pid between another one's load and its reading back. */
  ghost predicate InTurn(c: Config, s: State, steps: seq<Step>)
    requires Runs(c, s, steps)
    decreases |steps|
  {
    steps == [] || (!Overtakes(s, steps[0]) && InTurn(c, Apply(c, s, steps[0]), steps[1..]))
  }
}
