/** I/O calls and where they take a process: what it waits for is what its last instruction asked for, it waits since
    its call was handled, and io_listener suspends it exactly when its I/O would end too late. */
module KernelIo {
  import opened Processes
  import opened Kernel
  import opened KernelLaws
  import opened KernelSafety
  import opened KernelConservation
  import opened KernelHistory

  // ---- The last instruction executed --------------------------------------------------

  function LastOf(h: History, pid: nat): Instruction {
    if pid in h.executed && |h.executed[pid]| > 0 then h.executed[pid][|h.executed[pid]| - 1] else Instruction([], [])
  }

  /** No instruction executed yet counts as none of these. */
  predicate LastIs(h: History, pid: nat, op: Operation) {
    pid in h.executed && |h.executed[pid]| > 0 && OperationOf(LastOf(h, pid).id) == op
  }

  /** The milliseconds an I/O instruction asks for. */
  function Asked(h: History, pid: nat): nat { if |LastOf(h, pid).params| > 0 then LastOf(h, pid).params[0] else 0 }

  /** io_listener has slept until the process had waited for the maximum, before it suspended it. */
  function Slept(c: Config, h: History, pid: nat): int
    requires pid in h.blocked && pid in h.taken
  {
    h.blocked[pid] + c.maxBlockedTime - h.taken[pid]
  }

  // ---- Where it takes a process -------------------------------------------------------

  predicate AwaitsIo(x: Place) {
    x.BlockedQ? || x.IoHand? || x.SuspendingHand? || x.SuspendedBlockedQ? || x.SleepingHand?
  }

  predicate AwaitsExit(x: Place) { x.ExitQ? || x.ExitHand? || x.MemoryExitQ? || x.Finished? }

  predicate AwaitsAdmission(x: Place) { x.NewQ? || x.AdmittingHand? }

  /** A process that waits for I/O asked for it with its last instruction, waits since that call was handled, and has
      as much to do as it asked for, less what it did before a suspension. */
  predicate InIo(c: Config, h: History, pcb: Pcb) {
    && LastIs(h, pcb.pid, Operation.Io) && pcb.pid in h.blocked
    && pcb.blockedTime == ToU32(h.blocked[pcb.pid])
    && pcb.pendingIo == if pcb.pid in h.taken then ToU32(Asked(h, pcb.pid) - Slept(c, h, pcb.pid))
                        else Asked(h, pcb.pid)
  }

  /** Who waits for I/O, for its exit or for its admission does so because of its program. */
  predicate Placed(c: Config, h: History, x: Place, pcb: Pcb) {
    if AwaitsIo(x) then
      && InIo(c, h, pcb)
      && (x.BlockedQ? ==> pcb.pid !in h.taken) && (!x.BlockedQ? && !x.IoHand? ==> pcb.pid in h.taken)
    else if AwaitsExit(x) then LastIs(h, pcb.pid, Operation.Exit)
    else if AwaitsAdmission(x) then pcb.pid in h.executed && h.executed[pcb.pid] == []
    else x.CpuOutbox? || !LastIs(h, pcb.pid, Operation.Exit)
  }

  /** And so does who comes back from the CPU. */
  predicate Returned(h: History, header: CpuHeader, pcb: Pcb) {
    match header
    case IoCall => LastIs(h, pcb.pid, Operation.Io) && pcb.pendingIo == Asked(h, pcb.pid)
    case ExitCall => LastIs(h, pcb.pid, Operation.Exit)
    case InterruptDispatch => !LastIs(h, pcb.pid, Operation.Io) && !LastIs(h, pcb.pid, Operation.Exit)
  }

  predicate ReturnsAsCalled(s: State) {
    |s.headers| > 0 && |At(s.at, CpuOutbox)| > 0 ==> Returned(s.history, s.headers[0], At(s.at, CpuOutbox)[0])
  }

  /** io_listener asks for a suspension exactly when it has taken its process for one. */
  ghost predicate HandAsTaken(s: State) {
    forall pcb :: pcb in At(s.at, IoHand) ==>
      (PointOf(s, IoListener).RequestSuspension? <==> pcb.pid in s.history.taken)
  }

  ghost predicate AllPlaced(c: Config, s: State) {
    && ReturnsAsCalled(s) && HandAsTaken(s)
    && (forall x, pcb {:trigger pcb in At(s.at, x)} :: x != Nowhere && pcb in At(s.at, x) ==>
          Placed(c, s.history, x, pcb))
  }

  // ---- What a step does to it ---------------------------------------------------------

  /** The history of a process a step does not move. */
  predicate SameHistory(h: History, h': History, pid: nat) {
    && (pid in h.executed ==> pid in h'.executed && h'.executed[pid] == h.executed[pid])
    && (pid in h'.executed ==> pid in h.executed)
    && (pid in h.blocked ==> pid in h'.blocked && h'.blocked[pid] == h.blocked[pid])
    && (pid in h.taken <==> pid in h'.taken) && (pid in h.taken ==> h'.taken[pid] == h.taken[pid])
  }

  lemma OthersHistory(s: State, e: Step, pid: nat)
    requires Receives(e) ==> pid != s.pid
    requires ShapeOf(e).from != Nowhere ==> pid != PidAt(s.at, ShapeOf(e).from, Index(e))
    requires Executes(e) ==> ShapeOf(e).from == CpuRunning
    ensures SameHistory(s.history, HistoryAfter(s, e), pid)
  {
    hide CanExecute, Fetched, PidAt, HistoryAfter;
    ProgramsRecorded(s, e);
    BlockedAfter(s, e);
    TakenAfter(s, e);
    HandledFromPlaces(e);
  }

  lemma HandledFromPlaces(e: Step)
    ensures e.Io? && e.io.PopBlockedTooLong? ==> ShapeOf(e).from == BlockedQ && Index(e) == 0
    ensures e.Return? && e.return_.HandleIo? ==> ShapeOf(e).from == CpuOutbox && Index(e) == 0
    ensures Executes(e) ==> Index(e) == 0
  {
  }

  lemma BlockedAfter(s: State, e: Step)
    ensures HistoryAfter(s, e).blocked
         == if e.Return? && e.return_.HandleIo? then s.history.blocked[PidAt(s.at, CpuOutbox, 0) := e.return_.now]
            else s.history.blocked
  {
    hide CanExecute, Fetched, BurstSoFar, PidAt;
  }

  lemma TakenAfter(s: State, e: Step)
    ensures HistoryAfter(s, e).taken
         == if e.Io? && e.io.PopBlockedTooLong? then s.history.taken[PidAt(s.at, BlockedQ, 0) := e.io.now]
            else if e.Return? && e.return_.HandleIo? then s.history.taken - {PidAt(s.at, CpuOutbox, 0)}
            else s.history.taken
  {
    hide CanExecute, Fetched, BurstSoFar, PidAt;
  }

  lemma SamePlace(c: Config, h: History, h': History, x: Place, pcb: Pcb)
    requires Placed(c, h, x, pcb) && SameHistory(h, h', pcb.pid)
    ensures Placed(c, h', x, pcb)
  {
    hide OperationOf;
  }

  lemma SameReturn(h: History, h': History, header: CpuHeader, pcb: Pcb)
    requires Returned(h, header, pcb) && SameHistory(h, h', pcb.pid)
    ensures Returned(h', header, pcb)
  {
    hide OperationOf;
  }

  lemma ExecutesTheHead(e: Step)
    requires Executes(e)
    ensures ShapeOf(e).from == CpuRunning && Index(e) == 0
    ensures ShapeOf(e).to == CpuRunning || ShapeOf(e).to == CpuOutbox
  {
  }

  /** What is executed becomes the last instruction. */
  lemma LastAfter(c: Config, s: State, e: Step)
    requires Enabled(c, s, e) && Executes(e)
    ensures CanExecute(s) && LastOf(HistoryAfter(s, e), PidAt(s.at, CpuRunning, 0)) == Fetched(s)
    ensures forall op ::
              LastIs(HistoryAfter(s, e), PidAt(s.at, CpuRunning, 0), op) <==> OperationOf(Fetched(s).id) == op
  {
    hide OperationOf, ShapeOf, Proper;
  }

  lemma MovedFromTo(e: Step)
    requires ShapeOf(e).from != Nowhere && !Executes(e) && !e.Return? && !e.Io?
    ensures AwaitsExit(ShapeOf(e).to) ==> AwaitsExit(ShapeOf(e).from)
    ensures AwaitsExit(ShapeOf(e).from) ==> AwaitsExit(ShapeOf(e).to)
    ensures AwaitsAdmission(ShapeOf(e).to) ==> AwaitsAdmission(ShapeOf(e).from)
    ensures !AwaitsIo(ShapeOf(e).to) && ShapeOf(e).from != CpuOutbox
  {
  }

  lemma OneOperation(h: History, pid: nat)
    ensures LastIs(h, pid, Operation.Io) ==> !LastIs(h, pid, Operation.Exit)
    ensures pid in h.executed && h.executed[pid] == [] ==> forall op :: !LastIs(h, pid, op)
  {
    hide OperationOf;
  }

  lemma LastStays(s: State, e: Step, pid: nat)
    requires !Executes(e) && !Receives(e)
    ensures HistoryAfter(s, e).executed == s.history.executed
    ensures forall op :: LastIs(HistoryAfter(s, e), pid, op) == LastIs(s.history, pid, op)
    ensures Asked(HistoryAfter(s, e), pid) == Asked(s.history, pid)
  {
    hide OperationOf, CanExecute, Fetched, PidAt, HistoryAfter;
    ProgramsRecorded(s, e);
  }

  /** What moves without being executed or handled: from a place it may be in to one it may be in. */
  lemma MovedIsPlaced(c: Config, s: State, e: Step, pcb: Pcb)
    requires ShapeOf(e).from != Nowhere && !Executes(e) && !Receives(e) && !e.Return? && !e.Io?
    requires Placed(c, s.history, ShapeOf(e).from, pcb)
    ensures Placed(c, HistoryAfter(s, e), ShapeOf(e).to, Carried(c, s, e, pcb))
  {
    hide ShapeOf, HistoryAfter, Carried, LastIs, Asked, Slept, Executes;
    MovedFromTo(e);
    PidIsCarried(c, s, e, pcb);
    OneOperation(s.history, pcb.pid);
    LastStays(s, e, pcb.pid);
  }

  /** A call of the CPU is handled, */
  lemma HandledIsPlaced(c: Config, s: State, e: Step, pcb: Pcb)
    requires e.Return? && ShapeOf(e).from == CpuOutbox && Guard(c, s, e) && pcb.pid == PidAt(s.at, CpuOutbox, 0)
    requires |s.headers| > 0 && Returned(s.history, s.headers[0], pcb)
    ensures Placed(c, HistoryAfter(s, e), ShapeOf(e).to, Carried(c, s, e, pcb))
  {
    hide LastIs, Asked, Slept, Estimate, RealBurst, ToSigned;
    LastStays(s, e, pcb.pid);
    if e.return_.HandleIo? { assert InIo(c, HistoryAfter(s, e), Carried(c, s, e, pcb)); }
  }

  /** io_listener takes a process that waits, and goes on with it. */
  lemma WaitingIsPlaced(c: Config, s: State, e: Step, pcb: Pcb)
    requires e.Io? && ShapeOf(e).from != Nowhere && Index(e) < |At(s.at, ShapeOf(e).from)|
    requires pcb == At(s.at, ShapeOf(e).from)[Index(e)] && Placed(c, s.history, ShapeOf(e).from, pcb)
    requires ShapeOf(e).from == IoHand ==> pcb.pid in s.history.taken
    ensures Placed(c, HistoryAfter(s, e), ShapeOf(e).to, Carried(c, s, e, pcb))
  {
    hide LastIs, Asked;
    OneOperation(s.history, pcb.pid);
    LastStays(s, e, pcb.pid);
    if e.io.PopBlockedTooLong? { RestIsLeft(c, s.history, pcb, e.io.now); }
  }

  lemma RestIsLeft(c: Config, h: History, pcb: Pcb, now: int)
    requires InIo(c, h, pcb) && pcb.pid !in h.taken
    ensures ToU32(pcb.pendingIo - (c.maxBlockedTime - (now - pcb.blockedTime)))
         == ToU32(Asked(h, pcb.pid) - (h.blocked[pcb.pid] + c.maxBlockedTime - now))
  {
    SameWord(pcb.pendingIo - (c.maxBlockedTime - (now - pcb.blockedTime)),
        Asked(h, pcb.pid) - (h.blocked[pcb.pid] + c.maxBlockedTime - now));
  }

  lemma SameWord(a: int, b: int)
    requires Congruent(a, b)
    ensures ToU32(a) == ToU32(b)
  {
  }

  /** An instruction is executed. */
  lemma ExecutedIsPlaced(c: Config, s: State, e: Step, pcb: Pcb)
    requires Enabled(c, s, e) && Executes(e) && pcb.pid == PidAt(s.at, CpuRunning, 0)
    ensures Placed(c, HistoryAfter(s, e), ShapeOf(e).to, Carried(c, s, e, pcb))
  {
    hide Carried, LastIs, OperationOf, HistoryAfter, Proper;
    LastAfter(c, s, e);
    PidIsCarried(c, s, e, pcb);
  }

  // ---- Every step keeps it ------------------------------------------------------------

  lemma IoHandThreads(s: State)
    requires AtOwnPoints(s)
    ensures Threads(s.point, IoHandLaw()) == IoHandPoint(PointOf(s, IoListener))
  {
    forall t ensures ThreadTerm(s.point, IoHandLaw())(t)
                  == if t == IoListener then IoHandPoint(PointOf(s, t)) else 0 {
      assert Owns(t, PointOf(s, t));
    }
  }

  /** io_listener has a process in its hand exactly between taking it and passing it on. */
  lemma HandHoldsOne(c: Config, s: State)
    requires Safe(c, s)
    ensures |At(s.at, IoHand)| == IoHandPoint(PointOf(s, IoListener)) <= 1
  {
    hide Tally, Units, Threads, Checked, Messages, AtOwnPoints, IoHandLaw;
    IoHandTally(s);
    IoHandThreads(s);
  }

  lemma IoHandTally(s: State)
    ensures Tally(s.at, IoHandLaw(), All()) == -|At(s.at, IoHand)| && Units(s.count, IoHandLaw()) == 0
  {
    hide SumPlaces;
    TallyOfTwo(s.at, IoHandLaw(), IoHand, IoHand);
  }

  lemma HandTraffic(e: Step)
    requires Proper(e)
    ensures var h := ShapeOf(e);
            && (h.to == IoHand <==> e.Io? && (e.io.PopBlockedInTime? || e.io.PopBlockedTooLong?))
            && (h.to == IoHand ==> h.thread == IoListener && h.from == BlockedQ && h.here.TakeBlocked?)
            && (h.from == IoHand ==> h.thread == IoListener)
            && (h.thread == IoListener && h.next.RequestSuspension? <==> e.Io? && e.io.PopBlockedTooLong?)
            && (h.thread == IoListener && h.from != IoHand ==> IoHandPoint(h.here) == 0)
  {
  }

  /** A PCB that stays where it is has the history it had. */
  lemma OtherKeepsHistory(c: Config, s: State, e: Step, x: Place, pcb: Pcb)
    requires Conserved(s) && Enabled(c, s, e) && !Rereads(s, e) && x != Nowhere
    requires pcb in (if x == ShapeOf(e).from then Without(At(s.at, x), Index(e)) else At(s.at, x))
    ensures pcb in At(s.at, x) && SameHistory(s.history, HistoryAfter(s, e), pcb.pid)
  {
    hide Guard, Proper, ShapeOf, Copies, HistoryAfter, SameHistory, Executes;
    var i :| 0 <= i < |At(s.at, x)| && At(s.at, x)[i] == pcb;
    CopyOf(s.at, x, i);
    if ShapeOf(e).from != Nowhere { OthersAreOthers(s.at, ShapeOf(e).from, Index(e), x, pcb); }
    if Executes(e) { ExecutesTheHead(e); }
    OthersHistory(s, e, pcb.pid);
  }

  lemma ComesToHand(c: Config, s: State, e: Step)
    requires AllPlaced(c, s) && Enabled(c, s, e) && ShapeOf(e).to == IoHand
    ensures Moves(e) && ShapeOf(e).from == BlockedQ
    ensures var h := ShapeOf(e);
            h.thread == IoListener && (h.next.RequestSuspension? <==> Arriving(c, s, e).pid in HistoryAfter(s, e).taken)
  {
    hide HistoryAfter, ShapeOf, Guard, Carried, InIo, Proper, HandAsTaken, ReturnsAsCalled;
    HandTraffic(e);
    TakenAfter(s, e);
    var pcb := At(s.at, BlockedQ)[0];
    assert pcb in At(s.at, BlockedQ);
    PidIsCarried(c, s, e, pcb);
    assert Placed(c, s.history, BlockedQ, pcb);
  }

  /** Nobody joins or leaves a hand that goes on holding a process. */
  lemma StaysInHand(c: Config, s: State, e: Step, pcb: Pcb)
    requires Safe(c, s) && Enabled(c, s, e)
    requires pcb in (if ShapeOf(e).from == IoHand then Without(At(s.at, IoHand), Index(e)) else At(s.at, IoHand))
    ensures ShapeOf(e).thread != IoListener && ShapeOf(e).from != IoHand
  {
    hide Safe, ShapeOf, Guard, Proper, IoHandPoint;
    HandTraffic(e);
    HandHoldsOne(c, s);
  }

  lemma HandKept(c: Config, s: State, e: Step)
    requires AllPlaced(c, s) && Safe(c, s) && Conserved(s) && Enabled(c, s, e) && !Rereads(s, e)
    ensures HandAsTaken(Apply(c, s, e))
  {
    hide PlacesAfter, CountAfter, HeadersAfter, Sent, RepliesAfter, Residents, Given, HistoryAfter, ShapeOf, Guard,
         Arriving, Conserved, Safe, InIo, ReturnsAsCalled, Proper, IoHandPoint;
    forall pcb | pcb in At(PlacesAfter(c, s, e), IoHand)
      ensures PointOf(Apply(c, s, e), IoListener).RequestSuspension? <==> pcb.pid in HistoryAfter(s, e).taken
    {
      InPlaceAfter(c, s, e, IoHand, pcb);
      if Moves(e) && ShapeOf(e).to == IoHand && pcb == Arriving(c, s, e) {
        ComesToHand(c, s, e);
      } else {
        OtherKeepsHistory(c, s, e, IoHand, pcb);
        StaysInHand(c, s, e, pcb);
      }
    }
  }

  /** What the CPU sends back is alone in its outbox. */
  lemma OutboxHoldsOne(c: Config, s: State, e: Step)
    requires Safe(c, s) && Enabled(c, s, e) && (ShapeOf(e).from == CpuRunning || ShapeOf(e).from == CpuOutbox)
    ensures ShapeOf(e).from == CpuRunning ==> At(s.at, CpuOutbox) == [] && s.headers == []
    ensures ShapeOf(e).from == CpuOutbox ==> |At(s.at, CpuOutbox)| == 1 && |s.headers| == 1
  {
    hide Safe, ShapeOf, Guard, Proper;
    CpuIsExclusive(c, s);
    HeadersMatch(c, s);
  }

  lemma HeadersMatch(c: Config, s: State)
    requires Safe(c, s)
    ensures |s.headers| == |At(s.at, CpuOutbox)|
  {
    hide Balances, Checked, AtOwnPoints;
  }

  lemma SentAsCalled(c: Config, s: State, e: Step)
    requires Safe(c, s) && Enabled(c, s, e) && !SendsTwice(s, e) && ShapeOf(e).to == CpuOutbox
    ensures ReturnsAsCalled(Apply(c, s, e))
  {
    hide Safe, CountAfter, HistoryAfter, Sent, RepliesAfter, Residents, Given, LastIs, OperationOf, Proper, ShapeOf;
    HeadersFollowTheOutbox(e);
    ExecutesTheHead(e);
    OutboxHoldsOne(c, s, e);
    LastAfter(c, s, e);
  }

  lemma ReturnsKept(c: Config, s: State, e: Step)
    requires AllPlaced(c, s) && Safe(c, s) && Conserved(s)
    requires Enabled(c, s, e) && !SendsTwice(s, e) && !Rereads(s, e)
    ensures ReturnsAsCalled(Apply(c, s, e))
  {
    hide Safe, CountAfter, HistoryAfter, PlacesAfter, HeadersAfter, Sent, RepliesAfter, Residents, Given, ShapeOf,
         Guard, Proper, Placed, Conserved, Returned, SameHistory, HandAsTaken;
    HeadersFollowTheOutbox(e);
    if ShapeOf(e).to == CpuOutbox {
      SentAsCalled(c, s, e);
    } else if ShapeOf(e).from == CpuOutbox {
      OutboxHoldsOne(c, s, e);
      LengthAfter(c, s, e, CpuOutbox);
    } else {
      PlaceUnchanged(c, s, e, CpuOutbox);
      HeadersUnchanged(s, e);
      if |s.headers| > 0 && |At(s.at, CpuOutbox)| > 0 {
        OtherKeepsHistory(c, s, e, CpuOutbox, At(s.at, CpuOutbox)[0]);
        SameReturn(s.history, HistoryAfter(s, e), s.headers[0], At(s.at, CpuOutbox)[0]);
      }
    }
  }

  lemma HeadersUnchanged(s: State, e: Step)
    requires ShapeOf(e).from != CpuOutbox && ShapeOf(e).to != CpuOutbox
    ensures HeadersAfter(s, e) == s.headers && !SendsTwice(s, e)
  {
  }

  lemma ArrivingIsPlaced(c: Config, s: State, e: Step)
    requires AllPlaced(c, s) && Enabled(c, s, e) && Moves(e)
    ensures Placed(c, HistoryAfter(s, e), ShapeOf(e).to, Arriving(c, s, e))
  {
    hide HistoryAfter, ShapeOf, Guard, Carried, Placed, Returned, Proper, IoHandPoint, Executes;
    if Receives(e) {
      CreatedIsPlaced(c, s, e);
    } else {
      var x := ShapeOf(e).from;
      var pcb := At(s.at, x)[Index(e)];
      assert pcb in At(s.at, x);
      if Executes(e) {
        ExecutesTheHead(e);
        ExecutedIsPlaced(c, s, e, pcb);
      } else if e.Return? {
        ReturnsHandleTheHead(c, s, e);
        HandledIsPlaced(c, s, e, pcb);
      } else if e.Io? {
        if x == IoHand { LeavesTheHand(c, s, e); }
        WaitingIsPlaced(c, s, e, pcb);
      } else {
        MovedIsPlaced(c, s, e, pcb);
      }
    }
  }

  lemma CreatedIsPlaced(c: Config, s: State, e: Step)
    requires Receives(e)
    ensures Placed(c, HistoryAfter(s, e), ShapeOf(e).to, Created(c, s, e.receive))
  {
  }

  lemma ReturnsHandleTheHead(c: Config, s: State, e: Step)
    requires Enabled(c, s, e) && e.Return? && ShapeOf(e).from != Nowhere
    ensures ShapeOf(e).from == CpuOutbox && Index(e) == 0 && |s.headers| > 0 && |At(s.at, CpuOutbox)| > 0
  {
  }

  lemma LeavesTheHand(c: Config, s: State, e: Step)
    requires Enabled(c, s, e) && e.Io? && ShapeOf(e).from == IoHand
    ensures PointOf(s, IoListener).RequestSuspension?
  {
  }

  /** Every step keeps every process where its program has put it. */
  lemma PlacedKept(c: Config, s: State, e: Step)
    requires AllPlaced(c, s) && Safe(c, s) && Conserved(s)
    requires Enabled(c, s, e) && !SendsTwice(s, e) && !Rereads(s, e)
    ensures AllPlaced(c, Apply(c, s, e))
  {
    hide Safe, CountAfter, PlacesAfter, HeadersAfter, Sent, RepliesAfter, Residents, Given, HistoryAfter, ShapeOf,
         Guard, Proper, Placed, Conserved, ReturnsAsCalled, HandAsTaken, Arriving, SameHistory;
    ReturnsKept(c, s, e);
    HandKept(c, s, e);
    forall x, pcb | x != Nowhere && pcb in At(PlacesAfter(c, s, e), x) ensures Placed(c, HistoryAfter(s, e), x, pcb) {
      InPlaceAfter(c, s, e, x, pcb);
      if Moves(e) && x == ShapeOf(e).to && pcb == Arriving(c, s, e) {
        ArrivingIsPlaced(c, s, e);
      } else {
        OtherKeepsHistory(c, s, e, x, pcb);
        SamePlace(c, s.history, HistoryAfter(s, e), x, pcb);
      }
    }
  }

  // ---- Runs ---------------------------------------------------------------------------

  ghost predicate Working(c: Config, s: State) { Safe(c, s) && Conserved(s) && Numbering(s) && AllPlaced(c, s) }

  lemma WorkingKept(c: Config, s: State, e: Step)
    requires Working(c, s) && Enabled(c, s, e) && !SendsTwice(s, e) && !Overtakes(s, e)
    ensures Working(c, Apply(c, s, e))
  {
    hide Safe, Conserved, Numbering, AllPlaced, Apply, Enabled, SendsTwice, Overtakes, Rereads;
    SafeKept(c, s, e);
    ConservedKept(c, s, e);
    PlacedKept(c, s, e);
  }

  lemma {:induction false} WorkingAlways(c: Config, s: State, steps: seq<Step>)
    requires Working(c, s) && Runs(c, s, steps) && Guarded(c, s, steps) && InTurn(c, s, steps)
    ensures Working(c, After(c, s, steps))
    decreases |steps|
  {
    hide Working, Apply, Enabled, SendsTwice, Overtakes;
    if steps != [] {
      WorkingKept(c, s, steps[0]);
      WorkingAlways(c, Apply(c, s, steps[0]), steps[1..]);
    }
  }

  lemma NobodyIsPlacedInitially(c: Config)
    ensures AllPlaced(c, Initial(c))
  {
  }

  lemma Reached(c: Config, steps: seq<Step>)
    requires Runs(c, Initial(c), steps) && Guarded(c, Initial(c), steps) && InTurn(c, Initial(c), steps)
    ensures Working(c, After(c, Initial(c), steps))
  {
    hide Safe, Conserved, Numbering, AllPlaced, Initial, Runs, Guarded, InTurn, After;
    SafeInitially(c);
    ConservedInitially(c);
    NobodyIsPlacedInitially(c);
    WorkingAlways(c, Initial(c), steps);
  }

  /** The I/O a process waits for is what its last instruction asks for: when it comes back from the CPU with an I/O
      call, as long as it is in blocked_q, and after a suspension together with what io_listener slept before. */
  lemma IoIsWhatWasAsked(c: Config, steps: seq<Step>)
    requires Runs(c, Initial(c), steps) && Guarded(c, Initial(c), steps) && InTurn(c, Initial(c), steps)
    ensures var s := After(c, Initial(c), steps);
            HeaderIs(s, IoCall) && |At(s.at, CpuOutbox)| > 0 ==>
              var pcb := At(s.at, CpuOutbox)[0];
              LastIs(s.history, pcb.pid, Operation.Io) && pcb.pendingIo == Asked(s.history, pcb.pid)
    ensures var s := After(c, Initial(c), steps);
            forall pcb :: pcb in At(s.at, BlockedQ) ==>
              LastIs(s.history, pcb.pid, Operation.Io) && pcb.pendingIo == Asked(s.history, pcb.pid)
    ensures var s := After(c, Initial(c), steps);
            forall x, pcb {:trigger pcb in At(s.at, x)} ::
              (x == SuspendingHand || x == SuspendedBlockedQ || x == SleepingHand) && pcb in At(s.at, x) ==>
                && LastIs(s.history, pcb.pid, Operation.Io)
                && pcb.pid in s.history.blocked && pcb.pid in s.history.taken
                && var slept := Slept(c, s.history, pcb.pid);
                   0 <= Asked(s.history, pcb.pid) - slept < WORD ==> slept + pcb.pendingIo == Asked(s.history, pcb.pid)
  {
    hide Initial, Runs, Guarded, InTurn, After, Safe, Conserved, Numbering, LastIs, Asked, Slept;
    Reached(c, steps);
  }

  /** kernel.c:140-151 in exact numbers, while the milliseconds fit an int. */
  lemma InTimeExactly(c: Config, pcb: Pcb, since: int, now: int)
    requires pcb.blockedTime == ToU32(since)
    requires -0x8000_0000 <= c.maxBlockedTime - (now - since) - pcb.pendingIo < 0x8000_0000
    ensures InTime(c, pcb, now) <==> now + pcb.pendingIo <= since + c.maxBlockedTime
    ensures !InTime(c, pcb, now) ==>
              ToU32(pcb.pendingIo - (c.maxBlockedTime - (now - pcb.blockedTime)))
                == pcb.pendingIo - (since + c.maxBlockedTime - now)
  {
    hide ToU32, ToSigned;
    var left := c.maxBlockedTime - (now - since) - pcb.pendingIo;
    var rest := pcb.pendingIo - (since + c.maxBlockedTime - now);
    WordIsCongruent(since);
    SameSigned(c.maxBlockedTime - (now - pcb.blockedTime) - pcb.pendingIo, left);
    SameWord(pcb.pendingIo - (c.maxBlockedTime - (now - pcb.blockedTime)), rest);
    FitsAnInt(left);
    if rest > 0 { FitsAWord(rest); }
  }

  lemma WordIsCongruent(a: int)
    ensures forall x, y :: x - y == ToU32(a) - a || x - y == a - ToU32(a) ==> Congruent(x, y)
  {
  }

  lemma FitsAnInt(x: int)
    requires -0x8000_0000 <= x < 0x8000_0000
    ensures ToSigned(ToU32(x)) == x
  {
  }

  lemma FitsAWord(x: int)
    requires 0 <= x < WORD
    ensures ToU32(x) == x
  {
  }

  /** What io_listener can do with the head of blocked_q. */
  lemma TakesOneOrTheOther(c: Config, s: State, now: int)
    requires Safe(c, s) && PointOf(s, IoListener).TakeBlocked? && |At(s.at, BlockedQ)| > 0
    ensures Enabled(c, s, Step.Io(PopBlockedInTime(now))) <==> InTime(c, At(s.at, BlockedQ)[0], now)
    ensures Enabled(c, s, Step.Io(PopBlockedTooLong(now))) <==> !InTime(c, At(s.at, BlockedQ)[0], now)
    ensures At(Apply(c, s, Step.Io(PopBlockedInTime(now))).at, IoHand) == [At(s.at, BlockedQ)[0]]
    ensures var pcb := At(s.at, BlockedQ)[0];
            At(Apply(c, s, Step.Io(PopBlockedTooLong(now))).at, IoHand)
              == [pcb.(pendingIo := ToU32(pcb.pendingIo - (c.maxBlockedTime - (now - pcb.blockedTime))))]
  {
    hide Safe, InTime, CountAfter, HeadersAfter, HistoryAfter, Sent, RepliesAfter, Residents, Given;
    HandHoldsOne(c, s);
  }

  /** The suspension, over runs: io_listener leaves a process in memory exactly when the I/O it asked for ends before it
      has waited for the maximum, counted from the moment its call was handled. Otherwise it sleeps for what is left of
      the maximum, and the process has the rest still to do. */
  lemma SuspensionSplitsTheIo(c: Config, steps: seq<Step>, now: int)
    requires Runs(c, Initial(c), steps) && Guarded(c, Initial(c), steps) && InTurn(c, Initial(c), steps)
    requires var s := After(c, Initial(c), steps); PointOf(s, IoListener).TakeBlocked? && |At(s.at, BlockedQ)| > 0
    ensures var s := After(c, Initial(c), steps);
            var pid := PidAt(s.at, BlockedQ, 0);
            && pid in s.history.blocked
            && var since, asked := s.history.blocked[pid], Asked(s.history, pid);
               -0x8000_0000 <= c.maxBlockedTime - (now - since) - asked < 0x8000_0000 ==>
                 && (Enabled(c, s, Step.Io(PopBlockedInTime(now))) <==> now + asked <= since + c.maxBlockedTime)
                 && (Enabled(c, s, Step.Io(PopBlockedTooLong(now))) <==> now + asked > since + c.maxBlockedTime)
                 && (now + asked > since + c.maxBlockedTime ==>
                       var hand := At(Apply(c, s, Step.Io(PopBlockedTooLong(now))).at, IoHand);
                       |hand| == 1 && hand[0].pid == pid && hand[0].pendingIo > 0
                       && (since + c.maxBlockedTime - now) + hand[0].pendingIo == asked)
  {
    hide Initial, Runs, Guarded, InTurn, After, Safe, Conserved, Numbering, LastIs, Asked, Slept, Enabled, InTime,
         Apply, ToU32;
    Reached(c, steps);
    var s := After(c, Initial(c), steps);
    var pcb := At(s.at, BlockedQ)[0];
    assert pcb in At(s.at, BlockedQ);
    assert Placed(c, s.history, BlockedQ, pcb);
    TakesOneOrTheOther(c, s, now);
    var since := s.history.blocked[pcb.pid];
    if -0x8000_0000 <= c.maxBlockedTime - (now - since) - pcb.pendingIo < 0x8000_0000 {
      InTimeExactly(c, pcb, since, now);
    }
  }

  /** Who waits for its exit has executed EXIT, and who has executed it does nothing else. */
  lemma ExitIsForWhoExits(c: Config, steps: seq<Step>, x: Place, pcb: Pcb)
    requires Runs(c, Initial(c), steps) && Guarded(c, Initial(c), steps) && InTurn(c, Initial(c), steps)
    requires x != Nowhere && x != CpuOutbox && pcb in At(After(c, Initial(c), steps).at, x)
    ensures AwaitsExit(x) <==> LastIs(After(c, Initial(c), steps).history, pcb.pid, Operation.Exit)
  {
    hide Initial, Runs, Guarded, InTurn, After, Safe, Conserved, Numbering, LastIs;
    Reached(c, steps);
    var s := After(c, Initial(c), steps);
    assert Placed(c, s.history, x, pcb);
    OneOperation(s.history, pcb.pid);
  }

  /** The CPU gives a process back exactly when it has executed an I/O call or an exit, or an interruption was noticed
      before: with one noticed, no second instruction is executed. */
  lemma LeavesTheCpuExactly(c: Config, s: State, e: Step)
    requires Safe(c, s) && Enabled(c, s, e) && Executes(e)
    ensures var s', pid := Apply(c, s, e), PidAt(s.at, CpuRunning, 0);
            At(s'.at, CpuRunning) == [] <==>
              N(s, Interruption) > 0 || LastIs(s'.history, pid, Operation.Io) || LastIs(s'.history, pid, Operation.Exit)
  {
    hide Safe, PlacesAfter, CountAfter, HeadersAfter, HistoryAfter, Sent, RepliesAfter, Residents, Given, LastIs,
         OperationOf, Proper, Startable, Guard, ShapeOf;
    LastAfter(c, s, e);
    RunningIsOne(c, s);
    ExecutesTheHead(e);
    ExecutedMoves(c, s, e);
    YieldsOrCalls(c, s, e);
  }

  lemma ExecutedMoves(c: Config, s: State, e: Step)
    requires Enabled(c, s, e) && Executes(e) && |At(s.at, CpuRunning)| <= 1
    ensures At(PlacesAfter(c, s, e), CpuRunning) == [] <==> ShapeOf(e).to == CpuOutbox
  {
    hide Guard, Carried, ShapeOf, Proper, SendsTwice;
    ExecutesTheHead(e);
    MovesAreWhole(e);
  }

  lemma YieldsOrCalls(c: Config, s: State, e: Step)
    requires Enabled(c, s, e) && Executes(e) && CanExecute(s)
    ensures var op := OperationOf(Fetched(s).id);
            ShapeOf(e).to == CpuOutbox <==> N(s, Interruption) > 0 || op == Operation.Io || op == Operation.Exit
  {
    hide OperationOf, Fetched, CanExecute;
  }

  lemma RunningIsOne(c: Config, s: State)
    requires Safe(c, s)
    ensures |At(s.at, CpuRunning)| <= 1
  {
    hide Safe;
    CpuIsExclusive(c, s);
  }
}
