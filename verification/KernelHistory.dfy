/** What the threads and the CPU do to one process, over any number of preemptions and I/O calls: its program runs
    in order without a gap or a repetition, and its CPU bursts are measured right. */
module KernelHistory {
  import opened Processes
  import opened Kernel
  import opened KernelLaws
  import opened KernelSafety
  import opened KernelConservation

  // ---- Which PCBs a step changes ------------------------------------------------------

  /** The PCB a step creates or moves, as it arrives. */
  function Arriving(c: Config, s: State, e: Step): Pcb
    requires Receives(e) || Index(e) < |At(s.at, ShapeOf(e).from)|
  {
    if Receives(e) then Created(c, s, e.receive)
    else Carried(c, s, e, At(s.at, ShapeOf(e).from)[Index(e)])
  }

  predicate Moves(e: Step) { Receives(e) || ShapeOf(e).from != Nowhere }

  lemma InPlaceAfterMove(s: State, from: Place, i: nat, to: Place, moved: Pcb, x: Place, pcb: Pcb)
    requires from != Nowhere && i < |At(s.at, from)| && pcb in At(Put(Take(s.at, from, i), to, moved), x)
    ensures (x == to && pcb == moved) || pcb in (if x == from then Without(At(s.at, x), i) else At(s.at, x))
  {
  }

  /** After a step a PCB in place x has just arrived, or it was there before and is not the one that left. */
  lemma InPlaceAfter(c: Config, s: State, e: Step, x: Place, pcb: Pcb)
    requires Enabled(c, s, e) && x != Nowhere && pcb in At(PlacesAfter(c, s, e), x)
    ensures (Moves(e) && x == ShapeOf(e).to && pcb == Arriving(c, s, e))
         || pcb in (if x == ShapeOf(e).from then Without(At(s.at, x), Index(e)) else At(s.at, x))
  {
    hide Carried, ShapeOf, Proper, OperationOf, Take, Without;
    MovesAreWhole(e);
    HeadersFollowTheOutbox(e);
    var h := ShapeOf(e);
    if Receives(e) {
    } else if Sorts(e) {
      if x == ReadyQ { assert pcb in multiset(e.put.sorted); }
    } else if h.from != Nowhere {
      var moved := Arriving(c, s, e);
      if pcb != moved || x != h.to {
        assert pcb in At(Put(Take(s.at, h.from, Index(e)), h.to, moved), x);
        InPlaceAfterMove(s, h.from, Index(e), h.to, moved, x, pcb);
      }
    }
  }

  /** The PCB that leaves is the only one of its process. */
  lemma OthersAreOthers(at: Places, from: Place, i: nat, x: Place, pcb: Pcb)
    requires from != Nowhere && x != Nowhere && i < |At(at, from)|
    requires Copies(at, At(at, from)[i].pid) <= 1
    requires pcb in (if x == from then Without(At(at, x), i) else At(at, x))
    ensures pcb.pid != At(at, from)[i].pid
  {
    hide Copies;
    var pid := At(at, from)[i].pid;
    CopiesTake(at, from, i, pid);
    assert pcb in At(Take(at, from, i), x);
    var j :| 0 <= j < |At(Take(at, from, i), x)| && At(Take(at, from, i), x)[j] == pcb;
    CopyOf(Take(at, from, i), x, j);
  }

  // ---- Programs -----------------------------------------------------------------------

  /** The instructions executed for every process are a prefix of its program, and its PCB, wherever it is, carries
      the program unchanged and points just behind that prefix. */
  predicate TracedPcb(h: History, pcb: Pcb) {
    && pcb.pid in h.program && pcb.pid in h.executed
    && pcb.instructions == h.program[pcb.pid]
    && pcb.programCounter == |h.executed[pcb.pid]|
  }

  ghost predicate Traced(s: State) {
    && (forall pid :: pid in s.history.program ==>
          pid in s.history.executed && s.history.executed[pid] <= s.history.program[pid])
    && (forall x, pcb {:trigger pcb in At(s.at, x)} :: x != Nowhere && pcb in At(s.at, x) ==> TracedPcb(s.history, pcb))
  }

  lemma ExecutesFromRunning(c: Config, s: State, e: Step)
    requires Enabled(c, s, e) && Executes(e)
    ensures ShapeOf(e).from == CpuRunning && CanExecute(s)
  {
    hide OperationOf;
  }

  /** What is recorded of programs, and of their execution. */
  lemma ProgramsRecorded(s: State, e: Step)
    ensures var h, h' := s.history, HistoryAfter(s, e);
            if Executes(e) && CanExecute(s) then
              var pid := PidAt(s.at, CpuRunning, 0);
              && h'.program == h.program
              && h'.executed == h.executed[pid := (if pid in h.executed then h.executed[pid] else []) + [Fetched(s)]]
            else if Receives(e) then
              && h'.program == h.program[s.pid := e.receive.instructions] && h'.executed == h.executed[s.pid := []]
            else h'.program == h.program && h'.executed == h.executed
  {
    hide CanExecute, Fetched, BurstSoFar, PidAt;
  }

  lemma ArrivingIsTraced(c: Config, s: State, e: Step)
    requires Traced(s) && Enabled(c, s, e) && Moves(e)
    ensures TracedPcb(HistoryAfter(s, e), Arriving(c, s, e))
  {
    hide OperationOf, Proper, Guard, Estimate, RealBurst, ToSigned, ToU32, Traced, HistoryAfter;
    ProgramsRecorded(s, e);
    if Executes(e) { ExecutesFromRunning(c, s, e); }
    if !Receives(e) {
      var pcb := At(s.at, ShapeOf(e).from)[Index(e)];
      TracedAt(s, ShapeOf(e).from, pcb);
    }
  }

  lemma TracedAt(s: State, x: Place, pcb: Pcb)
    requires Traced(s) && x != Nowhere && pcb in At(s.at, x)
    ensures TracedPcb(s.history, pcb)
  {
  }

  lemma ProgramsKept(c: Config, s: State, e: Step)
    requires Traced(s) && Enabled(c, s, e)
    ensures var h := HistoryAfter(s, e);
            forall pid :: pid in h.program ==> pid in h.executed && h.executed[pid] <= h.program[pid]
  {
    hide OperationOf, Proper, Guard, PlacesAfter, CountAfter, HeadersAfter, Sent, RepliesAfter, Residents, HistoryAfter;
    ProgramsRecorded(s, e);
    if Executes(e) {
      ExecutesFromRunning(c, s, e);
      assert At(s.at, CpuRunning)[0] in At(s.at, CpuRunning);
    }
  }

  lemma OthersStayTraced(c: Config, s: State, e: Step, x: Place, pcb: Pcb)
    requires Traced(s) && Conserved(s) && Enabled(c, s, e) && !Rereads(s, e) && x != Nowhere
    requires pcb in (if x == ShapeOf(e).from then Without(At(s.at, x), Index(e)) else At(s.at, x))
    ensures TracedPcb(HistoryAfter(s, e), pcb)
  {
    hide OperationOf, Proper, Guard, ShapeOf, Copies, HistoryAfter;
    ProgramsRecorded(s, e);
    assert pcb in At(s.at, x);
    if Executes(e) {
      ExecutesFromRunning(c, s, e);
      OthersAreOthers(s.at, CpuRunning, 0, x, pcb);
    }
  }

  lemma TracedKept(c: Config, s: State, e: Step)
    requires Traced(s) && Conserved(s) && Enabled(c, s, e) && !Rereads(s, e)
    ensures Traced(Apply(c, s, e))
  {
    hide PlacesAfter, CountAfter, HeadersAfter, Sent, RepliesAfter, Residents, HistoryAfter, ShapeOf, Guard, Proper,
         TracedPcb, Arriving, Conserved;
    ProgramsKept(c, s, e);
    forall x, pcb | x != Nowhere && pcb in At(PlacesAfter(c, s, e), x) ensures TracedPcb(HistoryAfter(s, e), pcb) {
      InPlaceAfter(c, s, e, x, pcb);
      if Moves(e) && x == ShapeOf(e).to && pcb == Arriving(c, s, e) {
        ArrivingIsTraced(c, s, e);
      } else {
        OthersStayTraced(c, s, e, x, pcb);
      }
    }
  }

  // ---- Bursts -------------------------------------------------------------------------

  /** Equal as uint32_t values. */
  predicate Congruent(a: int, b: int) { (a - b) % WORD == 0 }

  /** The estimate less what is left of it, a subtraction of uint32_t values, is the CPU time used so far. */
  predicate MeasuredPcb(h: History, pcb: Pcb) {
    && pcb.pid in h.burst
    && Congruent(pcb.burstEstimation - pcb.leftBurst, h.burst[pcb.pid])
  }

  predicate OnCpu(x: Place) { x.CpuInbox? || x.CpuRunning? || x.CpuOutbox? }

  /** toExecTime, one variable for all processes, is the dispatch time of the process on the CPU once to_exec has read
      the clock; until then that process is the last one sent. */
  ghost predicate Timed(s: State) {
    forall x, pcb {:trigger pcb in At(s.at, x)} :: OnCpu(x) && pcb in At(s.at, x) ==>
      && pcb.pid in s.history.dispatched
      && if IsTiming(s) then pcb.pid == s.history.last else s.history.dispatched[pcb.pid] == s.toExecTime
  }

  ghost predicate Measured(s: State) {
    forall x, pcb {:trigger pcb in At(s.at, x)} :: x != Nowhere && pcb in At(s.at, x) ==>
      MeasuredPcb(s.history, pcb)
  }

  lemma PreemptedIsMeasured(pcb: Pcb, burst: int, slice: int)
    requires Congruent(pcb.burstEstimation - pcb.leftBurst, burst)
    ensures Congruent(pcb.burstEstimation - Preempted(pcb, slice).leftBurst, burst + slice)
  {
  }

  /** kernel.c:587: while a burst is shorter than 2^31 ms, real is all the CPU time of the burst, however often it was
      interrupted and even after the remainder has gone below zero in its unsigned field. */
  lemma RealBurstIsTheBurst(pcb: Pcb, burst: int, slice: int)
    requires Congruent(pcb.burstEstimation - pcb.leftBurst, burst)
    ensures Congruent(RealBurst(pcb, slice), burst + slice)
    ensures 0 <= burst + slice < 0x8000_0000 ==> RealBurst(pcb, slice) == burst + slice
  {
  }

  /** Where io_op comes between the send of to_exec and its reading of the clock, toExecTime is the one of the dispatch
      before: what is measured is right as far as the unsigned values cannot tell the two. */
  lemma StaleTime(pcb: Pcb, burst: int, dispatched: int, stale: int, now: int)
    requires Congruent(pcb.burstEstimation - pcb.leftBurst, burst) && 0 <= burst + now - dispatched < 0x8000_0000
    ensures RealBurst(pcb, now - stale) == burst + now - dispatched <==> Congruent(stale, dispatched)
  {
    RealBurstIsTheBurst(pcb, burst, now - stale);
    RealBurstIsTheBurst(pcb, burst, now - dispatched);
    if Congruent(stale, dispatched) {
      var x := pcb.burstEstimation - ToSigned(pcb.leftBurst);
      SameSigned(x + (now - stale), x + (now - dispatched));
    }
  }

  lemma SameSigned(a: int, b: int)
    requires Congruent(a, b)
    ensures ToSigned(ToU32(a)) == ToSigned(ToU32(b))
  {
  }

  /** What reaches the CPU is dispatched, what moves on the CPU was dispatched last. */
  lemma CpuTraffic(e: Step)
    ensures OnCpu(ShapeOf(e).to) ==>
              (OnCpu(ShapeOf(e).from) && e.Cpu?) || (Dispatches(e) && ShapeOf(e).from == ReadyQ)
    ensures Dispatches(e) ==> ShapeOf(e).thread == ToExec && ShapeOf(e).here == Dispatch && ShapeOf(e).from == ReadyQ
  {
  }

  lemma DispatchTimesAfter(s: State, e: Step)
    ensures var h, h' := s.history, HistoryAfter(s, e);
            && h'.dispatched == (if Dispatches(e) then h.dispatched[PidAt(s.at, ReadyQ, 0) := e.exec.now]
                                 else if ReadsTime(e) then h.dispatched[h.last := e.exec.now] else h.dispatched)
            && h'.last == if Dispatches(e) then PidAt(s.at, ReadyQ, 0) else h.last
  {
  }

  lemma TimedKept(c: Config, s: State, e: Step)
    requires Timed(s) && Enabled(c, s, e) && BalanceOf(s, CpuLaw()) == 1
    ensures Timed(Apply(c, s, e))
  {
    hide PlacesAfter, CountAfter, HeadersAfter, Sent, RepliesAfter, Residents, HistoryAfter, ShapeOf, Guard, Proper,
         BalanceOf, Carried, IsTiming;
    CpuTraffic(e);
    CpuIsNotShared(s);
    DispatchTimesAfter(s, e);
    TimingAfter(c, s, e);
    var s' := Apply(c, s, e);
    forall x, pcb | OnCpu(x) && pcb in At(PlacesAfter(c, s, e), x)
      ensures pcb.pid in s'.history.dispatched
      ensures if IsTiming(s') then pcb.pid == s'.history.last else s'.history.dispatched[pcb.pid] == s'.toExecTime
    {
      InPlaceAfter(c, s, e, x, pcb);
      if Moves(e) && x == ShapeOf(e).to && pcb == Arriving(c, s, e) {
        var leaving := At(s.at, ShapeOf(e).from)[Index(e)];
        PidIsCarried(c, s, e, leaving);
        assert leaving in At(s.at, ShapeOf(e).from);
      } else {
        assert pcb in At(s.at, x);
      }
    }
  }

  predicate Ends(e: Step) { e.Return? && (e.return_.HandleIo? || e.return_.HandleInterrupt?) }

  lemma BurstsRecorded(s: State, e: Step)
    ensures var h := s.history;
            HistoryAfter(s, e).burst
              == if Receives(e) then h.burst[s.pid := 0]
                 else if EndsBurst(e) then h.burst[PidAt(s.at, CpuOutbox, 0) := 0]
                 else if Preempts(e) then
                   h.burst[PidAt(s.at, CpuOutbox, 0) := BurstSoFar(h, PidAt(s.at, CpuOutbox, 0), e.return_.now)]
                 else h.burst
  {
    hide CanExecute, Fetched, BurstSoFar, PidAt;
  }

  lemma BurstsAfter(c: Config, s: State, e: Step, pid: nat)
    requires Enabled(c, s, e) && pid in s.history.burst
    ensures Ends(e) ==> ShapeOf(e).from == CpuOutbox
    ensures pid in HistoryAfter(s, e).burst
    ensures (Ends(e) ==> pid != PidAt(s.at, CpuOutbox, 0)) && (Receives(e) ==> pid != s.pid) ==>
              HistoryAfter(s, e).burst[pid] == s.history.burst[pid]
  {
    hide Guard, Proper, OperationOf, Startable, PidAt, HistoryAfter;
    BurstsRecorded(s, e);
  }

  lemma BurstFieldsAreCarried(c: Config, s: State, e: Step, pcb: Pcb)
    requires !Ends(e)
    ensures Carried(c, s, e, pcb).burstEstimation == pcb.burstEstimation
    ensures Carried(c, s, e, pcb).leftBurst == pcb.leftBurst
  {
    hide OperationOf;
  }

  lemma ReturnedIsMeasured(c: Config, s: State, e: Step, pcb: Pcb)
    requires Ends(e) && MeasuredPcb(s.history, pcb) && pcb.pid == PidAt(s.at, CpuOutbox, 0)
    requires pcb.pid in s.history.dispatched
    requires e.return_.HandleInterrupt? ==> s.history.dispatched[pcb.pid] == s.toExecTime
    ensures MeasuredPcb(HistoryAfter(s, e), Carried(c, s, e, pcb))
  {
    hide Estimate, RealBurst;
    if e.return_.HandleInterrupt? {
      PreemptedIsMeasured(pcb, s.history.burst[pcb.pid], e.return_.now - s.toExecTime);
    }
  }

  predicate Preempts(e: Step) { e.Return? && e.return_.HandleInterrupt? }

  lemma CreatedIsMeasured(c: Config, s: State, e: Step)
    requires Receives(e)
    ensures MeasuredPcb(HistoryAfter(s, e), Created(c, s, e.receive))
  {
  }

  lemma ArrivingIsMeasured(c: Config, s: State, e: Step)
    requires Preempts(e) ==> !IsTiming(s)
    requires Measured(s) && Timed(s) && Enabled(c, s, e) && Moves(e)
    ensures MeasuredPcb(HistoryAfter(s, e), Arriving(c, s, e))
  {
    hide Guard, Proper, ShapeOf, Carried, HistoryAfter, IsTiming;
    if Receives(e) {
      CreatedIsMeasured(c, s, e);
    } else {
      var pcb := At(s.at, ShapeOf(e).from)[Index(e)];
      assert pcb in At(s.at, ShapeOf(e).from);
      PidIsCarried(c, s, e, pcb);
      BurstsAfter(c, s, e, pcb.pid);
      if Ends(e) { ReturnedIsMeasured(c, s, e, pcb); } else { BurstFieldsAreCarried(c, s, e, pcb); }
    }
  }

  lemma OthersStayMeasured(c: Config, s: State, e: Step, x: Place, pcb: Pcb)
    requires Measured(s) && Conserved(s) && Enabled(c, s, e) && !Rereads(s, e) && x != Nowhere
    requires pcb in (if x == ShapeOf(e).from then Without(At(s.at, x), Index(e)) else At(s.at, x))
    ensures MeasuredPcb(HistoryAfter(s, e), pcb)
  {
    hide Guard, Proper, ShapeOf, Copies, HistoryAfter, OperationOf;
    assert pcb in At(s.at, x);
    BurstsAfter(c, s, e, pcb.pid);
    var i :| 0 <= i < |At(s.at, x)| && At(s.at, x)[i] == pcb;
    CopyOf(s.at, x, i);
    if Ends(e) { OthersAreOthers(s.at, CpuOutbox, 0, x, pcb); }
  }

  lemma MeasuredKept(c: Config, s: State, e: Step)
    requires Preempts(e) ==> !IsTiming(s)
    requires Measured(s) && Timed(s) && Conserved(s) && Enabled(c, s, e) && !Rereads(s, e)
    ensures Measured(Apply(c, s, e))
  {
    hide PlacesAfter, CountAfter, HeadersAfter, Sent, RepliesAfter, Residents, HistoryAfter, ShapeOf, Guard, Proper,
         MeasuredPcb, Arriving, Conserved, IsTiming;
    forall x, pcb | x != Nowhere && pcb in At(PlacesAfter(c, s, e), x) ensures MeasuredPcb(HistoryAfter(s, e), pcb) {
      InPlaceAfter(c, s, e, x, pcb);
      if Moves(e) && x == ShapeOf(e).to && pcb == Arriving(c, s, e) {
        ArrivingIsMeasured(c, s, e);
      } else {
        OthersStayMeasured(c, s, e, x, pcb);
      }
    }
  }

  // ---- Estimates ----------------------------------------------------------------------

  /** kernel.c:588: with alpha in [0, 1] the new estimate lies between the burst and the old estimate. */
  lemma EstimateIsBetween(alpha: real, burst: int, estimate: nat, lo: int, hi: int)
    requires 0.0 <= alpha <= 1.0 && 0 <= lo <= burst <= hi < WORD && lo <= estimate <= hi
    ensures lo <= Estimate(alpha, burst, estimate) <= hi
  {
    hide Blend;
    var x := Blend(alpha, burst as real, estimate as real);
    BlendIsMonotone(alpha, lo as real, burst as real, lo as real, estimate as real);
    BlendIsMonotone(alpha, burst as real, hi as real, estimate as real, hi as real);
    BlendOfOne(alpha, lo as real);
    BlendOfOne(alpha, hi as real);
    FloorWithin(x, lo, hi);
  }

  lemma FloorWithin(x: real, lo: int, hi: int)
    requires lo as real <= x <= hi as real
    ensures lo <= x.Floor <= hi
  {
  }

  lemma Scales(a: real, x: real, y: real)
    requires 0.0 <= a && x <= y
    ensures Scale(a, x) <= Scale(a, y)
  {
  }

  lemma BlendIsMonotone(alpha: real, x: real, x': real, y: real, y': real)
    requires 0.0 <= alpha <= 1.0 && x <= x' && y <= y'
    ensures Blend(alpha, x, y) <= Blend(alpha, x', y')
  {
    hide Scale;
    Scales(alpha, x, x');
    Scales(1.0 - alpha, y, y');
  }

  lemma BlendOfOne(alpha: real, x: real)
    ensures Blend(alpha, x, x) == x
  {
  }

  /** alpha weighs the burst, and the rest the old estimate. */
  lemma EstimateAtTheEnds(burst: nat, estimate: nat)
    requires burst < WORD && estimate < WORD
    ensures Estimate(1.0, burst, estimate) == burst && Estimate(0.0, burst, estimate) == estimate
  {
    assert Blend(1.0, burst as real, estimate as real) == burst as real;
    assert Blend(0.0, burst as real, estimate as real) == estimate as real;
  }

  /** kernel.c:588: the new estimate is the old one moved by alpha of the way to the burst, rounded down. */
  lemma EstimateMovesByAlpha(alpha: real, burst: int, estimate: nat)
    requires 0.0 <= alpha <= 1.0 && 0 <= burst < WORD && estimate < WORD
    ensures var e := Estimate(alpha, burst, estimate);
            e as real <= estimate as real + alpha * (burst - estimate) as real < (e + 1) as real
  {
    BlendMoves(alpha, burst, estimate);
    EstimateIsWhole(alpha, burst, estimate);
  }

  lemma BlendMoves(alpha: real, burst: int, estimate: nat)
    ensures Blend(alpha, burst as real, estimate as real) == estimate as real + alpha * (burst - estimate) as real
  {
    var x, y := burst as real, estimate as real;
    assert (burst - estimate) as real == x - y;
    assert alpha * (x - y) == alpha * x - alpha * y;
  }

  /** Nothing wraps. */
  lemma EstimateIsWhole(alpha: real, burst: int, estimate: nat)
    requires 0.0 <= alpha <= 1.0 && 0 <= burst < WORD && estimate < WORD
    ensures Estimate(alpha, burst, estimate) == Blend(alpha, burst as real, estimate as real).Floor
  {
    hide Blend;
    var x := Blend(alpha, burst as real, estimate as real);
    BlendIsMonotone(alpha, 0.0, burst as real, 0.0, estimate as real);
    BlendIsMonotone(alpha, burst as real, (WORD - 1) as real, estimate as real, (WORD - 1) as real);
    BlendOfOne(alpha, 0.0);
    BlendOfOne(alpha, (WORD - 1) as real);
    FloorWithin(x, 0, WORD - 1);
  }

  /** In whole numbers, for alpha a fraction: the weighted mean of the burst and the old estimate, rounded down. */
  lemma EstimateIsTheWeightedMean(p: nat, q: nat, burst: int, estimate: nat)
    requires 0 < q && p <= q && 0 <= burst < WORD && estimate < WORD
    ensures var e := Estimate(p as real / q as real, burst, estimate);
            q * e <= p * burst + (q - p) * estimate < q * (e + 1)
  {
    hide Estimate;
    var alpha, e := p as real / q as real, Estimate(p as real / q as real, burst, estimate);
    FractionIsWithinOne(p, q);
    EstimateMovesByAlpha(alpha, burst, estimate);
    TimesDenominator(p, q, alpha, burst - estimate, estimate, e);
    assert p * (burst - estimate) == p * burst - p * estimate;
    assert (q - p) * estimate == q * estimate - p * estimate;
  }

  lemma FractionIsWithinOne(p: nat, q: nat)
    requires 0 < q && p <= q
    ensures 0.0 <= p as real / q as real <= 1.0 && q as real * (p as real / q as real) == p as real
  {
  }

  lemma TimesDenominator(p: nat, q: nat, alpha: real, d: int, y: int, e: int)
    requires 0 < q && q as real * alpha == p as real
    requires e as real <= y as real + alpha * d as real < (e + 1) as real
    ensures q * e <= q * y + p * d < q * (e + 1)
  {
    var k, x := q as real, y as real + alpha * d as real;
    assert k * x == k * y as real + (k * alpha) * d as real == (q * y + p * d) as real;
    LessTimes(k, e as real, x, (e + 1) as real);
    assert k * e as real == (q * e) as real && k * (e + 1) as real == (q * (e + 1)) as real;
  }

  lemma LessTimes(k: real, a: real, x: real, b: real)
    requires k > 0.0 && a <= x < b
    ensures k * a <= k * x < k * b
  {
  }

  ghost predicate Estimated(s: State, lo: int, hi: int) {
    forall x, pcb {:trigger pcb in At(s.at, x)} :: x != Nowhere && pcb in At(s.at, x) ==>
        lo <= pcb.burstEstimation <= hi
  }

  predicate EndsBurst(e: Step) { e.Return? && e.return_.HandleIo? }

  /** If the step ends a burst, the burst it measures is in the interval. */
  predicate BurstWithin(s: State, e: Step, lo: int, hi: int) {
    EndsBurst(e) && |At(s.at, CpuOutbox)| > 0 ==>
      lo <= RealBurst(At(s.at, CpuOutbox)[0], e.return_.now - s.toExecTime) <= hi
  }

  lemma ArrivingIsEstimated(c: Config, s: State, e: Step, lo: int, hi: int)
    requires 0.0 <= c.alpha <= 1.0 && 0 <= lo <= c.initialEstimate <= hi < WORD
    requires Estimated(s, lo, hi) && Enabled(c, s, e) && Moves(e) && BurstWithin(s, e, lo, hi)
    ensures lo <= Arriving(c, s, e).burstEstimation <= hi
  {
    if Receives(e) {
    } else {
      hide Guard, Proper, ShapeOf, OperationOf, Estimate, RealBurst;
      var pcb := At(s.at, ShapeOf(e).from)[Index(e)];
      assert pcb in At(s.at, ShapeOf(e).from);
      if EndsBurst(e) {
        ReturnsFromTheOutbox(e);
        EstimateIsBetween(c.alpha, RealBurst(pcb, e.return_.now - s.toExecTime), pcb.burstEstimation, lo, hi);
      }
    }
  }

  lemma ReturnsFromTheOutbox(e: Step)
    requires EndsBurst(e)
    ensures ShapeOf(e).from == CpuOutbox
  {
  }

  lemma EstimatedKept(c: Config, s: State, e: Step, lo: int, hi: int)
    requires 0.0 <= c.alpha <= 1.0 && 0 <= lo <= c.initialEstimate <= hi < WORD
    requires Estimated(s, lo, hi) && Enabled(c, s, e) && BurstWithin(s, e, lo, hi)
    ensures Estimated(Apply(c, s, e), lo, hi)
  {
    hide PlacesAfter, CountAfter, HeadersAfter, Sent, RepliesAfter, Residents, HistoryAfter, ShapeOf, Guard, Proper,
         Arriving, BurstWithin;
    forall x, pcb | x != Nowhere && pcb in At(PlacesAfter(c, s, e), x) ensures lo <= pcb.burstEstimation <= hi {
      InPlaceAfter(c, s, e, x, pcb);
      if Moves(e) && x == ShapeOf(e).to && pcb == Arriving(c, s, e) {
        ArrivingIsEstimated(c, s, e, lo, hi);
      } else {
        assert pcb in At(s.at, x);
      }
    }
  }

  ghost predicate BurstsWithin(c: Config, s: State, steps: seq<Step>, lo: int, hi: int)
    decreases |steps|
  {
    steps == [] || (BurstWithin(s, steps[0], lo, hi) && BurstsWithin(c, Apply(c, s, steps[0]), steps[1..], lo, hi))
  }

  /** Estimates never leave an interval that contains the initial estimate and every burst of the run. */
  lemma {:induction false} EstimatesStayWithin(c: Config, s: State, steps: seq<Step>, lo: int, hi: int)
    requires 0.0 <= c.alpha <= 1.0 && 0 <= lo <= c.initialEstimate <= hi < WORD
    requires Estimated(s, lo, hi) && Runs(c, s, steps) && BurstsWithin(c, s, steps, lo, hi)
    ensures Estimated(After(c, s, steps), lo, hi)
    decreases |steps|
  {
    hide Apply, Enabled, Estimated, BurstWithin;
    if steps != [] {
      EstimatedKept(c, s, steps[0], lo, hi);
      EstimatesStayWithin(c, Apply(c, s, steps[0]), steps[1..], lo, hi);
    }
  }

  /** Estimates are uint32_t values. */
  lemma EstimatesAreWords(c: Config, s: State, e: Step)
    requires c.initialEstimate < WORD && Estimated(s, 0, WORD - 1) && Enabled(c, s, e)
    ensures Estimated(Apply(c, s, e), 0, WORD - 1)
  {
    hide PlacesAfter, CountAfter, HeadersAfter, Sent, RepliesAfter, Residents, HistoryAfter, ShapeOf, Guard, Proper,
         Arriving;
    forall x, pcb | x != Nowhere && pcb in At(PlacesAfter(c, s, e), x) ensures 0 <= pcb.burstEstimation <= WORD - 1 {
      InPlaceAfter(c, s, e, x, pcb);
      if Moves(e) && x == ShapeOf(e).to && pcb == Arriving(c, s, e) {
        ArrivingFits(c, s, e);
      } else {
        assert pcb in At(s.at, x);
      }
    }
  }

  lemma ArrivingFits(c: Config, s: State, e: Step)
    requires c.initialEstimate < WORD && Estimated(s, 0, WORD - 1) && Enabled(c, s, e) && Moves(e)
    ensures Arriving(c, s, e).burstEstimation < WORD
  {
    if !Receives(e) {
      hide Guard, Proper, ShapeOf, OperationOf, Blend, RealBurst;
      assert At(s.at, ShapeOf(e).from)[Index(e)] in At(s.at, ShapeOf(e).from);
    }
  }

  lemma {:induction false} EstimatesStayWords(c: Config, s: State, steps: seq<Step>)
    requires c.initialEstimate < WORD && Estimated(s, 0, WORD - 1) && Runs(c, s, steps)
    ensures Estimated(After(c, s, steps), 0, WORD - 1)
    decreases |steps|
  {
    hide Apply, Enabled, Estimated;
    if steps != [] {
      EstimatesAreWords(c, s, steps[0]);
      EstimatesStayWords(c, Apply(c, s, steps[0]), steps[1..]);
    }
  }

  // ---- Runs ---------------------------------------------------------------------------

  ghost predicate Faithful(c: Config, s: State) {
    Safe(c, s) && Conserved(s) && Numbering(s) && Traced(s) && Timed(s) && Measured(s)
  }

  lemma FaithfulInitially(c: Config)
    ensures Faithful(c, Initial(c))
  {
    hide Safe, Conserved, Numbering;
    SafeInitially(c);
    ConservedInitially(c);
  }

  lemma FaithfulKept(c: Config, s: State, e: Step)
    requires Faithful(c, s) && Enabled(c, s, e) && !SendsTwice(s, e) && !Overtakes(s, e)
    ensures Faithful(c, Apply(c, s, e))
  {
    hide Conserved, Numbering, Traced, Timed, Measured, Apply, Enabled, SendsTwice, Overtakes, Rereads, BalanceOf,
         Checked, Messages, AtOwnPoints;
    SafeKept(c, s, e);
    ConservedKept(c, s, e);
    TracedKept(c, s, e);
    TimedKept(c, s, e);
    if Preempts(e) { PreemptedAreTimed(c, s, e); }
    MeasuredKept(c, s, e);
  }

  lemma {:induction false} FaithfulAlways(c: Config, s: State, steps: seq<Step>)
    requires Faithful(c, s) && Runs(c, s, steps) && Guarded(c, s, steps) && InTurn(c, s, steps)
    ensures Faithful(c, After(c, s, steps))
    decreases |steps|
  {
    hide Faithful, Apply, Enabled, SendsTwice, Overtakes;
    if steps != [] {
      FaithfulKept(c, s, steps[0]);
      FaithfulAlways(c, Apply(c, s, steps[0]), steps[1..]);
    }
  }

  /** Preemption transparency: whatever interrupts and I/O calls a run contains, the instructions executed for a process
      are a prefix of the program it was created with. */
  lemma ProgramsRunInOrder(c: Config, steps: seq<Step>, pid: nat)
    requires Runs(c, Initial(c), steps) && Guarded(c, Initial(c), steps) && InTurn(c, Initial(c), steps)
    ensures var h := After(c, Initial(c), steps).history;
            pid in h.program ==> pid in h.executed && h.executed[pid] <= h.program[pid]
  {
    hide Initial, Runs, Guarded, InTurn, After, Safe, Conserved, Numbering, Timed, Measured;
    FaithfulInitially(c);
    FaithfulAlways(c, Initial(c), steps);
  }

  /** Burst accounting: when a process calls for I/O and to_exec has read the clock, the burst the kernel measures is
      all the CPU time between its dispatches and its returns since the last I/O, over any number of preemptions. */
  lemma IoMeasuresTheBurst(c: Config, steps: seq<Step>, now: int)
    requires Runs(c, Initial(c), steps) && Guarded(c, Initial(c), steps) && InTurn(c, Initial(c), steps)
    requires |At(After(c, Initial(c), steps).at, CpuOutbox)| > 0 && !IsTiming(After(c, Initial(c), steps))
    ensures var s := After(c, Initial(c), steps);
            var pcb := At(s.at, CpuOutbox)[0];
            var burst := BurstSoFar(s.history, pcb.pid, now);
            0 <= burst < 0x8000_0000 ==> RealBurst(pcb, now - s.toExecTime) == burst
  {
    hide Initial, Runs, Guarded, InTurn, After, Faithful, RealBurst, IsTiming;
    FaithfulInitially(c);
    FaithfulAlways(c, Initial(c), steps);
    ReturnIsMeasured(c, After(c, Initial(c), steps), now);
  }

  /** What io_op measures, to_exec having read the clock or not. */
  lemma ReturnIsMeasured(c: Config, s: State, now: int)
    requires Faithful(c, s) && |At(s.at, CpuOutbox)| > 0
    ensures var pcb := At(s.at, CpuOutbox)[0];
            var burst := BurstSoFar(s.history, pcb.pid, now);
            && pcb.pid in s.history.dispatched
            && (if IsTiming(s) then pcb.pid == s.history.last else s.history.dispatched[pcb.pid] == s.toExecTime)
            && (0 <= burst < 0x8000_0000 ==>
                  (RealBurst(pcb, now - s.toExecTime) == burst <==>
                      Congruent(s.toExecTime, s.history.dispatched[pcb.pid])))
  {
    hide Safe, Conserved, Numbering, Traced, RealBurst, IsTiming;
    var pcb := At(s.at, CpuOutbox)[0];
    assert pcb in At(s.at, CpuOutbox);
    var burst := BurstSoFar(s.history, pcb.pid, now);
    if 0 <= burst < 0x8000_0000 {
      StaleTime(pcb, s.history.burst[pcb.pid], s.history.dispatched[pcb.pid], s.toExecTime, now);
    }
  }

  lemma IoIsQueued(c: Config, s: State, now: int)
    requires Enabled(c, s, Return(HandleIo(now)))
    ensures |At(s.at, CpuOutbox)| > 0
    ensures At(Apply(c, s, Return(HandleIo(now))).at, BlockedQ)
         == At(s.at, BlockedQ) + [Reestimated(c, At(s.at, CpuOutbox)[0], s.toExecTime, now)]
  {
    hide Reestimated, CountAfter, HeadersAfter, HistoryAfter, Sent, RepliesAfter, Residents, Given;
  }

  /** The estimate an I/O call leaves: the old one, moved by alpha of the way to the burst the process has had on the
      CPU, over any number of preemptions, and rounded down. */
  lemma IoReestimates(c: Config, steps: seq<Step>, now: int)
    requires 0.0 <= c.alpha <= 1.0 && c.initialEstimate < WORD
    requires Runs(c, Initial(c), steps) && Guarded(c, Initial(c), steps) && InTurn(c, Initial(c), steps)
    requires Enabled(c, After(c, Initial(c), steps), Return(HandleIo(now))) && !IsTiming(After(c, Initial(c), steps))
    ensures var s := After(c, Initial(c), steps);
            var s' := Apply(c, s, Return(HandleIo(now)));
            && |At(s.at, CpuOutbox)| > 0 && |At(s'.at, BlockedQ)| == |At(s.at, BlockedQ)| + 1
            && At(s'.at, BlockedQ)[..|At(s.at, BlockedQ)|] == At(s.at, BlockedQ)
            && var before, after := At(s.at, CpuOutbox)[0], At(s'.at, BlockedQ)[|At(s.at, BlockedQ)|];
               var burst, e := BurstSoFar(s.history, before.pid, now), after.burstEstimation;
               && after.pid == before.pid && after.leftBurst == e
               && (0 <= burst < 0x8000_0000 ==>
                     var mean := before.burstEstimation as real + c.alpha * (burst - before.burstEstimation) as real;
                     e as real <= mean < (e + 1) as real)
  {
    hide Initial, Runs, Guarded, InTurn, After, Enabled, Apply, RealBurst, IsTiming, Estimate, BurstSoFar;
    var s := After(c, Initial(c), steps);
    IoIsQueued(c, s, now);
    IoMeasuresTheBurst(c, steps, now);
    EstimatesStartAsWords(c);
    EstimatesStayWords(c, Initial(c), steps);
    var before := At(s.at, CpuOutbox)[0];
    assert before in At(s.at, CpuOutbox);
    var burst := BurstSoFar(s.history, before.pid, now);
    if 0 <= burst < 0x8000_0000 { EstimateMovesByAlpha(c.alpha, burst, before.burstEstimation); }
  }

  lemma EstimatesStartAsWords(c: Config)
    ensures Estimated(Initial(c), 0, WORD - 1)
  {
  }

  // ---- A clock that goes on -----------------------------------------------------------

  /** Since toExecTime was read the clock has gone on, by less than the 2^32 ms that unsigned values can tell. */
  predicate Ticks(s: State, e: Step) { Dispatches(e) ==> 0 < e.exec.now - s.toExecTime < WORD }

  ghost predicate Ticking(c: Config, s: State, steps: seq<Step>)
    requires Runs(c, s, steps)
    decreases |steps|
  {
    steps == [] || (Ticks(s, steps[0]) && Ticking(c, Apply(c, s, steps[0]), steps[1..]))
  }

  predicate Ticked(s: State) {
    var h := s.history;
    IsTiming(s) ==> h.last in h.dispatched && 0 < h.dispatched[h.last] - s.toExecTime < WORD
  }

  lemma TickedKept(c: Config, s: State, e: Step)
    requires Ticked(s) && Enabled(c, s, e) && Ticks(s, e)
    ensures Ticked(Apply(c, s, e))
  {
    hide PlacesAfter, CountAfter, HeadersAfter, HistoryAfter, Sent, RepliesAfter, Residents, Given, ShapeOf, Guard,
         Proper, IsTiming;
    DispatchTimesAfter(s, e);
    TimingAfter(c, s, e);
  }

  lemma {:induction false} TickedAlways(c: Config, s: State, steps: seq<Step>)
    requires Ticked(s) && Runs(c, s, steps) && Ticking(c, s, steps)
    ensures Ticked(After(c, s, steps))
    decreases |steps|
  {
    hide Ticked, Ticks, Apply, Enabled;
    if steps != [] {
      TickedKept(c, s, steps[0]);
      TickedAlways(c, Apply(c, s, steps[0]), steps[1..]);
    }
  }

  /** The exact interleaving: with a clock that goes on, an I/O call measures its burst right if and only if io_op
      does not come between the send of to_exec and its reading of the clock. */
  lemma IoMeasuresExactly(c: Config, steps: seq<Step>, now: int)
    requires Runs(c, Initial(c), steps) && Guarded(c, Initial(c), steps) && InTurn(c, Initial(c), steps)
    requires Ticking(c, Initial(c), steps) && |At(After(c, Initial(c), steps).at, CpuOutbox)| > 0
    ensures var s := After(c, Initial(c), steps);
            var pcb := At(s.at, CpuOutbox)[0];
            var burst := BurstSoFar(s.history, pcb.pid, now);
            0 <= burst < 0x8000_0000 ==> (RealBurst(pcb, now - s.toExecTime) == burst <==> !IsTiming(s))
  {
    hide Initial, Runs, Guarded, InTurn, Ticking, After, Faithful, RealBurst, IsTiming;
    FaithfulInitially(c);
    FaithfulAlways(c, Initial(c), steps);
    TickedInitially(c);
    TickedAlways(c, Initial(c), steps);
    ReturnIsMeasured(c, After(c, Initial(c), steps), now);
  }

  lemma TickedInitially(c: Config)
    ensures Ticked(Initial(c))
  {
  }
}
