/** put_to_ready can wait for ever: it holds execution_mutex and waits for the CPU to give a process back, but the CPU
    has none to give (kernel/src/kernel.c:412-421). It can come to that because exit_op and io_op give cpu_free back
    after they have passed the process on, and because to_exec takes cpu_free before it asks for the mutex. */
module KernelDeadlock {
  import opened Processes
  import opened Kernel
  import opened KernelLaws
  import opened KernelSafety
  import opened KernelConservation
  import opened KernelHistory
  import opened KernelReach

  /** No process is on its way to the CPU or with it. */
  predicate CpuIsIdle(s: State) { |At(s.at, CpuInbox)| == 0 && |At(s.at, CpuRunning)| == 0 }

  /** put_to_ready, called by t, waits for an answer to its interruption, which is on its way to an idle CPU or
      noticed by it. */
  predicate Stuck(s: State, t: Thread) {
    PointOf(s, t) == AwaitInterrupt(t) && N(s, InterruptWire) + N(s, Interruption) > 0 && CpuIsIdle(s)
  }

  // ---- It lasts for ever --------------------------------------------------------------

  /** How a thread leaves this point, */
  lemma WayOut(e: Step, t: Thread)
    requires Proper(e)
    ensures ShapeOf(e).here == AwaitInterrupt(t) ==> ShapeOf(e).wait == InterruptReady
  {
  }

  /** what takes an interruption, */
  lemma InterruptionsGoTo(e: Step)
    ensures ShapeOf(e).wait == Interruption ==> ShapeOf(e).from == CpuRunning
    ensures ShapeOf(e).wait == InterruptWire ==> e == Cpu(CpuInterruptedAgain) || ShapeOf(e).post == Interruption
    ensures ShapeOf(e).post == Interruption ==> ShapeOf(e).wait == InterruptWire
  {
  }

  /** and how a process gets to the CPU. */
  lemma WayToTheCpu(e: Step)
    ensures ShapeOf(e).to == CpuInbox ==> ShapeOf(e).wait == MutexFree
    ensures ShapeOf(e).to == CpuRunning ==> ShapeOf(e).from == CpuInbox || ShapeOf(e).from == CpuRunning
  {
  }

  lemma MutexIsTaken(c: Config, s: State, t: Thread)
    requires Safe(c, s) && Stuck(s, t)
    ensures N(s, MutexFree) == 0 && N(s, InterruptReady) == 0 && N(s, InterruptWire) + N(s, Interruption) == 1
  {
    hide BalanceOf, Checked, AtOwnPoints;
    InterruptsHoldTheMutex(s);
  }

  lemma AgainNeedsTwo(c: Config, s: State, e: Step)
    requires Enabled(c, s, e) && e == Cpu(CpuInterruptedAgain)
    ensures N(s, InterruptWire) > 0 && N(s, Interruption) > 0
  {
  }

  lemma StuckKept(c: Config, s: State, e: Step, t: Thread)
    requires Safe(c, s) && Stuck(s, t) && Enabled(c, s, e)
    ensures Stuck(Apply(c, s, e), t) && !SendsTwice(s, e) && !Executes(e)
  {
    hide Safe, ShapeOf, Guard, Proper, PlacesAfter, CountAfter, HeadersAfter, HistoryAfter, Sent, RepliesAfter,
         Residents, Given, N, PointOf;
    MutexIsTaken(c, s, t);
    CpuSteps(e);
    WayOut(e, t);
    InterruptionsGoTo(e);
    WayToTheCpu(e);
    PointsAndCounters(c, s, e);
    if e == Cpu(CpuInterruptedAgain) { AgainNeedsTwo(c, s, e); }
    PlaceUnchanged(c, s, e, CpuInbox);
    PlaceUnchanged(c, s, e, CpuRunning);
  }

  lemma CpuSteps(e: Step)
    ensures Executes(e) ==> ShapeOf(e).from == CpuRunning
  {
  }

  /** Whatever the other threads, the CPU and memory do, put_to_ready never goes on, and no instruction is executed
      any more. */
  lemma {:induction false} StuckForEver(c: Config, s: State, steps: seq<Step>, t: Thread)
    requires Safe(c, s) && Stuck(s, t) && Runs(c, s, steps)
    ensures Stuck(After(c, s, steps), t)
    ensures forall e :: e in steps ==> !Executes(e)
    decreases |steps|
  {
    hide Safe, Stuck, Apply, Enabled, SendsTwice, Executes;
    if steps != [] {
      StuckKept(c, s, steps[0], t);
      SafeKept(c, s, steps[0]);
      StuckForEver(c, Apply(c, s, steps[0]), steps[1..], t);
      assert steps == [steps[0]] + steps[1..];
    }
  }

  // ---- How it comes to that -----------------------------------------------------------

  predicate SendsInterruption(e: Step, t: Thread) { e == PutToReady(t, CheckBusy) }

  predicate CallsFromTheCpu(e: Step) { e.Cpu? && (e.cpu.ExecuteIo? || e.cpu.ExecuteExit?) }

  /** The steps that lead to AwaitInterrupt, send an interruption, */
  lemma WayIn(e: Step, t: Thread)
    requires Proper(e)
    ensures ShapeOf(e).thread == t && ShapeOf(e).next == AwaitInterrupt(t) <==> SendsInterruption(e, t)
    ensures ShapeOf(e).post == InterruptWire <==> e.PutToReady? && SendsInterruption(e, e.t)
    ensures e.PutToReady? && SendsInterruption(e, e.t) ==>
              var h := ShapeOf(e);
              h.thread == e.t && h.here == Check(e.t) && h.from == Nowhere && h.to == Nowhere && h.wait == Nothing
  {
  }

  /** or take a process away from the CPU. */
  lemma WayFromTheCpu(e: Step)
    ensures ShapeOf(e).from == CpuInbox ==> ShapeOf(e).to == CpuRunning
    ensures ShapeOf(e).from == CpuRunning ==>
        ShapeOf(e).to == CpuRunning || CallsFromTheCpu(e) || e == Cpu(ExecuteYield)
    ensures e == Cpu(ExecuteYield) ==> ShapeOf(e).wait == Interruption && ShapeOf(e).post == Nothing
    ensures CallsFromTheCpu(e) ==>
              var h := ShapeOf(e);
              h.thread == Handlers && h.here == Anywhere && h.from == CpuRunning && h.to == CpuOutbox
                  && h.wait == Nothing && h.post == Nothing
  {
  }

  /** Only one put_to_ready is inside its critical section. */
  lemma OneIsInside(s: State, t: Thread, u: Thread)
    requires BalanceOf(s, MutexLaw()) == 1 && t != u
    requires PointOf(s, t).AwaitInterrupt?
    ensures !PointOf(s, u).Check?
  {
    hide BalanceOf;
    AtLeast(s, MutexLaw(), MutexFree, t, u);
    NothingInPlaces(s.at);
    CounterTermsAreNonNegative(s.count, MutexLaw(), MutexFree);
  }

  lemma InsideAlone(c: Config, s: State, t: Thread, u: Thread)
    requires Safe(c, s) && t != u && PointOf(s, t).AwaitInterrupt?
    ensures !PointOf(s, u).Check?
  {
    hide BalanceOf, Checked, Messages, AtOwnPoints;
    OneIsInside(s, t, u);
  }

  lemma OneInterruption(c: Config, s: State)
    requires Safe(c, s)
    ensures N(s, InterruptWire) + N(s, Interruption) <= 1
  {
    hide BalanceOf, Checked, AtOwnPoints;
    InterruptsHoldTheMutex(s);
  }

  lemma CpuHasOneAtMost(c: Config, s: State)
    requires Safe(c, s)
    ensures |At(s.at, CpuInbox)| + |At(s.at, CpuRunning)| <= 1
  {
    hide Safe;
    CpuIsExclusive(c, s);
  }

  /** A CPU that gets idle. */
  lemma GetsIdle(c: Config, s: State, e: Step)
    requires Safe(c, s) && Enabled(c, s, e) && !SendsTwice(s, e)
    ensures !CpuIsIdle(s) && CpuIsIdle(Apply(c, s, e)) ==> CallsFromTheCpu(e) || e == Cpu(ExecuteYield)
    ensures CallsFromTheCpu(e) ==> CpuIsIdle(Apply(c, s, e)) && N(s, Interruption) == 0
    ensures ShapeOf(e).from == Nowhere && ShapeOf(e).to == Nowhere && !Sorts(e) ==>
        (CpuIsIdle(Apply(c, s, e)) <==> CpuIsIdle(s))
  {
    hide Safe, ShapeOf, Guard, Proper, PlacesAfter, CountAfter, HeadersAfter, HistoryAfter, Sent, RepliesAfter,
         Residents, Given, N, PointOf;
    CpuHasOneAtMost(c, s);
    WayFromTheCpu(e);
    LengthAfter(c, s, e, CpuInbox);
    LengthAfter(c, s, e, CpuRunning);
  }

  /** The exact steps: put_to_ready gets stuck when it interrupts a CPU that is idle already and has not given back
      cpu_free, and when an I/O call or an exit executes before the CPU has noticed the interruption. */
  lemma StuckBegins(c: Config, s: State, e: Step, t: Thread)
    requires Safe(c, s) && Enabled(c, s, e) && !SendsTwice(s, e) && !Stuck(s, t)
    ensures Stuck(Apply(c, s, e), t) <==>
              || (SendsInterruption(e, t) && CpuIsIdle(s))
              || (PointOf(s, t) == AwaitInterrupt(t) && N(s, InterruptWire) > 0 && CallsFromTheCpu(e))
  {
    hide Safe, ShapeOf, Guard, Proper, Apply, N, PointOf, CpuIsIdle, SendsTwice;
    WayIn(e, t);
    WayOut(e, t);
    WayFromTheCpu(e);
    InterruptionsGoTo(e);
    GetsIdle(c, s, e);
    OneInterruption(c, s);
    PointsAndCounters(c, s, e);
    if e.PutToReady? && SendsInterruption(e, e.t) && e.t != t && PointOf(s, t) == AwaitInterrupt(t) {
      InsideAlone(c, s, t, e.t);
    }
  }

  // ---- Where it can happen ------------------------------------------------------------

  /** A run, whatever it is like otherwise, comes to that. */
  ghost predicate GetsStuck(c: Config, steps: seq<Step>, t: Thread) {
    Runs(c, Initial(c), steps) && Stuck(After(c, Initial(c), steps), t)
  }

  lemma AwaitingIsAdmitted(c: Config, s: State, t: Thread)
    requires Safe(c, s) && PointOf(s, t) == AwaitInterrupt(t)
    ensures |At(s.at, ReadyQ)| > 0 && c.multiprogrammingLevel > 0
  {
    hide Balances, Checked, Messages, BalanceOf;
    assert Owns(t, PointOf(s, t));
    AwaitingHasAPcb(c, s, t);
    CreditsAreConserved(c, s);
  }

  lemma NeverUnderFifo(c: Config, s: State, t: Thread)
    requires Safe(c, s) && !c.srt
    ensures !Stuck(s, t)
  {
    if Stuck(s, t) {
      hide BalanceOf, Checked, AtOwnPoints, Stuck;
      MutexIsTaken(c, s, t);
      InterruptsHoldTheMutex(s);
    }
  }

  /** The first process exits; its credit is back before cpu_free is, and a second process is put into ready_q. */
  lemma ComesToWait(c: Config) returns (s: State)
    requires c.srt && c.multiprogrammingLevel > 0
    ensures Reached(c, s) && Stuck(s, ToReady)
  {
    hide Reached, ViewOf, DeparturesOf, Vacant, NewPcb, NextIs, ExitProgram, N, PointOf, At;
    var p := NewPcb(c, 1, ExitProgram());
    s := FirstToDispatch(c, ExitProgram());
    s := Dispatched(c, s, p);
    ExitStarts(c);
    s := Gone(c, s, p);
    s := Readied(c, s, []);
    s := InterruptionSent(c, s);
    IsAsSeen(s);
  }

  /** The exact condition: a run can come to that if and only if the algorithm is SRT and the level has room for a
      process. */
  lemma DeadlocksExactly(c: Config)
    ensures (exists steps, t :: GetsStuck(c, steps, t)) <==> c.srt && c.multiprogrammingLevel > 0
  {
    hide Runs, Guarded, InTurn, Ticking, After, Initial, Safe, Stuck;
    if c.srt && c.multiprogrammingLevel > 0 {
      var s := ComesToWait(c);
      var steps :| Regular(c, Initial(c), steps) && After(c, Initial(c), steps) == s;
      assert GetsStuck(c, steps, ToReady);
    } else {
      SafeInitially(c);
      forall steps, t | Runs(c, Initial(c), steps) ensures !GetsStuck(c, steps, t) {
        NeverPreemptsIsGuarded(c, Initial(c), steps);
        SafeAlways(c, Initial(c), steps);
        NeverSticks(c, After(c, Initial(c), steps), t);
      }
    }
  }

  lemma NeverSticks(c: Config, s: State, t: Thread)
    requires Safe(c, s) && !(c.srt && c.multiprogrammingLevel > 0)
    ensures !Stuck(s, t)
  {
    hide Safe;
    if !c.srt { NeverUnderFifo(c, s, t); } else if Stuck(s, t) { AwaitingIsAdmitted(c, s, t); }
  }

  // ---- to_exec waits too --------------------------------------------------------------

  /** to_exec has the token of the CPU and waits for the mutex. */
  predicate Crossed(s: State, t: Thread) { Stuck(s, t) && PointOf(s, ToExec) == Dispatch }

  ghost predicate GetsCrossed(c: Config, steps: seq<Step>, t: Thread) {
    Runs(c, Initial(c), steps) && Crossed(After(c, Initial(c), steps), t)
  }

  /** The process to dispatch and the one put into ready_q are two. */
  lemma CrossedNeedsTwo(c: Config, s: State, t: Thread)
    requires Safe(c, s) && Crossed(s, t)
    ensures |At(s.at, ReadyQ)| >= 2
  {
    hide BalanceOf, Checked, Messages, AtOwnPoints, Tally, CounterTerm, ThreadTerm, ReadyLaw, Units;
    ReadyWeights(s, t);
    AtLeast(s, ReadyLaw(), ReadyForExec, t, ToExec);
    CounterTermsAreNonNegative(s.count, ReadyLaw(), ReadyForExec);
  }

  lemma ReadyWeights(s: State, t: Thread)
    requires PointOf(s, t) == AwaitInterrupt(t) && PointOf(s, ToExec) == Dispatch
    ensures ThreadTerm(s.point, ReadyLaw())(t) == 1 && ThreadTerm(s.point, ReadyLaw())(ToExec) == 1
    ensures Tally(s.at, ReadyLaw(), All()) == -|At(s.at, ReadyQ)| && forall p :: ReadyLaw().point(p) >= 0
  {
    hide Tally;
    TallyOfTwo(s.at, ReadyLaw(), ReadyQ, ReadyQ);
  }

  lemma NeverPreemptsNeverCrosses(c: Config, s: State, t: Thread)
    requires NeverPreempts(c) && Safe(c, s)
    ensures !Crossed(s, t)
  {
    if Crossed(s, t) {
      hide Safe, Admitted, Stuck;
      NeverUnderFifoIsSrt(c, s, t);
      CrossedNeedsTwo(c, s, t);
      CreditsAreConserved(c, s);
      ReadyIsAdmitted(s.at);
    }
  }

  lemma NeverUnderFifoIsSrt(c: Config, s: State, t: Thread)
    requires Safe(c, s) && Stuck(s, t)
    ensures c.srt
  {
    hide Safe, Stuck;
    if !c.srt { NeverUnderFifo(c, s, t); }
  }

  lemma ReadyIsAdmitted(at: Places)
    ensures Admitted(at) >= |At(at, ReadyQ)|
  {
  }

  /** to_exec has taken its tokens for the first process when another one comes. */
  lemma ComesAcross(c: Config) returns (s: State)
    requires !NeverPreempts(c)
    ensures Reached(c, s) && Crossed(s, ToReady)
  {
    hide Reached, ViewOf, DeparturesOf, Vacant, N, PointOf, At;
    s := FirstToDispatch(c, []);
    s := Readied(c, s, []);
    s := InterruptionSent(c, s);
    IsAsSeen(s);
  }

  /** That needs room for two. */
  lemma CrossesExactly(c: Config)
    ensures (exists steps, t :: GetsCrossed(c, steps, t)) <==> !NeverPreempts(c)
  {
    hide Runs, Guarded, InTurn, Ticking, After, Initial, Safe, Crossed;
    if !NeverPreempts(c) {
      var s := ComesAcross(c);
      var steps :| Regular(c, Initial(c), steps) && After(c, Initial(c), steps) == s;
      assert GetsCrossed(c, steps, ToReady);
    } else {
      SafeInitially(c);
      forall steps, t | Runs(c, Initial(c), steps) ensures !GetsCrossed(c, steps, t) {
        NeverPreemptsIsGuarded(c, Initial(c), steps);
        SafeAlways(c, Initial(c), steps);
        NeverPreemptsNeverCrosses(c, After(c, Initial(c), steps), t);
      }
    }
  }
}
