/** The double send of cpu/src/cpu.c:217-225 is within reach: a run of the scheduler under SRT, guarded all along,
    comes to an I/O call with an interruption pending, and the step that executes it puts one process in two
    places. */
module KernelPreemption {
  import opened Processes
  import opened Kernel
  import opened KernelLaws
  import opened KernelSafety
  import opened KernelConservation
  import opened KernelHistory
  import opened KernelReach

  /** Two processes, the first of which starts with an I/O call: it is on the CPU, and an interruption is pending. */
  lemma CallIsInterrupted(c: Config) returns (s: State)
    requires c.srt && c.multiprogrammingLevel >= 2
    ensures Reached(c, s) && N(s, Interruption) == 1 && At(s.at, CpuRunning) == [NewPcb(c, 1, IoProgram())]
    ensures PointOf(s, Handlers) == Anywhere
  {
    hide Reached, Vacant, DeparturesOf, ViewOf, NewPcb, IoProgram;
    s := FirstToDispatch(c, IoProgram());
    s := Dispatched(c, s, NewPcb(c, 1, IoProgram()));
    s := Readied(c, s, []);
    s := Interrupted(c, s);
    IsAsSeen(s);
  }

  lemma CallMayExecute(c: Config, s: State)
    requires At(s.at, CpuRunning) == [NewPcb(c, 1, IoProgram())] && PointOf(s, Handlers) == Anywhere
    requires N(s, Interruption) == 1
    ensures Enabled(c, s, Cpu(ExecuteIo)) && SendsTwice(s, Cpu(ExecuteIo))
  {
    IoStarts(c);
  }

  lemma ReachedIsConserved(c: Config, s: State)
    requires Reached(c, s)
    ensures Conserved(s)
  {
    hide Runs, Guarded, InTurn, Ticking, After, Initial, Conserved, Numbering;
    var steps :| Regular(c, Initial(c), steps) && After(c, Initial(c), steps) == s;
    ConservedInitially(c);
    ConservedAlways(c, Initial(c), steps);
  }

  /** Under SRT with room for two processes the scheduler, guarded so far, comes to a state from which the CPU
      executes an I/O call and leaves process 1 in two places. */
  lemma SrtDuplicatesAProcess(c: Config) returns (s: State)
    requires c.srt && c.multiprogrammingLevel >= 2
    ensures Reached(c, s) && Enabled(c, s, Cpu(ExecuteIo)) && SendsTwice(s, Cpu(ExecuteIo))
    ensures Copies(s.at, 1) == 1 && Copies(Apply(c, s, Cpu(ExecuteIo)).at, 1) == 2
  {
    hide Reached, Enabled, SendsTwice, Copies, PlacesAfter, CountAfter, HeadersAfter, HistoryAfter, Sent, RepliesAfter,
         Residents;
    s := CallIsInterrupted(c);
    CallMayExecute(c, s);
    ReachedIsConserved(c, s);
    CopyOf(s.at, CpuRunning, 0);
    assert Copies(s.at, 1) == 1;
    CopiesAfter(c, s, Cpu(ExecuteIo), 1);
  }

  // ---- Which configurations are free of it --------------------------------------------

  lemma {:induction false} OneMoreThatSendsTwice(c: Config, s: State, steps: seq<Step>, e: Step)
    requires Runs(c, s, steps) && InTurn(c, s, steps)
    requires Enabled(c, After(c, s, steps), e) && SendsTwice(After(c, s, steps), e)
    ensures Runs(c, s, steps + [e]) && InTurn(c, s, steps + [e]) && !Guarded(c, s, steps + [e])
    decreases |steps|
  {
    hide Enabled, Apply;
    if steps == [] {
      assert steps + [e] == [e];
      assert [e][1..] == [];
    } else {
      assert (steps + [e])[0] == steps[0] && (steps + [e])[1..] == steps[1..] + [e];
      OneMoreThatSendsTwice(c, Apply(c, s, steps[0]), steps[1..], e);
    }
  }

  lemma UnguardedRun(c: Config) returns (steps: seq<Step>)
    requires !NeverPreempts(c)
    ensures Runs(c, Initial(c), steps) && InTurn(c, Initial(c), steps) && !Guarded(c, Initial(c), steps)
  {
    hide Runs, Guarded, InTurn, Ticking, After, Initial, Enabled, SendsTwice, Copies;
    var s := SrtDuplicatesAProcess(c);
    steps :| Regular(c, Initial(c), steps) && After(c, Initial(c), steps) == s;
    OneMoreThatSendsTwice(c, Initial(c), steps, Cpu(ExecuteIo));
    steps := steps + [Cpu(ExecuteIo)];
  }

  /** The exact condition on the configuration: no run at all executes an I/O call or an exit with an interruption
      pending if and only if the algorithm is FIFO or the level has room for one process at most. */
  lemma GuardedExactly(c: Config)
    ensures (forall steps :: Runs(c, Initial(c), steps) ==> Guarded(c, Initial(c), steps)) <==> NeverPreempts(c)
  {
    hide Runs, Guarded, Initial, Safe;
    if NeverPreempts(c) {
      SafeInitially(c);
      forall steps | Runs(c, Initial(c), steps) ensures Guarded(c, Initial(c), steps) {
        NeverPreemptsIsGuarded(c, Initial(c), steps);
      }
    } else {
      var steps := UnguardedRun(c);
    }
  }

  ghost predicate RunsInTurn(c: Config, steps: seq<Step>) { Runs(c, Initial(c), steps) && InTurn(c, Initial(c), steps) }

  /** So those are the configurations under which every run with its handlers in turn conserves the processes. */
  lemma ConservesExactly(c: Config)
    ensures (forall steps :: RunsInTurn(c, steps) ==> ConservedThroughout(c, Initial(c), steps)) <==> NeverPreempts(c)
  {
    hide Runs, Guarded, InTurn, Distinct, ConservedThroughout, Initial, Safe, Conserved, Numbering;
    SafeInitially(c);
    ConservedInitially(c);
    if NeverPreempts(c) {
      forall steps | RunsInTurn(c, steps) ensures ConservedThroughout(c, Initial(c), steps) {
        NeverPreemptsIsGuarded(c, Initial(c), steps);
        InTurnIsDistinct(c, Initial(c), steps);
        RunsConserveExactly(c, Initial(c), steps);
      }
    } else {
      var steps := UnguardedRun(c);
      RunsConserveExactly(c, Initial(c), steps);
      assert RunsInTurn(c, steps);
    }
  }
}
