/** to_exec reads the clock after it has sent the process, and io_op takes no mutex (kernel/src/kernel.c:319-325 and
    574-591): a process can be back with an I/O call before its dispatch is timed. */
module KernelTiming {
  import opened Processes
  import opened Kernel
  import opened KernelLaws
  import opened KernelSafety
  import opened KernelConservation
  import opened KernelHistory
  import opened KernelReach

  /** In this state io_op can handle an I/O call at this time, and what it measures is not the burst, which is below
      2^31 ms. */
  ghost predicate Misread(c: Config, s: State, now: int) {
    && Enabled(c, s, Return(HandleIo(now))) && |At(s.at, CpuOutbox)| > 0
    && var pcb := At(s.at, CpuOutbox)[0];
       var burst := BurstSoFar(s.history, pcb.pid, now);
       0 <= burst < 0x8000_0000 && RealBurst(pcb, now - s.toExecTime) != burst
  }

  /** The first process is on the CPU and its dispatch is not timed. */
  lemma IsOnTheCpu(c: Config) returns (s: State)
    requires c.multiprogrammingLevel > 0
    ensures Reached(c, s) && Vacant(DeparturesOf(s)) && ViewOf(s).t.handlers == Anywhere && ViewOf(s).t.toExec == Timing
    ensures ViewOf(s).n.interruption == 0 && NextIs(ViewOf(s).q.cpuRunning, Operation.Io)
  {
    hide Reached, DeparturesOf, Vacant, ViewOf, NewPcb, NextIs, IoProgram;
    IoStarts(c);
    s := FirstToDispatch(c, IoProgram());
    s := SentToCpu(c, s, NewPcb(c, 1, IoProgram()));
  }

  lemma CallMayExecute(c: Config, s: State)
    requires Vacant(DeparturesOf(s)) && ViewOf(s).t.handlers == Anywhere && ViewOf(s).t.toExec == Timing
    requires ViewOf(s).n.interruption == 0 && NextIs(ViewOf(s).q.cpuRunning, Operation.Io)
    ensures Enabled(c, s, Cpu(ExecuteIo)) && Proceeds(s, Cpu(ExecuteIo)) && OneMoves(s, Cpu(ExecuteIo))
    ensures IsTiming(s) && PointOf(s, DispatchListener) == Listening && s.headers == []
  {
  }

  lemma CallIsHandled(c: Config, s: State, now: int)
    requires PointOf(s, DispatchListener) == Listening && HeaderIs(s, IoCall) && |At(s.at, CpuOutbox)| > 0
    ensures Enabled(c, s, Return(HandleIo(now)))
  {
  }

  lemma CallIsSent(c: Config, s: State)
    requires Enabled(c, s, Cpu(ExecuteIo)) && OneMoves(s, Cpu(ExecuteIo))
    requires IsTiming(s) && PointOf(s, DispatchListener) == Listening && s.headers == []
    ensures var s' := Apply(c, s, Cpu(ExecuteIo));
            && IsTiming(s') && PointOf(s', DispatchListener) == Listening && HeaderIs(s', IoCall)
            && |At(s'.at, CpuOutbox)| > 0
  {
    hide Apply, Guard, OneMoves;
    PointsAndCounters(c, s, Cpu(ExecuteIo));
    PlaceChanges(c, s, Cpu(ExecuteIo), CpuOutbox);
    HeadersOf(c, s);
  }

  lemma HeadersOf(c: Config, s: State)
    requires OneMoves(s, Cpu(ExecuteIo))
    ensures Apply(c, s, Cpu(ExecuteIo)).headers == s.headers + [IoCall]
  {
    hide PlacesAfter, CountAfter, HistoryAfter, Sent, RepliesAfter, Residents, Given;
  }

  /** The I/O call is back before the dispatch is timed. */
  lemma ComesBackEarly(c: Config) returns (s: State, now: int)
    requires c.multiprogrammingLevel > 0
    ensures Reached(c, s) && Misread(c, s, now)
  {
    hide Reached, ViewOf, DeparturesOf, Vacant, NextIs, Apply, Enabled, OneMoves, Proceeds, IsTiming, RealBurst;
    s := IsOnTheCpu(c);
    CallMayExecute(c, s);
    CallIsSent(c, s);
    s := KernelReach.Take(c, s, Cpu(ExecuteIo));
    now := -BurstSoFar(s.history, At(s.at, CpuOutbox)[0].pid, 0);
    CallIsHandled(c, s, now);
    TimedOtherwise(c, s, now);
  }

  lemma TimedOtherwise(c: Config, s: State, now: int)
    requires Reached(c, s) && IsTiming(s) && |At(s.at, CpuOutbox)| > 0
    ensures var pcb := At(s.at, CpuOutbox)[0];
            var burst := BurstSoFar(s.history, pcb.pid, now);
            0 <= burst < 0x8000_0000 ==> RealBurst(pcb, now - s.toExecTime) != burst
  {
    hide Runs, Guarded, InTurn, Ticking, After, Initial, RealBurst, IsTiming;
    var steps :| Regular(c, Initial(c), steps) && After(c, Initial(c), steps) == s;
    IoMeasuresExactly(c, steps, now);
  }

  /** A run without the other defects, with a clock that goes on, comes to that. */
  ghost predicate Misreads(c: Config, steps: seq<Step>, now: int) {
    Regular(c, Initial(c), steps) && Misread(c, After(c, Initial(c), steps), now)
  }

  lemma OutboxIsAdmitted(at: Places)
    ensures Admitted(at) >= |At(at, CpuOutbox)|
  {
  }

  /** It happens to any configuration that runs processes at all. */
  lemma MisreadsExactly(c: Config)
    ensures (exists steps, now :: Misreads(c, steps, now)) <==> c.multiprogrammingLevel > 0
  {
    hide Runs, Guarded, InTurn, Ticking, After, Initial, Safe, Misread, Admitted;
    if c.multiprogrammingLevel > 0 {
      var s, now := ComesBackEarly(c);
      var steps :| Regular(c, Initial(c), steps) && After(c, Initial(c), steps) == s;
      assert Misreads(c, steps, now);
    } else {
      SafeInitially(c);
      forall steps, now | Regular(c, Initial(c), steps) ensures !Misreads(c, steps, now) {
        SafeAlways(c, Initial(c), steps);
        NothingToMisread(c, After(c, Initial(c), steps), now);
      }
    }
  }

  lemma NothingToMisread(c: Config, s: State, now: int)
    requires Safe(c, s) && c.multiprogrammingLevel == 0
    ensures !Misread(c, s, now)
  {
    hide Safe, Admitted, Enabled;
    CreditsAreConserved(c, s);
    OutboxIsAdmitted(s.at);
  }
}
