/** What a console gave with its program stays with the process: memory is asked for the size it gave, and its socket
    is still there when the exit is acknowledged. */
module KernelOrigin {
  import opened Processes
  import opened Kernel
  import opened KernelLaws
  import opened KernelSafety
  import opened KernelConservation
  import opened KernelHistory

  predicate OriginalPcb(h: History, pcb: Pcb) {
    pcb.pid in h.origin && pcb.size == h.origin[pcb.pid].size && pcb.clientSocket == h.origin[pcb.pid].socket
  }

  predicate OriginalRequest(h: History, r: Request) {
    r.ProcessNew? ==> r.pid in h.origin && r.size == h.origin[r.pid].size
  }

  ghost predicate Original(s: State) {
    && (forall p: nat :: p in s.history.origin <==> p in s.history.program)
    && (forall r :: r in s.requests ==> OriginalRequest(s.history, r))
    && (forall x, pcb {:trigger pcb in At(s.at, x)} :: x != Nowhere && pcb in At(s.at, x) ==>
          OriginalPcb(s.history, pcb))
  }

  lemma OriginsAfter(s: State, e: Step)
    ensures HistoryAfter(s, e).origin
         == if Receives(e) then s.history.origin[s.pid := Origin(e.receive.size, e.receive.socket)]
            else s.history.origin
  {
    hide CanExecute, Fetched, BurstSoFar, PidAt;
  }

  lemma ArrivingIsOriginal(c: Config, s: State, e: Step)
    requires Original(s) && Enabled(c, s, e) && Moves(e)
    ensures OriginalPcb(HistoryAfter(s, e), Arriving(c, s, e))
  {
    hide Guard, Proper, ShapeOf, HistoryAfter, OperationOf, Estimate, RealBurst;
    OriginsAfter(s, e);
    if !Receives(e) { assert At(s.at, ShapeOf(e).from)[Index(e)] in At(s.at, ShapeOf(e).from); }
  }

  lemma OthersStayOriginal(c: Config, s: State, e: Step, x: Place, pcb: Pcb)
    requires Original(s) && Enabled(c, s, e) && !Rereads(s, e) && x != Nowhere
    requires pcb in (if x == ShapeOf(e).from then Without(At(s.at, x), Index(e)) else At(s.at, x))
    ensures OriginalPcb(HistoryAfter(s, e), pcb)
  {
    hide Guard, Proper, ShapeOf, HistoryAfter;
    OriginsAfter(s, e);
    assert pcb in At(s.at, x);
  }

  /** A request is about the PCB that moves. */
  lemma SentIsOriginal(c: Config, s: State, e: Step, r: Request)
    requires Original(s) && Enabled(c, s, e) && r in Sent(s, e)
    ensures OriginalRequest(s.history, r) && !Receives(e)
  {
    hide Guard, Proper;
    if e == Admit(SendNew) { assert At(s.at, AdmittingHand)[0] in At(s.at, AdmittingHand); }
  }

  lemma RequestsAfter(c: Config, s: State, e: Step, r: Request)
    requires r in Apply(c, s, e).requests
    ensures r in s.requests || r in Sent(s, e)
  {
    hide ShapeOf, PlacesAfter, CountAfter, HeadersAfter, HistoryAfter, Sent, RepliesAfter, Residents, Given;
  }

  lemma OriginalKept(c: Config, s: State, e: Step)
    requires Original(s) && Enabled(c, s, e) && !Rereads(s, e)
    ensures Original(Apply(c, s, e))
  {
    hide PlacesAfter, CountAfter, HeadersAfter, Sent, RepliesAfter, Residents, Given, HistoryAfter, ShapeOf, Guard,
         Proper, OriginalPcb, Arriving;
    OriginsAfter(s, e);
    ProgramsAfter(s, e);
    var s' := Apply(c, s, e);
    forall p: nat ensures p in s'.history.origin <==> p in s'.history.program {
      assert p in s'.history.program <==> p in s'.history.program.Keys;
      assert p in s.history.program <==> p in s.history.program.Keys;
    }
    forall r | r in s'.requests ensures OriginalRequest(s'.history, r) {
      RequestsAfter(c, s, e, r);
      if r in Sent(s, e) { SentIsOriginal(c, s, e, r); }
    }
    forall x, pcb | x != Nowhere && pcb in At(PlacesAfter(c, s, e), x) ensures OriginalPcb(s'.history, pcb) {
      InPlaceAfter(c, s, e, x, pcb);
      if Moves(e) && x == ShapeOf(e).to && pcb == Arriving(c, s, e) {
        ArrivingIsOriginal(c, s, e);
      } else {
        OthersStayOriginal(c, s, e, x, pcb);
      }
    }
  }

  lemma {:induction false} OriginalAlways(c: Config, s: State, steps: seq<Step>)
    requires Original(s) && Conserved(s) && Numbering(s)
    requires Runs(c, s, steps) && Guarded(c, s, steps) && InTurn(c, s, steps)
    ensures Original(After(c, s, steps))
    decreases |steps|
  {
    hide Original, Conserved, Numbering, Apply, Enabled, SendsTwice, Overtakes, Rereads;
    if steps != [] {
      ConservedKept(c, s, steps[0]);
      OriginalKept(c, s, steps[0]);
      OriginalAlways(c, Apply(c, s, steps[0]), steps[1..]);
    }
  }

  lemma OriginalInitially(c: Config)
    ensures Original(Initial(c))
  {
  }

  /** In every state a run without the first two defects reaches, each PCB has the size and the socket its console gave,
      and each request for the tables of a process names that size. */
  lemma OriginsStay(c: Config, steps: seq<Step>)
    requires Runs(c, Initial(c), steps) && Guarded(c, Initial(c), steps) && InTurn(c, Initial(c), steps)
    ensures var s := After(c, Initial(c), steps);
            && (forall x, pcb {:trigger pcb in At(s.at, x)} :: x != Nowhere && pcb in At(s.at, x) ==>
                  && pcb.pid in s.history.origin
                  && Origin(pcb.size, pcb.clientSocket) == s.history.origin[pcb.pid])
            && (forall r :: r in s.requests && r.ProcessNew? ==>
                  r.pid in s.history.origin && r.size == s.history.origin[r.pid].size)
  {
    hide Initial, Runs, Guarded, InTurn, After, Conserved, Numbering;
    ConservedInitially(c);
    OriginalInitially(c);
    OriginalAlways(c, Initial(c), steps);
    var s := After(c, Initial(c), steps);
    forall x, pcb | x != Nowhere && pcb in At(s.at, x)
      ensures pcb.pid in s.history.origin && Origin(pcb.size, pcb.clientSocket) == s.history.origin[pcb.pid]
    {
      assert OriginalPcb(s.history, pcb);
    }
  }
}
