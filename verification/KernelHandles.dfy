/** The indexes memory gives to a process come back to it: the PCB carries them through every queue and over the CPU,
    and every request about the process names them (kernel/src/kernel.c:182-186, 286-289 and 461-466). */
module KernelHandles {
  import opened Processes
  import opened Kernel
  import opened KernelLaws
  import opened KernelSafety
  import opened KernelConservation
  import opened KernelHistory
  import opened KernelAdmission
  import opened KernelReplies

  // ---- The invariant ------------------------------------------------------------------

  /** Where a PCB has its indexes and memory still knows them. */
  predicate Told(x: Place) { CountsAs(Known, x) && x != MemoryInitQ }

  predicate Has(given: map<nat, Handle>, pid: nat, h: Handle) { pid in given && given[pid] == h }

  ghost predicate PcbsTold(at: Places, given: map<nat, Handle>) {
    forall x, pcb {:trigger pcb in At(at, x)} :: Told(x) && pcb in At(at, x) ==> Has(given, pcb.pid, HandleOf(pcb))
  }

  /** The indexes of a request are those of its process, and a process to create has none yet. */
  predicate Right(given: map<nat, Handle>, r: Request) {
    if r.ProcessNew? then r.pid !in given else Has(given, r.pid, r.handle)
  }

  ghost predicate RequestsRight(given: map<nat, Handle>, requests: seq<Request>) {
    forall r :: r in requests ==> Right(given, r)
  }

  ghost predicate RepliesRight(given: map<nat, Handle>, replies: seq<Reply>) {
    forall r :: r in replies && r.MemoryReady? ==> Has(given, r.pid, r.handle)
  }

  ghost predicate Handled(s: State) {
    PcbsTold(s.at, s.given) && RequestsRight(s.given, s.requests) && RepliesRight(s.given, s.replies)
  }

  /** What the invariant rests on. */
  ghost predicate Kept(c: Config, s: State) {
    && Safe(c, s) && Conserved(s) && Numbering(s) && Agreed(Known, c, s, s.given.Keys)
    && Accounted(s, Creation) && Accounted(s, Termination)
  }

  // ---- Who waits for memory is nowhere else -------------------------------------------

  lemma {:induction false} AskedAbout(t: Topic, q: seq<Request>, r: Request)
    requires r in q && IsAbout(t, r.pid, r)
    ensures Asked(t, r.pid, q) > 0
  {
    if q[0] != r { AskedAbout(t, q[1..], r); }
  }

  lemma {:induction false} AnsweredAbout(q: seq<Reply>, r: Reply)
    requires r in q && r.MemoryReady?
    ensures Answered(Creation, r.pid, q) > 0
  {
    if q[0] != r { AnsweredAbout(q[1..], r); }
  }

  lemma WaiterIsAlone(s: State, t: Topic, pid: nat, x: Place, pcb: Pcb)
    requires Conserved(s) && Accounted(s, t) && Asked(t, pid, s.requests) + Answered(t, pid, s.replies) > 0
    requires x != Nowhere && x != Waiters(t) && pcb in At(s.at, x)
    ensures pcb.pid != pid
  {
    hide Copies;
    assert Asked(t, pid, s.requests) + Answered(t, pid, s.replies) == Occurrences(At(s.at, Waiters(t)), pid);
    var i := OccurrenceIndex(At(s.at, Waiters(t)), pid);
    var j :| 0 <= j < |At(s.at, x)| && At(s.at, x)[j] == pcb;
    assert Copies(s.at, pid) <= 1;
    if pcb.pid == pid { TwoCopies(s.at, pid, x, j, Waiters(t), i); }
  }

  // ---- Serving a request --------------------------------------------------------------

  /** Once memory does not know a process, or will not forget it, no request changes that without one that says so. */
  lemma {:induction false} Settled(level: nat, pids: set<nat>, requests: seq<Request>, pid: nat, r: Request)
    requires AllWelcome(Known, level, pids, requests) && r in requests && r.pid == pid
    requires forall q :: q in requests && q.pid == pid ==> if pid in pids then !q.ProcessExit? else !q.ProcessNew?
    ensures pid in pids && !r.ProcessNew?
    decreases |requests|
  {
    if r != requests[0] {
      var next := Changed(Known, pids, requests[0]);
      assert pid in next <==> pid in pids;
      Settled(level, next, requests[1..], pid, r);
    }
  }

  /** Memory gives and takes the indexes of a process while no other request is about it. */
  lemma OthersAreAboutOthers(c: Config, s: State, r: Request)
    requires Kept(c, s) && RequestsRight(s.given, s.requests)
    requires |s.requests| > 0 && (s.requests[0].ProcessNew? || s.requests[0].ProcessExit?) && r in s.requests[1..]
    ensures r.pid != s.requests[0].pid
  {
    hide Safe, Conserved, Accounted, Welcome, ReadOff;
    var first, rest := s.requests[0], s.requests[1..];
    assert first in s.requests;
    forall q | q in rest ensures Right(s.given, q) { assert q in s.requests; }
    if r.pid == first.pid {
      if first.ProcessNew? {
        AskedAbout(Creation, rest, r);
        AskedOnce(s, r.pid);
      } else {
        Settled(c.multiprogrammingLevel, Changed(Known, s.given.Keys, first), rest, first.pid, r);
      }
    }
  }

  /** No process is created or resumed twice at a time. */
  lemma AskedOnce(s: State, pid: nat)
    requires Accounted(s, Creation) && Conserved(s)
    ensures Asked(Creation, pid, s.requests) <= 1
  {
    hide Copies;
    assert Asked(Creation, pid, s.requests) + Answered(Creation, pid, s.replies)
        == Occurrences(At(s.at, MemoryInitQ), pid);
    OccurrencesAreCopies(s.at, MemoryInitQ, pid);
    assert Copies(s.at, pid) <= 1;
  }

  lemma OccurrencesAreCopies(at: Places, x: Place, pid: nat)
    requires x != Nowhere
    ensures Occurrences(At(at, x), pid) <= Copies(at, pid)
  {
    hide SumPlaces;
    var f := PlaceTerm(at, EverywhereLaw(), Of(pid));
    var others := (y: Place) => if y == x then 0 else f(y);
    assert forall y :: f(y) == if y == Nowhere then 0 else Occurrences(At(at, y), pid);
    SumPlacesChange(f, others, x);
    SumOfPositives(others);
  }

  /** A request is served: the indexes of one process may come or go. */
  lemma GivenAfter(c: Config, s: State, e: Step)
    requires Serves(s, e)
    ensures |s.requests| > 0
    ensures var g, r := Apply(c, s, e).given, s.requests[0];
            && (forall p, h :: p != r.pid || !(r.ProcessNew? || r.ProcessExit?) ==>
                (Has(g, p, h) <==> Has(s.given, p, h)))
            && (forall p :: p != r.pid || !(r.ProcessNew? || r.ProcessExit?) ==> (p in g <==> p in s.given))
            && (r.ProcessNew? ==> Has(g, r.pid, e.handle))
    ensures Apply(c, s, e).at == s.at && Apply(c, s, e).requests == s.requests[1..]
    ensures Apply(c, s, e).replies == s.replies + ReplyTo(s.requests[0], e.handle)
  {
    hide CountAfter, HeadersAfter, HistoryAfter;
    assert s.requests[1..] + [] == s.requests[1..];
  }

  lemma RequestsAfterService(c: Config, s: State, e: Step)
    requires Kept(c, s) && Handled(s) && Serves(s, e)
    ensures RequestsRight(Apply(c, s, e).given, Apply(c, s, e).requests)
  {
    hide Apply, Kept, Serves, PcbsTold, RepliesRight;
    GivenAfter(c, s, e);
    forall r | r in s.requests[1..] ensures Right(Apply(c, s, e).given, r) {
      assert r in s.requests;
      if s.requests[0].ProcessNew? || s.requests[0].ProcessExit? { OthersAreAboutOthers(c, s, r); }
    }
  }

  lemma RepliesAfterService(c: Config, s: State, e: Step)
    requires Kept(c, s) && Handled(s) && Serves(s, e)
    ensures RepliesRight(Apply(c, s, e).given, Apply(c, s, e).replies)
  {
    hide Apply, Safe, Conserved, Agreed, Accounted, Serves, PcbsTold;
    GivenAfter(c, s, e);
    var first := s.requests[0];
    assert Right(s.given, first);
    forall r | r in s.replies && r.MemoryReady? ensures Has(Apply(c, s, e).given, r.pid, r.handle) {
      if first.ProcessExit? && r.pid == first.pid { LeavingIsNotAnswered(s, r); }
    }
  }

  /** A process that asks to exit does not wait for its tables. */
  lemma LeavingIsNotAnswered(s: State, r: Reply)
    requires Conserved(s) && Accounted(s, Creation) && Accounted(s, Termination)
    requires |s.requests| > 0 && s.requests[0].ProcessExit? && r in s.replies && r.MemoryReady?
    ensures r.pid != s.requests[0].pid
  {
    var pid := s.requests[0].pid;
    AskedAbout(Termination, s.requests, s.requests[0]);
    AnsweredAbout(s.replies, r);
    if r.pid == pid {
      assert Asked(Creation, pid, s.requests) + Answered(Creation, pid, s.replies)
          == Occurrences(At(s.at, MemoryInitQ), pid);
      var i := OccurrenceIndex(At(s.at, MemoryInitQ), pid);
      WaiterIsAlone(s, Termination, pid, MemoryInitQ, At(s.at, MemoryInitQ)[i]);
    }
  }

  lemma PcbsAfterService(c: Config, s: State, e: Step)
    requires Kept(c, s) && Handled(s) && Serves(s, e)
    ensures PcbsTold(Apply(c, s, e).at, Apply(c, s, e).given)
  {
    hide Apply, Safe, Conserved, Agreed, Accounted, Serves, CountsAs;
    GivenAfter(c, s, e);
    var first := s.requests[0];
    assert Right(s.given, first);
    if first.ProcessExit? { AskedAbout(Termination, s.requests, first); }
    forall x, pcb | Told(x) && pcb in At(s.at, x) ensures Has(Apply(c, s, e).given, pcb.pid, HandleOf(pcb)) {
      if first.ProcessExit? {
        ToldIsSomewhereElse(x);
        WaiterIsAlone(s, Termination, first.pid, x, pcb);
      }
    }
  }

  lemma ToldIsSomewhereElse(x: Place)
    requires Told(x)
    ensures x != Nowhere && x != MemoryExitQ && x != MemoryInitQ
  {
  }

  // ---- The other steps ----------------------------------------------------------------

  /** A PCB gets to where its indexes are told from such a place, or by the reply that tells them. */
  lemma ToldTraffic(e: Step)
    ensures Told(ShapeOf(e).to) ==> ShapeOf(e).from != Nowhere && (Told(ShapeOf(e).from) || e == Answer(HandleTables))
    ensures e == Answer(HandleTables) ==> ShapeOf(e).from == MemoryInitQ && Index(e) == 0
  {
  }

  lemma HandleIsCarried(c: Config, s: State, e: Step, pcb: Pcb)
    requires e != Answer(HandleTables)
    ensures HandleOf(Carried(c, s, e, pcb)) == HandleOf(pcb)
  {
    hide OperationOf;
  }

  lemma TablesAreTold(c: Config, s: State, pcb: Pcb)
    requires Enabled(c, s, Answer(HandleTables)) && RepliesRight(s.given, s.replies) && pcb == At(s.at, MemoryInitQ)[0]
    ensures Has(s.given, pcb.pid, HandleOf(Carried(c, s, Answer(HandleTables), pcb)))
  {
    assert s.replies[0] in s.replies;
  }

  lemma PcbsAfterMove(c: Config, s: State, e: Step)
    requires Handled(s) && Enabled(c, s, e)
    ensures PcbsTold(PlacesAfter(c, s, e), s.given)
  {
    hide PlacesAfter, ShapeOf, Carried, Guard, Proper, CountsAs, RequestsRight, RepliesRight;
    ToldTraffic(e);
    forall x, pcb | Told(x) && pcb in At(PlacesAfter(c, s, e), x) ensures Has(s.given, pcb.pid, HandleOf(pcb)) {
      ToldIsSomewhereElse(x);
      InPlaceAfter(c, s, e, x, pcb);
      if Moves(e) && x == ShapeOf(e).to && pcb == Arriving(c, s, e) {
        ArrivesTold(c, s, e);
      } else {
        assert pcb in At(s.at, x);
      }
    }
  }

  lemma ArrivesTold(c: Config, s: State, e: Step)
    requires Handled(s) && Enabled(c, s, e) && Moves(e) && Told(ShapeOf(e).to)
    ensures Has(s.given, Arriving(c, s, e).pid, HandleOf(Arriving(c, s, e)))
  {
    hide ShapeOf, Carried, Guard, Proper, CountsAs, RequestsRight;
    ToldTraffic(e);
    MovesAreWhole(e);
    var pcb := At(s.at, ShapeOf(e).from)[Index(e)];
    PidIsCarried(c, s, e, pcb);
    if e == Answer(HandleTables) {
      TablesAreTold(c, s, pcb);
    } else {
      assert pcb in At(s.at, ShapeOf(e).from);
      HandleIsCarried(c, s, e, pcb);
    }
  }

  /** What is asked about a process names its indexes, */
  lemma AskersAreTold(s: State, e: Step)
    requires Asks(e) && e != Admit(SendNew)
    ensures Told(ShapeOf(e).from)
    ensures var pcb := PcbAt(s.at, ShapeOf(e).from, 0);
            |Sent(s, e)| == 1 && !Sent(s, e)[0].ProcessNew? && Sent(s, e)[0].pid == pcb.pid
                && Sent(s, e)[0].handle == HandleOf(pcb)
  {
  }

  lemma {:induction false} ForgottenByExit(level: nat, pids: set<nat>, requests: seq<Request>, pid: nat)
    returns (r: Request)
    requires AllWelcome(Known, level, pids, requests) && pid in pids && pid !in Eventually(Known, pids, requests)
    ensures r in requests && r.ProcessExit? && r.pid == pid
    decreases |requests|
  {
    var next := Changed(Known, pids, requests[0]);
    if pid in next { r := ForgottenByExit(level, next, requests[1..], pid); } else { r := requests[0]; }
  }

  /** and a process to create is new to memory. */
  lemma NewcomerIsUnknown(c: Config, s: State)
    requires Kept(c, s) && Enabled(c, s, Admit(SendNew))
    ensures PidAt(s.at, AdmittingHand, 0) !in s.given
  {
    hide Safe, Conserved, Accounted, CountsAs, Changed, Welcome, ReadOff;
    var pcb := At(s.at, AdmittingHand)[0];
    var later := Eventually(Known, s.given.Keys, s.requests);
    AskedIsWelcome(Known, c, s, Admit(SendNew), later);
    assert pcb.pid !in later by { AddsOnlyNewcomers(c, s, later); }
    if pcb.pid in s.given {
      var r := ForgottenByExit(c.multiprogrammingLevel, s.given.Keys, s.requests, pcb.pid);
      AskedAbout(Termination, s.requests, r);
      WaiterIsAlone(s, Termination, pcb.pid, AdmittingHand, pcb);
    }
  }

  lemma AddsOnlyNewcomers(c: Config, s: State, pids: set<nat>)
    requires |Sent(s, Admit(SendNew))| == 1 && Welcome(Known, c.multiprogrammingLevel, pids, Sent(s, Admit(SendNew))[0])
    ensures PidAt(s.at, AdmittingHand, 0) !in pids
  {
  }

  lemma RequestsAfterAsking(c: Config, s: State, e: Step)
    requires Kept(c, s) && Handled(s) && Enabled(c, s, e) && Asks(e)
    ensures RequestsRight(s.given, s.requests + Sent(s, e))
  {
    hide Kept, ShapeOf, Guard, Proper, CountsAs, RepliesRight, Sent;
    if e == Admit(SendNew) {
      NewcomerIsUnknown(c, s);
      SentNew(s);
    } else {
      AskersAreTold(s, e);
      var x := ShapeOf(e).from;
      ToldIsSomewhereElse(x);
      AsksForTheMoved(Known, s, e);
      assert At(s.at, x)[0] in At(s.at, x);
    }
  }

  lemma SentNew(s: State)
    ensures var r := Sent(s, Admit(SendNew)); |r| == 1 && r[0].ProcessNew? && r[0].pid == PidAt(s.at, AdmittingHand, 0)
  {
  }

  lemma ElsewhereAfter(c: Config, s: State, e: Step)
    requires !Serves(s, e)
    ensures var s' := Apply(c, s, e);
            && s'.given == s.given && s'.at == PlacesAfter(c, s, e) && s'.requests == s.requests + Sent(s, e)
            && s'.replies == if TakesReply(e) then Rest(s.replies) else s.replies
  {
    hide CountAfter, HeadersAfter, HistoryAfter, Sent, PlacesAfter;
  }

  lemma HandledKept(c: Config, s: State, e: Step)
    requires Kept(c, s) && Handled(s) && Enabled(c, s, e)
    ensures Handled(Apply(c, s, e))
  {
    hide Kept, Apply, Enabled, PcbsTold, Right, Has, Sent;
    if Serves(s, e) {
      PcbsAfterService(c, s, e);
      RequestsAfterService(c, s, e);
      RepliesAfterService(c, s, e);
    } else {
      ElsewhereAfter(c, s, e);
      PcbsAfterMove(c, s, e);
      if Asks(e) { RequestsAfterAsking(c, s, e); } else { OthersAskNothing(s, e); }
    }
  }

  // ---- Runs ---------------------------------------------------------------------------

  /** The pids memory has given indexes to are those it knows. */
  lemma GivenAreKnown(c: Config, s: State, e: Step)
    ensures Apply(c, s, e).given.Keys == Served(Known, s, e, s.given.Keys)
  {
    hide PlacesAfter, CountAfter, HeadersAfter, HistoryAfter, Sent, RepliesAfter, Residents;
  }

  lemma KeptKept(c: Config, s: State, e: Step)
    requires Kept(c, s) && Enabled(c, s, e) && !SendsTwice(s, e) && !Overtakes(s, e)
    ensures Kept(c, Apply(c, s, e))
  {
    hide Safe, Conserved, Numbering, Agreed, Accounted, Apply, Enabled, SendsTwice, Overtakes, Rereads, Served;
    SafeKept(c, s, e);
    ConservedKept(c, s, e);
    AgreedKept(Known, c, s, e, s.given.Keys);
    GivenAreKnown(c, s, e);
    AccountedKept(c, s, e, Creation);
    AccountedKept(c, s, e, Termination);
  }

  lemma HandledInitially(c: Config)
    ensures Kept(c, Initial(c)) && Handled(Initial(c))
  {
    hide Safe, Conserved, Numbering, Agreed;
    SafeInitially(c);
    ConservedInitially(c);
    AgreedInitially(Known, c);
    assert Initial(c).given.Keys == {};
  }

  lemma {:induction false} HandledAlways(c: Config, s: State, steps: seq<Step>)
    requires Kept(c, s) && Handled(s) && Runs(c, s, steps) && Guarded(c, s, steps) && InTurn(c, s, steps)
    ensures Kept(c, After(c, s, steps)) && Handled(After(c, s, steps))
    decreases |steps|
  {
    hide Kept, Handled, Apply, Enabled, SendsTwice, Overtakes;
    if steps != [] {
      HandledKept(c, s, steps[0]);
      KeptKept(c, s, steps[0]);
      HandledAlways(c, Apply(c, s, steps[0]), steps[1..]);
    }
  }

  /** In every state a run reaches that has neither defect, the request memory serves next names the indexes memory
      gave to its process, and so does the PCB on the CPU. */
  lemma HandlesComeBack(c: Config, steps: seq<Step>)
    requires Runs(c, Initial(c), steps) && Guarded(c, Initial(c), steps) && InTurn(c, Initial(c), steps)
    ensures var s := After(c, Initial(c), steps);
            && (|s.requests| > 0 && !s.requests[0].ProcessNew? ==>
                Has(s.given, s.requests[0].pid, s.requests[0].handle))
            && (|At(s.at, CpuRunning)| > 0 ==>
                Has(s.given, PidAt(s.at, CpuRunning, 0), HandleOf(PcbAt(s.at, CpuRunning, 0))))
  {
    hide Initial, Runs, Guarded, InTurn, After, Kept, RepliesRight;
    HandledInitially(c);
    HandledAlways(c, Initial(c), steps);
    var s := After(c, Initial(c), steps);
    if |s.requests| > 0 { assert s.requests[0] in s.requests; }
    if |At(s.at, CpuRunning)| > 0 { assert At(s.at, CpuRunning)[0] in At(s.at, CpuRunning); }
  }
}
