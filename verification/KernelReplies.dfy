/** Every reply of memory finds the process it is about: the kernel never terminates itself over one
    (kernel/src/kernel.c:478-485 and 517-524). */
module KernelReplies {
  import opened Processes
  import opened Kernel
  import opened KernelLaws
  import opened KernelSafety
  import opened KernelConservation

  /** The requests whose reply looks for a process: for its tables and frames, and for its exit. */
  datatype Topic = Creation | Termination

  function Waiters(t: Topic): Place { if t.Creation? then MemoryInitQ else MemoryExitQ }

  predicate IsAbout(t: Topic, pid: nat, r: Request) {
    r.pid == pid && if t.Creation? then r.ProcessNew? || r.ProcessResume? else r.ProcessExit?
  }

  predicate Answers(t: Topic, pid: nat, r: Reply) {
    if t.Creation? then r.MemoryReady? && r.pid == pid else r == ExitReady(pid)
  }

  function Asked(t: Topic, pid: nat, q: seq<Request>): (n: int)
    ensures n >= 0
  {
    if q == [] then 0 else B(IsAbout(t, pid, q[0])) + Asked(t, pid, q[1..])
  }

  function Answered(t: Topic, pid: nat, q: seq<Reply>): (n: int)
    ensures n >= 0
  {
    if q == [] then 0 else B(Answers(t, pid, q[0])) + Answered(t, pid, q[1..])
  }

  lemma {:induction false} AskedConcat(t: Topic, pid: nat, q: seq<Request>, r: seq<Request>)
    ensures Asked(t, pid, q + r) == Asked(t, pid, q) + Asked(t, pid, r)
  {
    if q == [] {
      assert q + r == r;
    } else {
      assert (q + r)[1..] == q[1..] + r;
      AskedConcat(t, pid, q[1..], r);
    }
  }

  lemma {:induction false} AnsweredConcat(t: Topic, pid: nat, q: seq<Reply>, r: seq<Reply>)
    ensures Answered(t, pid, q + r) == Answered(t, pid, q) + Answered(t, pid, r)
  {
    if q == [] {
      assert q + r == r;
    } else {
      assert (q + r)[1..] == q[1..] + r;
      AnsweredConcat(t, pid, q[1..], r);
    }
  }

  /** Who waits for memory is in a request or a reply, once. */
  ghost predicate Accounted(s: State, t: Topic) {
    forall pid: nat {:trigger Asked(t, pid, s.requests)} ::
      Asked(t, pid, s.requests) + Answered(t, pid, s.replies) == Occurrences(At(s.at, Waiters(t)), pid)
  }

  // ---- Steps --------------------------------------------------------------------------

  function LeftBehind(s: State, e: Step, x: Place): seq<Pcb> {
    if ShapeOf(e).from == x then Without(At(s.at, x), Index(e)) else At(s.at, x)
  }

  lemma PlaceAfter(c: Config, s: State, e: Step, x: Place)
    requires Enabled(c, s, e) && (x == MemoryInitQ || x == MemoryExitQ)
    ensures ShapeOf(e).to == x ==> Index(e) < |At(s.at, ShapeOf(e).from)|
    ensures At(PlacesAfter(c, s, e), x) == LeftBehind(s, e, x)
         + if ShapeOf(e).to == x then [Carried(c, s, e, At(s.at, ShapeOf(e).from)[Index(e)])] else []
  {
    hide Carried, ShapeOf, Proper, OperationOf, Guard;
    MovesAreWhole(e);
  }

  lemma OccurrencesAfter(c: Config, s: State, e: Step, x: Place, pid: nat)
    requires Enabled(c, s, e) && (x == MemoryInitQ || x == MemoryExitQ)
    ensures Occurrences(At(PlacesAfter(c, s, e), x), pid)
         == Occurrences(At(s.at, x), pid)
            + B(ShapeOf(e).to == x && PidAt(s.at, ShapeOf(e).from, Index(e)) == pid)
            - B(ShapeOf(e).from == x && PidAt(s.at, x, Index(e)) == pid)
  {
    hide Carried, ShapeOf, Proper, Guard, PlacesAfter;
    PlaceAfter(c, s, e, x);
    if ShapeOf(e).from == x { OccurrencesWithout(At(s.at, x), Index(e), pid); }
    if ShapeOf(e).to == x {
      var pcb := At(s.at, ShapeOf(e).from)[Index(e)];
      PidIsCarried(c, s, e, pcb);
      OccurrencesConcat(LeftBehind(s, e, x), [Carried(c, s, e, pcb)], pid);
    } else {
      assert LeftBehind(s, e, x) + [] == LeftBehind(s, e, x);
    }
  }

  /** Who starts to wait has asked; who stops waiting is answered. */
  lemma WaitingTraffic(e: Step)
    ensures ShapeOf(e).to == MemoryInitQ <==> e == Admit(SendNew) || e == Admit(SendResume)
    ensures ShapeOf(e).to == MemoryExitQ <==> e == Step.Exit(SendExit)
    ensures ShapeOf(e).from == MemoryInitQ <==> e.Answer? && e.answer.HandleTables?
    ensures ShapeOf(e).from == MemoryExitQ <==> e.Answer? && e.answer.HandleExitDone?
    ensures e == Admit(SendNew) ==> ShapeOf(e).from == AdmittingHand
    ensures e == Admit(SendResume) ==> ShapeOf(e).from == ResumingHand
    ensures e == Step.Exit(SendExit) ==> ShapeOf(e).from == ExitHand
  {
  }

  lemma AskedAfter(c: Config, s: State, e: Step, t: Topic, pid: nat)
    ensures Asked(t, pid, Apply(c, s, e).requests) == Asked(t, pid, s.requests)
            - B(Serves(s, e) && IsAbout(t, pid, s.requests[0]))
            + B(t.Creation? && e == Admit(SendNew) && PidAt(s.at, AdmittingHand, 0) == pid)
            + B(t.Creation? && e == Admit(SendResume) && PidAt(s.at, ResumingHand, 0) == pid)
            + B(t.Termination? && e == Step.Exit(SendExit) && PidAt(s.at, ExitHand, 0) == pid)
  {
    hide PlacesAfter, CountAfter, HeadersAfter, HistoryAfter, RepliesAfter, Residents, ShapeOf;
    AskedConcat(t, pid, if Serves(s, e) then Rest(s.requests) else s.requests, Sent(s, e));
  }

  lemma AnsweredAfter(c: Config, s: State, e: Step, t: Topic, pid: nat)
    requires TakesReply(e) ==> |s.replies| > 0
    ensures Answered(t, pid, Apply(c, s, e).replies) == Answered(t, pid, s.replies)
            + B(Serves(s, e) && IsAbout(t, pid, s.requests[0]))
            - B(TakesReply(e) && Answers(t, pid, s.replies[0]))
  {
    hide PlacesAfter, CountAfter, HeadersAfter, HistoryAfter, Residents, ShapeOf;
    if Serves(s, e) { AnsweredConcat(t, pid, s.replies, ReplyTo(s.requests[0], e.handle)); }
  }

  /** A reply is taken for the process it names. */
  lemma TakenAsGuarded(c: Config, s: State, e: Step)
    requires Enabled(c, s, e) && TakesReply(e)
    ensures |s.replies| > 0
    ensures match e.answer
            case HandleTables => s.replies[0].MemoryReady? && PidAt(s.at, MemoryInitQ, Index(e)) == s.replies[0].pid
            case HandleExitDone(_) => s.replies[0].ExitReady? && PidAt(s.at, MemoryExitQ, Index(e)) == s.replies[0].pid
            case _ => s.replies[0].SuspensionReady?
  {
  }

  lemma AccountedKept(c: Config, s: State, e: Step, t: Topic)
    requires Accounted(s, t) && Enabled(c, s, e)
    ensures Accounted(Apply(c, s, e), t)
  {
    hide Apply, Guard, Startable, Proper, ShapeOf, PlacesAfter;
    if TakesReply(e) { TakenAsGuarded(c, s, e); }
    WaitingTraffic(e);
    var s' := Apply(c, s, e);
    assert s'.at == PlacesAfter(c, s, e) by { PlacesOf(c, s, e); }
    forall pid: nat
      ensures Asked(t, pid, s'.requests) + Answered(t, pid, s'.replies) == Occurrences(At(s'.at, Waiters(t)), pid)
    {
      AskedAfter(c, s, e, t, pid);
      AnsweredAfter(c, s, e, t, pid);
      OccurrencesAfter(c, s, e, Waiters(t), pid);
    }
  }

  lemma PlacesOf(c: Config, s: State, e: Step)
    ensures Apply(c, s, e).at == PlacesAfter(c, s, e)
  {
  }

  // ---- What it means ------------------------------------------------------------------

  /** At most one process waits for its tables, so the one at the head of memory_init_q is the one a reply names. */
  lemma OneAwaitsTables(s: State)
    requires BalanceOf(s, TablesLaw()) == 0 && AtOwnPoints(s)
    ensures |At(s.at, MemoryInitQ)| <= 1
  {
    hide SumThreads, SumPlaces, SumCounters;
    var f := ThreadTerm(s.point, TablesLaw());
    var low := (t: Thread) => if t == ToReady then -1 else 0;
    forall t ensures low(t) <= f(t) { assert Owns(t, PointOf(s, t)); }
    SumThreadsMonotone(low, f);
    assert SumThreads(low) == -1 by { SumOfOneThread(low); }
    CounterTermsAreNonNegative(s.count, TablesLaw(), TableReady);
    SumOfTwo(PlaceTerm(s.at, TablesLaw(), All()), MemoryInitQ, MemoryInitQ);
  }

  lemma SumOfOneThread(f: Thread -> int)
    requires forall t :: t != ToReady ==> f(t) == 0
    ensures SumThreads(f) == f(ToReady)
  {
  }

  ghost predicate Responsive(c: Config, s: State) {
    Safe(c, s) && Accounted(s, Creation) && Accounted(s, Termination)
  }

  lemma ResponsiveInitially(c: Config)
    ensures Responsive(c, Initial(c))
  {
    hide Safe;
    SafeInitially(c);
  }

  lemma ResponsiveKept(c: Config, s: State, e: Step)
    requires Responsive(c, s) && Enabled(c, s, e) && !SendsTwice(s, e)
    ensures Responsive(c, Apply(c, s, e))
  {
    hide Safe, Accounted, Apply, Enabled, SendsTwice;
    SafeKept(c, s, e);
    AccountedKept(c, s, e, Creation);
    AccountedKept(c, s, e, Termination);
  }

  lemma {:induction false} ResponsiveAlways(c: Config, s: State, steps: seq<Step>)
    requires Responsive(c, s) && Runs(c, s, steps) && Guarded(c, s, steps)
    ensures Responsive(c, After(c, s, steps))
    decreases |steps|
  {
    hide Responsive, Apply, Enabled, SendsTwice;
    if steps != [] {
      ResponsiveKept(c, s, steps[0]);
      ResponsiveAlways(c, Apply(c, s, steps[0]), steps[1..]);
    }
  }

  lemma SuspensionIsTaken(c: Config, s: State)
    requires |s.replies| > 0 && s.replies[0].SuspensionReady? && PointOf(s, MemoryListener) == Waiting
    ensures Enabled(c, s, Answer(HandleSuspension))
  {
  }

  lemma TablesAreTaken(c: Config, s: State)
    requires |s.replies| > 0 && s.replies[0].MemoryReady? && PointOf(s, MemoryListener) == Waiting
    requires |At(s.at, MemoryInitQ)| > 0 && At(s.at, MemoryInitQ)[0].pid == s.replies[0].pid
    ensures Enabled(c, s, Answer(HandleTables))
  {
  }

  lemma ExitIsTaken(c: Config, s: State, i: nat)
    requires |s.replies| > 0 && s.replies[0].ExitReady? && PointOf(s, MemoryListener) == Waiting
    requires i < |At(s.at, MemoryExitQ)| && At(s.at, MemoryExitQ)[i].pid == s.replies[0].pid
    ensures Enabled(c, s, Answer(HandleExitDone(i)))
  {
  }

  lemma ReplyHasItsProcess(s: State, t: Topic, pid: nat) returns (i: nat)
    requires Accounted(s, t) && |s.replies| > 0 && Answers(t, pid, s.replies[0])
    ensures i < |At(s.at, Waiters(t))| && At(s.at, Waiters(t))[i].pid == pid
  {
    assert Asked(t, pid, s.requests) + Answered(t, pid, s.replies) == Occurrences(At(s.at, Waiters(t)), pid);
    i := OccurrenceIndex(At(s.at, Waiters(t)), pid);
  }

  lemma ResponsiveTables(c: Config, s: State)
    requires Responsive(c, s)
    ensures BalanceOf(s, TablesLaw()) == 0 && AtOwnPoints(s)
  {
    hide BalanceOf, Checked, Messages, Accounted, AtOwnPoints;
  }

  /** Where the listener is ready for a reply there is a step that takes it. */
  lemma ReplyIsTaken(c: Config, s: State) returns (e: Step)
    requires Responsive(c, s) && |s.replies| > 0 && PointOf(s, MemoryListener) == Waiting
    ensures TakesReply(e) && Enabled(c, s, e)
  {
    hide BalanceOf, Safe, Enabled, Accounted, AtOwnPoints, TablesLaw, At;
    var r := s.replies[0];
    ResponsiveTables(c, s);
    if r.SuspensionReady? {
      e := Answer(HandleSuspension);
      SuspensionIsTaken(c, s);
    } else if r.MemoryReady? {
      var i := ReplyHasItsProcess(s, Creation, r.pid);
      OneAwaitsTables(s);
      e := Answer(HandleTables);
      TablesAreTaken(c, s);
    } else {
      var i := ReplyHasItsProcess(s, Termination, r.pid);
      e := Answer(HandleExitDone(i));
      ExitIsTaken(c, s, i);
    }
  }

  /** In every state a guarded run reaches, the next reply of memory can be taken. */
  lemma EveryReplyFindsItsProcess(c: Config, steps: seq<Step>)
    requires Runs(c, Initial(c), steps) && Guarded(c, Initial(c), steps)
    requires |After(c, Initial(c), steps).replies| > 0
    requires PointOf(After(c, Initial(c), steps), MemoryListener) == Waiting
    ensures exists e :: TakesReply(e) && Enabled(c, After(c, Initial(c), steps), e)
  {
    hide Initial, Runs, Guarded, After, Responsive, Enabled, TakesReply;
    ResponsiveInitially(c);
    ResponsiveAlways(c, Initial(c), steps);
    var e := ReplyIsTaken(c, After(c, Initial(c), steps));
  }
}
