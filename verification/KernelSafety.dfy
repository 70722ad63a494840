/** What the counting laws mean for the threads: no worker ever blocks on the wrong branch or on an empty queue,
    the CPU is exclusive, credits are conserved, and put_to_ready's critical section excludes itself. */
module KernelSafety {
  import opened Processes
  import opened Kernel
  import opened KernelLaws

  predicate Balances(c: Config, s: State) {
    && BalanceOf(s, CpuLaw()) == 1 && BalanceOf(s, ReadyLaw()) == 0 && BalanceOf(s, IoLaw()) == 0
    && BalanceOf(s, AnyLaw()) == 0
    && BalanceOf(s, ExitLaw()) == 0 && BalanceOf(s, CreditLaw()) == c.multiprogrammingLevel
    && BalanceOf(s, MutexLaw()) == 1
    && BalanceOf(s, TablesLaw()) == 0 && BalanceOf(s, ToReadyHandLaw()) == 0 && BalanceOf(s, AdmittingHandLaw()) == 0
    && BalanceOf(s, IoHandLaw()) == 0 && BalanceOf(s, SuspendingHandLaw()) == 0 && BalanceOf(s, SleepingHandLaw()) == 0
    && BalanceOf(s, ExitHandLaw()) == 0 && BalanceOf(s, ResumingHandLaw()) == 0
  }

  lemma BalancesKept(c: Config, s: State, e: Step)
    requires Balances(c, s) && Enabled(c, s, e) && !SendsTwice(s, e) && e != Admit(SeeNothing)
    ensures Balances(c, Apply(c, s, e))
  {
    hide BalanceOf, Apply, Proper, Startable, Guard, SendsTwice, ShapeOf, Net, Proportioned;
    hide CpuLaw, ReadyLaw, IoLaw, AnyLaw, ExitLaw, CreditLaw, MutexLaw, TablesLaw, ToReadyHandLaw, AdmittingHandLaw,
         ResumingHandLaw, IoHandLaw, SuspendingHandLaw, SleepingHandLaw, ExitHandLaw;
    BalanceAfter(c, s, e, CpuLaw()); CpuCancels(e);
    BalanceAfter(c, s, e, ReadyLaw()); ReadyCancels(e);
    BalanceAfter(c, s, e, IoLaw()); IoCancels(e);
    BalanceAfter(c, s, e, AnyLaw()); AnyCancels(e);
    BalanceAfter(c, s, e, ExitLaw()); ExitCancels(e);
    BalanceAfter(c, s, e, CreditLaw()); CreditCancels(e);
    BalanceAfter(c, s, e, MutexLaw()); MutexCancels(e);
    BalanceAfter(c, s, e, TablesLaw()); TablesCancels(e);
    BalanceAfter(c, s, e, ToReadyHandLaw()); ToReadyHandCancels(e);
    BalanceAfter(c, s, e, AdmittingHandLaw()); AdmittingHandCancels(e);
    BalanceAfter(c, s, e, ResumingHandLaw()); ResumingHandCancels(e);
    BalanceAfter(c, s, e, IoHandLaw()); IoHandCancels(e);
    BalanceAfter(c, s, e, SuspendingHandLaw()); SuspendingHandCancels(e);
    BalanceAfter(c, s, e, SleepingHandLaw()); SleepingHandCancels(e);
    BalanceAfter(c, s, e, ExitHandLaw()); ExitHandCancels(e);
  }

  // ---- Queues a thread has looked into ------------------------------------------------

  predicate CheckedByToReady(s: State) {
    && (PointOf(s, ToReady).TakeSuspended? ==> |At(s.at, SuspendedReadyQ)| > 0)
    && (PointOf(s, ToReady).CheckNew? || PointOf(s, ToReady).TakeNew? ==> |At(s.at, NewQ)| > 0)
  }

  predicate CheckedByIoListener(s: State) {
    && (PointOf(s, IoListener).TakeBlocked? ==> |At(s.at, BlockedQ)| > 0)
    && (PointOf(s, IoListener).TakeSuspendedBlocked? ==> |At(s.at, SuspendedBlockedQ)| > 0)
  }

  /** pQueue_is_empty and pQueue_take are two steps; nobody else empties the queue in between. */
  predicate Checked(s: State) { CheckedByToReady(s) && CheckedByIoListener(s) }

  lemma LengthAfter(c: Config, s: State, e: Step, x: Place)
    requires Enabled(c, s, e) && !SendsTwice(s, e) && x != Nowhere
    ensures |At(PlacesAfter(c, s, e), x)| == |At(s.at, x)| + B(ShapeOf(e).to == x) - B(ShapeOf(e).from == x)
  {
    hide Carried, Guard, ShapeOf;
    MovesAreWhole(e);
    if Sorts(e) { SortKeepsLength(c, s, e); }
  }

  lemma PointsAndCounters(c: Config, s: State, e: Step)
    requires Startable(s, e)
    ensures var h, s' := ShapeOf(e), Apply(c, s, e);
            && (forall t :: PointOf(s', t) == if t == h.thread then h.next else PointOf(s, t))
            && (forall x :: x != Nothing ==> N(s', x) == N(s, x) - B(h.wait == x) + B(h.post == x))
  {
    hide ShapeOf, PlacesAfter, HeadersAfter, HistoryAfter, Sent, RepliesAfter, Residents, SendsTwice;
  }

  /** A place stays as it is unless something leaves it, comes to it or sorts it. */
  lemma PlaceUnchanged(c: Config, s: State, e: Step, x: Place)
    requires ShapeOf(e).from != x && ShapeOf(e).to != x
    requires (Sorts(e) ==> x != ReadyQ) && (SendsTwice(s, e) ==> x != CpuOutbox)
    ensures At(PlacesAfter(c, s, e), x) == At(s.at, x)
  {
    hide Carried, Created, ShapeOf, Take, Put, SendsTwice, Index;
    MovesAreWhole(e);
    ElsewhereIsTheSame(x);
  }

  lemma ElsewhereIsTheSame(x: Place)
    ensures forall at, y, pcb {:trigger Put(at, y, pcb)} :: y != x ==> At(Put(at, y, pcb), x) == At(at, x)
    ensures forall at, y, i: nat {:trigger Take(at, y, i)} :: y != x ==> At(Take(at, y, i), x) == At(at, x)
  {
  }

  /** any_for_ready is what new_q and suspended_ready_q hold, less what threads are about to post or have taken. */
  lemma AnyTokens(s: State)
    requires BalanceOf(s, AnyLaw()) == 0
    ensures |At(s.at, NewQ)| + |At(s.at, SuspendedReadyQ)| >= N(s, AnyForReady)
    ensures PointOf(s, ToReady).ChooseQueue? ==> |At(s.at, NewQ)| + |At(s.at, SuspendedReadyQ)| > 0
  {
    hide BalanceOf, Tally;
    AtLeast(s, AnyLaw(), AnyForReady, ToReady, IoListener);
    TallyOfTwo(s.at, AnyLaw(), NewQ, SuspendedReadyQ);
  }

  lemma IoTokens(s: State)
    requires BalanceOf(s, IoLaw()) == 0
    ensures |At(s.at, BlockedQ)| + |At(s.at, SuspendedBlockedQ)| >= N(s, ProcessForIo)
    ensures PointOf(s, IoListener).CheckBlocked? ==> |At(s.at, BlockedQ)| + |At(s.at, SuspendedBlockedQ)| > 0
  {
    hide BalanceOf, Tally;
    AtLeast(s, IoLaw(), ProcessForIo, IoListener, DispatchListener);
    TallyOfTwo(s.at, IoLaw(), BlockedQ, SuspendedBlockedQ);
  }

  lemma ToReadyConsumes(e: Step)
    requires Proper(e)
    ensures var h := ShapeOf(e);
            && (h.from == NewQ || h.from == SuspendedReadyQ ==> h.thread == ToReady)
            && (h.thread == ToReady && h.next.TakeSuspended? ==> e == Admit(SeeSuspended))
            && (h.thread == ToReady && h.next.CheckNew? ==> e == Admit(SeeNoSuspended) && h.here.ChooseQueue?)
            && (h.thread == ToReady && h.next.TakeNew? ==> e == Admit(SeeNew))
            && (e.Admit? && (e.admit.SeeSuspended? || e.admit.SeeNoSuspended? || e.admit.SeeNew?) ==>
                h.from == Nowhere && h.to == Nowhere)
  {
  }

  lemma IoListenerConsumes(e: Step)
    requires Proper(e)
    ensures var h := ShapeOf(e);
            && (h.from == BlockedQ || h.from == SuspendedBlockedQ ==> h.thread == IoListener)
            && (h.thread == IoListener && h.next.TakeBlocked? ==> e == Step.Io(SeeBlocked))
            && (h.thread == IoListener && h.next.TakeSuspendedBlocked? ==>
                e == Step.Io(SeeNoBlocked) && h.here.CheckBlocked?)
            && (e.Io? && (e.io.SeeBlocked? || e.io.SeeNoBlocked?) ==> h.from == Nowhere && h.to == Nowhere)
  {
  }

  lemma ToReadyKept(c: Config, s: State, e: Step)
    requires CheckedByToReady(s) && BalanceOf(s, AnyLaw()) == 0 && Enabled(c, s, e) && !SendsTwice(s, e)
    ensures CheckedByToReady(Apply(c, s, e))
  {
    hide BalanceOf, PlacesAfter, CountAfter, HeadersAfter, HistoryAfter, Sent, RepliesAfter, Residents, ShapeOf, Proper;
    ToReadyConsumes(e);
    AnyTokens(s);
    LengthAfter(c, s, e, NewQ);
    LengthAfter(c, s, e, SuspendedReadyQ);
  }

  lemma IoListenerKept(c: Config, s: State, e: Step)
    requires CheckedByIoListener(s) && BalanceOf(s, IoLaw()) == 0 && Enabled(c, s, e) && !SendsTwice(s, e)
    ensures CheckedByIoListener(Apply(c, s, e))
  {
    hide BalanceOf, PlacesAfter, CountAfter, HeadersAfter, HistoryAfter, Sent, RepliesAfter, Residents, ShapeOf, Proper;
    IoListenerConsumes(e);
    IoTokens(s);
    LengthAfter(c, s, e, BlockedQ);
    LengthAfter(c, s, e, SuspendedBlockedQ);
  }

  lemma CheckedKept(c: Config, s: State, e: Step)
    requires Checked(s) && BalanceOf(s, AnyLaw()) == 0 && BalanceOf(s, IoLaw()) == 0
    requires Enabled(c, s, e) && !SendsTwice(s, e)
    ensures Checked(Apply(c, s, e))
  {
    hide BalanceOf, Apply, Enabled, SendsTwice;
    ToReadyKept(c, s, e);
    IoListenerKept(c, s, e);
  }

  // ---- Who stands where ---------------------------------------------------------------

  predicate InPut(t: Thread, p: Point) {
    p == Enqueue(t) || p == Check(t) || p == AwaitInterrupt(t) || p == Sort(t) || p == Post(t)
  }

  /** The points of the code a thread runs. */
  predicate Owns(t: Thread, p: Point) {
    p.Anywhere? || match t
      case Handlers => false
      case ToReady =>
        p.AwaitAny? || p.AwaitCredit? || p.ChooseQueue? || p.TakeSuspended? || p.CheckNew? || p.TakeNew?
            || p.RequestTables?
        || p.AwaitTables? || p.RequestResume? || InPut(t, p)
      case IoListener =>
        p.AwaitIo? || p.CheckBlocked? || p.TakeBlocked? || p.TakeSuspendedBlocked? || p.RequestSuspension?
            || p.AwaitSuspension?
        || p.EnterSuspended? || p.PostCredit? || p.PostIo? || p.SleepSuspended? || p.PostAny? || InPut(t, p)
      case ToExec => p.AwaitReady? || p.AwaitCpu? || p.Dispatch? || p.Timing?
      case ExitProcess => p.AwaitExit? || p.TakeExit? || p.RequestExit?
      case DispatchListener =>
        p.Listening? || p.IoPostCpu? || p.IoPostIo? || p.ExitPostExit? || p.ExitPostCpu? || p.PreemptPostReady?
        || p.PreemptPostCpu? || p.PreemptPostDone?
      case MemoryListener => p.Waiting? || p.PostTables? || p.PostExitCredit?
  }

  ghost predicate AtOwnPoints(s: State) { forall t :: Owns(t, PointOf(s, t)) }

  lemma StepsToOwnPoint(e: Step)
    requires Proper(e)
    ensures Owns(ShapeOf(e).thread, ShapeOf(e).next)
  {
  }

  lemma AtOwnPointsKept(c: Config, s: State, e: Step)
    requires AtOwnPoints(s) && Enabled(c, s, e)
    ensures AtOwnPoints(Apply(c, s, e))
  {
    hide PlacesAfter, CountAfter, HeadersAfter, HistoryAfter, Sent, RepliesAfter, Residents, ShapeOf, Startable, Guard,
         Proper, Owns;
    StepsToOwnPoint(e);
    forall t ensures Owns(t, PointOf(Apply(c, s, e), t)) { assert Owns(t, PointOf(s, t)); }
  }

  // ---- The CPU and its interruptions --------------------------------------------------

  lemma CpuIsNotShared(s: State)
    requires BalanceOf(s, CpuLaw()) == 1
    ensures N(s, CpuFree) + B(PointOf(s, ToExec).Dispatch?) + CpuPoint(PointOf(s, DispatchListener))
            + |At(s.at, CpuInbox)| + |At(s.at, CpuRunning)| + |At(s.at, CpuOutbox)| <= 1
  {
    hide BalanceOf, Tally;
    AtLeast(s, CpuLaw(), CpuFree, ToExec, DispatchListener);
    CpuTally(s.at);
  }

  lemma CpuTally(at: Places)
    ensures Tally(at, CpuLaw(), All()) == |At(at, CpuInbox)| + |At(at, CpuRunning)| + |At(at, CpuOutbox)|
  {
    hide SumPlaces;
    SumOfThree(PlaceTerm(at, CpuLaw(), All()), CpuInbox, CpuRunning, CpuOutbox);
  }

  lemma CpuUnits(s: State)
    ensures Units(s.count, CpuLaw()) == N(s, CpuFree)
  {
  }

  lemma CpuThreads(s: State)
    requires AtOwnPoints(s)
    ensures Threads(s.point, CpuLaw()) == B(PointOf(s, ToExec).Dispatch?) + CpuPoint(PointOf(s, DispatchListener))
  {
    forall t ensures ThreadTerm(s.point, CpuLaw())(t)
                  == if t == ToExec then B(PointOf(s, ToExec).Dispatch?)
                     else if t == DispatchListener then CpuPoint(PointOf(s, t))
                     else 0 {
      assert Owns(t, PointOf(s, t));
    }
  }

  /** The CPU always belongs to exactly one: it is free, a dispatch or the handling of a return has its token, or a
      PCB is on its way to it, with it, or on its way back. */
  lemma CpuIsExclusive(c: Config, s: State)
    requires Safe(c, s)
    ensures N(s, CpuFree) + B(PointOf(s, ToExec).Dispatch?) + CpuPoint(PointOf(s, DispatchListener))
            + |At(s.at, CpuInbox)| + |At(s.at, CpuRunning)| + |At(s.at, CpuOutbox)| == 1
  {
    hide Tally, Units, Threads, Checked, Messages, AtOwnPoints, CpuLaw, CpuPoint;
    CpuUnits(s);
    CpuThreads(s);
    CpuTally(s.at);
  }

  /** A preempted PCB that the CPU has sent back and nobody has handled; the outbox holds at most one. */
  function Notices(headers: seq<CpuHeader>): int { B(|headers| > 0 && headers[0].InterruptDispatch?) }

  predicate Messages(s: State) {
    && |s.headers| == |At(s.at, CpuOutbox)|
    && !s.stuck
    && BalanceOf(s, InterruptLaw()) + Notices(s.headers) == 0
  }

  lemma InterruptUnits(s: State)
    ensures Units(s.count, InterruptLaw()) == N(s, InterruptWire) + N(s, Interruption) + N(s, InterruptReady)
    ensures Units(s.count, MutexLaw()) == N(s, MutexFree)
  {
  }

  lemma NothingInPlaces(at: Places)
    ensures Tally(at, MutexLaw(), All()) == 0 && Tally(at, InterruptLaw(), All()) == 0
  {
    hide SumPlaces;
    SumOfTwo(PlaceTerm(at, MutexLaw(), All()), NewQ, NewQ);
    SumOfTwo(PlaceTerm(at, InterruptLaw(), All()), NewQ, NewQ);
  }

  /** to_exec has sent a process and not read the clock yet. */
  predicate IsTiming(s: State) { PointOf(s, ToExec).Timing? }

  /** Whether execution_mutex is free or with to_exec: no put_to_ready is inside its critical section. */
  function Unlocked(s: State): int { N(s, MutexFree) + B(IsTiming(s)) }

  lemma TermsOf(s: State, t: Thread)
    ensures ThreadTerm(s.point, InterruptLaw())(t) == InterruptPoint(PointOf(s, t))
    ensures ThreadTerm(s.point, MutexLaw())(t) == MutexPoint(PointOf(s, t))
  {
  }

  /** handle_interruption has put the preempted process into ready_q and is not done yet. */
  predicate IsPreempting(s: State) {
    var p := PointOf(s, DispatchListener);
    p.PreemptPostReady? || p.PreemptPostCpu? || p.PreemptPostDone?
  }

  /** Whoever waits for an interruption is in put_to_ready's critical section. */
  lemma AwaitingHolds(s: State)
    ensures Threads(s.point, InterruptLaw()) + Threads(s.point, MutexLaw()) >= B(IsTiming(s)) + B(IsPreempting(s))
  {
    hide SumThreads;
    var f, g := ThreadTerm(s.point, InterruptLaw()), ThreadTerm(s.point, MutexLaw());
    var minus := (t: Thread) => -g(t);
    var one, more := B(IsTiming(s)), B(IsPreempting(s));
    var timing := (t: Thread) => if t == ToExec then minus(t) + one else minus(t);
    var low := (t: Thread) => if t == DispatchListener then timing(t) + more else timing(t);
    forall t ensures low(t) <= f(t) {
      TermsOf(s, t);
      assert minus(t) == -MutexPoint(PointOf(s, t));
    }
    SumThreadsMonotone(low, f);
    SumThreadsNegated(g, minus);
    SumThreadsChange(minus, timing, ToExec);
    SumThreadsChange(timing, low, DispatchListener);
  }

  lemma InterruptsHoldTheMutex(s: State)
    requires BalanceOf(s, MutexLaw()) == 1 && BalanceOf(s, InterruptLaw()) + Notices(s.headers) == 0
    ensures N(s, InterruptWire) + N(s, Interruption) + N(s, InterruptReady) + Notices(s.headers) + B(IsPreempting(s))
            + Unlocked(s) <= 1
  {
    hide Units, Threads, Tally, MutexLaw, InterruptLaw;
    InterruptUnits(s);
    NothingInPlaces(s.at);
    AwaitingHolds(s);
  }

  lemma SumThreadsNegated(f: Thread -> int, g: Thread -> int)
    requires forall t :: g(t) == -f(t)
    ensures SumThreads(g) == -SumThreads(f)
  {
  }

  lemma HeadersFollowTheOutbox(e: Step)
    ensures ShapeOf(e).to == CpuOutbox <==> e.Cpu? && (e.cpu.ExecuteYield? || e.cpu.ExecuteIo? || e.cpu.ExecuteExit?)
    ensures ShapeOf(e).from == CpuOutbox <==>
        e.Return? && (e.return_.HandleIo? || e.return_.HandleExit? || e.return_.HandleInterrupt?)
    ensures e.Cpu? && !e.cpu.CpuReceive? ==> ShapeOf(e).from == CpuRunning || ShapeOf(e).from == Nowhere
    ensures ShapeOf(e).to == CpuOutbox ==> ShapeOf(e).from == CpuRunning
  {
  }

  lemma HeadersAgree(c: Config, s: State, e: Step)
    requires |s.headers| == |At(s.at, CpuOutbox)| && Enabled(c, s, e) && !SendsTwice(s, e)
    ensures |HeadersAfter(s, e)| == |At(PlacesAfter(c, s, e), CpuOutbox)|
  {
    hide PlacesAfter, ShapeOf, Proper, Guard, CanExecute, OperationOf;
    HeadersFollowTheOutbox(e);
    LengthAfter(c, s, e, CpuOutbox);
  }

  /** A notice appears when the CPU yields and goes when it is handled. */
  lemma NoticesAfter(c: Config, s: State, e: Step)
    requires |s.headers| == |At(s.at, CpuOutbox)| && BalanceOf(s, CpuLaw()) == 1 && Enabled(c, s, e)
    requires !SendsTwice(s, e)
    ensures Notices(HeadersAfter(s, e))
        == Notices(s.headers) + B(e == Cpu(ExecuteYield)) - B(e.Return? && e.return_.HandleInterrupt?)
  {
    hide BalanceOf, ShapeOf, Proper, CanExecute, OperationOf, SortOf, InTime, CpuLaw;
    HeadersFollowTheOutbox(e);
    CpuIsNotShared(s);
  }

  lemma NoSecondInterruption(c: Config, s: State, e: Step)
    requires BalanceOf(s, MutexLaw()) == 1 && BalanceOf(s, InterruptLaw()) + Notices(s.headers) == 0 && Enabled(c, s, e)
    ensures e != Cpu(CpuInterruptedAgain)
  {
    hide BalanceOf, ShapeOf, Proper, CanExecute, OperationOf, SortOf, InTime, MutexLaw, InterruptLaw;
    InterruptsHoldTheMutex(s);
    InterruptAgainNeedsTwo(s, e);
  }

  lemma MessagesKept(c: Config, s: State, e: Step)
    requires Messages(s) && BalanceOf(s, CpuLaw()) == 1 && BalanceOf(s, MutexLaw()) == 1
    requires Enabled(c, s, e) && !SendsTwice(s, e)
    ensures Messages(Apply(c, s, e)) && e != Cpu(CpuInterruptedAgain)
  {
    hide BalanceOf, PlacesAfter, CountAfter, HeadersAfter, HistoryAfter, Sent, RepliesAfter, Residents, ShapeOf,
         Startable, Guard, Net, Notices, CpuLaw, MutexLaw, InterruptLaw;
    NoSecondInterruption(c, s, e);
    HeadersAgree(c, s, e);
    NoticesAfter(c, s, e);
    InterruptCancels(e);
    BalanceAfter(c, s, e, InterruptLaw());
  }

  lemma InterruptAgainNeedsTwo(s: State, e: Step)
    requires Startable(s, e)
    ensures e == Cpu(CpuInterruptedAgain) ==> N(s, InterruptWire) > 0
  {
  }

  predicate Dispatches(e: Step) { e.Exec? && e.exec.DispatchHead? }

  predicate ReadsTime(e: Step) { e.Exec? && e.exec.ReadTime? }

  // ---- The invariant ------------------------------------------------------------------

  ghost predicate Safe(c: Config, s: State) {
    Balances(c, s) && Checked(s) && Messages(s) && AtOwnPoints(s) && (!c.srt ==> Unlocked(s) == 1)
  }

  lemma MutexShapes(e: Step)
    requires Proper(e)
    ensures ShapeOf(e).wait == MutexFree <==> (e.PutToReady? && e.put.EnqueueSrt?) || Dispatches(e)
    ensures ShapeOf(e).post == MutexFree <==> Sorts(e) || ReadsTime(e)
    ensures Dispatches(e) ==> ShapeOf(e).thread == ToExec && ShapeOf(e).next.Timing?
    ensures ShapeOf(e).thread == ToExec && !Dispatches(e) ==> !ShapeOf(e).next.Timing?
    ensures ShapeOf(e).thread == ToExec ==> (ShapeOf(e).here.Timing? <==> ReadsTime(e))
    ensures ReadsTime(e) ==> ShapeOf(e).thread == ToExec
  {
  }

  /** Only put_to_ready under SRT enters and leaves the critical section. */
  lemma UnlockedAfter(c: Config, s: State, e: Step)
    requires Enabled(c, s, e)
    ensures Unlocked(Apply(c, s, e)) == Unlocked(s) - B(e.PutToReady? && e.put.EnqueueSrt?) + B(Sorts(e))
  {
    hide PlacesAfter, HeadersAfter, HistoryAfter, Sent, RepliesAfter, Residents, Given, ShapeOf, Guard, Proper;
    MutexShapes(e);
  }

  lemma SortsInside(s: State, e: Step)
    requires Startable(s, e) && Proper(e) && Sorts(e) && BalanceOf(s, MutexLaw()) == 1
    ensures Unlocked(s) == 0
  {
    hide BalanceOf;
    AtLeast(s, MutexLaw(), MutexFree, e.t, ToExec);
    NothingInPlaces(s.at);
  }

  lemma HandledIsNoticed(c: Config, s: State, e: Step)
    requires Enabled(c, s, e) && e.Return? && e.return_.HandleInterrupt?
    ensures Notices(s.headers) == 1
  {
    hide ShapeOf;
  }

  /** to_exec has read the clock before a preemption is handled. */
  lemma PreemptedAreTimed(c: Config, s: State, e: Step)
    requires Safe(c, s) && Enabled(c, s, e) && e.Return? && e.return_.HandleInterrupt?
    ensures !IsTiming(s)
  {
    hide BalanceOf, Checked, AtOwnPoints, ShapeOf, Guard, Notices;
    HandledIsNoticed(c, s, e);
    InterruptsHoldTheMutex(s);
  }

  lemma TimingAfter(c: Config, s: State, e: Step)
    requires Enabled(c, s, e)
    ensures IsTiming(Apply(c, s, e)) <==> Dispatches(e) || (IsTiming(s) && !ReadsTime(e))
    ensures ReadsTime(e) ==> IsTiming(s)
  {
    hide PlacesAfter, CountAfter, HeadersAfter, HistoryAfter, Sent, RepliesAfter, Residents, Given, ShapeOf, Guard,
         Proper;
    MutexShapes(e);
  }

  lemma FifoKept(c: Config, s: State, e: Step)
    requires !c.srt && Unlocked(s) == 1 && BalanceOf(s, MutexLaw()) == 1 && Enabled(c, s, e)
    ensures Unlocked(Apply(c, s, e)) == 1
  {
    hide BalanceOf, Apply, ShapeOf, Startable, Unlocked;
    UnlockedAfter(c, s, e);
    if Sorts(e) { SortsInside(s, e); }
  }

  /** to_ready never gives a credit up: after its token it always finds a process to admit. */
  lemma NoCreditIsBurnt(c: Config, s: State)
    requires Safe(c, s)
    ensures !Enabled(c, s, Admit(SeeNothing))
  {
    hide Balances, Messages, AtOwnPoints;
  }

  lemma BalanceInitially(c: Config, l: Law)
    ensures BalanceOf(Initial(c), l)
         == Signed(l.counter(Multiprogram), c.multiprogrammingLevel) + l.counter(CpuFree) + l.counter(SuspensionDone)
            + l.counter(MutexFree) + l.point(AwaitAny) + l.point(AwaitIo) + l.point(AwaitReady) + l.point(AwaitExit)
            + l.point(Listening) + l.point(Waiting)
  {
  }

  lemma BalancesInitiallyA(c: Config)
    ensures BalanceOf(Initial(c), CpuLaw()) == 1 && BalanceOf(Initial(c), ReadyLaw()) == 0
    ensures BalanceOf(Initial(c), IoLaw()) == 0 && BalanceOf(Initial(c), AnyLaw()) == 0
  {
    hide BalanceOf, Initial;
    BalanceInitially(c, CpuLaw()); BalanceInitially(c, ReadyLaw()); BalanceInitially(c, IoLaw());
    BalanceInitially(c, AnyLaw());
  }

  lemma BalancesInitiallyB(c: Config)
    ensures BalanceOf(Initial(c), ExitLaw()) == 0 && BalanceOf(Initial(c), CreditLaw()) == c.multiprogrammingLevel
  {
    hide BalanceOf, Initial;
    BalanceInitially(c, ExitLaw()); BalanceInitially(c, CreditLaw());
  }

  lemma BalancesInitiallyE(c: Config)
    ensures BalanceOf(Initial(c), MutexLaw()) == 1 && BalanceOf(Initial(c), TablesLaw()) == 0
  {
    hide BalanceOf, Initial;
    BalanceInitially(c, MutexLaw()); BalanceInitially(c, TablesLaw());
  }

  lemma BalancesInitiallyC(c: Config)
    ensures BalanceOf(Initial(c), ToReadyHandLaw()) == 0 && BalanceOf(Initial(c), AdmittingHandLaw()) == 0
    ensures BalanceOf(Initial(c), IoHandLaw()) == 0 && BalanceOf(Initial(c), SuspendingHandLaw()) == 0
  {
    hide BalanceOf, Initial;
    BalanceInitially(c, ToReadyHandLaw()); BalanceInitially(c, AdmittingHandLaw()); BalanceInitially(c, IoHandLaw());
    BalanceInitially(c, SuspendingHandLaw());
  }

  lemma BalancesInitiallyD(c: Config)
    ensures BalanceOf(Initial(c), ResumingHandLaw()) == 0 && BalanceOf(Initial(c), SleepingHandLaw()) == 0
    ensures BalanceOf(Initial(c), ExitHandLaw()) == 0 && BalanceOf(Initial(c), InterruptLaw()) == 0
  {
    hide BalanceOf, Initial;
    BalanceInitially(c, ResumingHandLaw());
    BalanceInitially(c, SleepingHandLaw()); BalanceInitially(c, ExitHandLaw()); BalanceInitially(c, InterruptLaw());
  }

  lemma SafeInitially(c: Config)
    ensures Safe(c, Initial(c))
  {
    hide BalanceOf, AtOwnPoints, Unlocked, CpuLaw, ReadyLaw, IoLaw, AnyLaw, ExitLaw, CreditLaw, MutexLaw, TablesLaw,
         ToReadyHandLaw, AdmittingHandLaw, ResumingHandLaw, IoHandLaw, SuspendingHandLaw, SleepingHandLaw, ExitHandLaw,
             InterruptLaw;
    BalancesInitiallyA(c); BalancesInitiallyB(c); BalancesInitiallyC(c); BalancesInitiallyD(c); BalancesInitiallyE(c);
    InitiallyAtOwnPoints(c);
    InitiallyUnlocked(c);
  }

  lemma InitiallyUnlocked(c: Config)
    ensures Unlocked(Initial(c)) == 1
  {
  }

  lemma InitiallyAtOwnPoints(c: Config)
    ensures AtOwnPoints(Initial(c))
  {
  }

  lemma SafeKept(c: Config, s: State, e: Step)
    requires Safe(c, s) && Enabled(c, s, e) && !SendsTwice(s, e)
    ensures Safe(c, Apply(c, s, e))
  {
    hide BalanceOf, Checked, Messages, AtOwnPoints, Apply, Proper, Startable, Guard;
    NoCreditIsBurnt(c, s);
    BalancesKept(c, s, e);
    CheckedKept(c, s, e);
    MessagesKept(c, s, e);
    AtOwnPointsKept(c, s, e);
    if !c.srt { FifoKept(c, s, e); }
  }

  /** Every guarded run of the scheduler keeps the invariant. */
  lemma {:induction false} SafeAlways(c: Config, s: State, steps: seq<Step>)
    requires Safe(c, s) && Runs(c, s, steps) && Guarded(c, s, steps)
    ensures Safe(c, After(c, s, steps))
    decreases |steps|
  {
    hide Safe, Apply, Enabled, SendsTwice;
    if steps != [] {
      SafeKept(c, s, steps[0]);
      SafeAlways(c, Apply(c, s, steps[0]), steps[1..]);
    }
  }

  lemma FifoNeverSendsTwice(c: Config, s: State, e: Step)
    requires !c.srt && Safe(c, s)
    ensures !SendsTwice(s, e)
  {
    hide BalanceOf, Checked, AtOwnPoints;
    InterruptsHoldTheMutex(s);
  }

  // ---- What the invariant promises ----------------------------------------------------

  /** Processes that were admitted and are neither suspended nor acknowledged as exited. */
  function Admitted(at: Places): nat {
    |At(at, AdmittingHand)| + |At(at, ResumingHand)| + |At(at, ToReadyHand)| + |At(at, MemoryInitQ)| + |At(at, ReadyQ)|
        + |At(at, CpuInbox)|
    + |At(at, CpuRunning)| + |At(at, CpuOutbox)| + |At(at, BlockedQ)| + |At(at, IoHand)| + |At(at, SuspendingHand)|
    + |At(at, ExitQ)| + |At(at, ExitHand)| + |At(at, MemoryExitQ)|
  }

  lemma CreditTally(at: Places)
    ensures Tally(at, CreditLaw(), All()) == Admitted(at)
  {
    hide Proportioned, At;
  }

  /** The multiprogramming level bounds the admitted processes, and every credit not given out is in the semaphore
      or held by a thread between two steps. */
  lemma CreditsAreConserved(c: Config, s: State)
    requires Safe(c, s)
    ensures N(s, Multiprogram) + Threads(s.point, CreditLaw()) + Admitted(s.at) == c.multiprogrammingLevel
    ensures Threads(s.point, CreditLaw()) >= 0 && Admitted(s.at) <= c.multiprogrammingLevel
  {
    hide Tally, Units, Threads, Checked, Messages, AtOwnPoints, CreditLaw;
    CreditTally(s.at);
    CreditUnits(s);
    CreditPointsWeigh(s);
  }

  lemma CreditUnits(s: State)
    ensures Units(s.count, CreditLaw()) == N(s, Multiprogram)
  {
  }

  lemma CreditPointsWeigh(s: State)
    ensures Threads(s.point, CreditLaw()) >= 0
  {
    hide SumThreads;
    SumThreadsMonotone((t: Thread) => 0, ThreadTerm(s.point, CreditLaw()));
    ThreadsOfNothing();
  }

  lemma ThreadsOfNothing()
    ensures SumThreads((t: Thread) => 0) == 0
  {
  }

  /** A law of one queue: its PCBs are at least the tokens of the semaphore and the threads that hold one. */
  lemma QueueHoldsItsTokens(s: State, l: Law, q: Place, x: Counter, t: Thread)
    requires BalanceOf(s, l) == 0 && q != Nowhere && x != Nothing && t != Handlers
    requires (forall p :: l.point(p) >= 0) && (forall y :: l.place(y) == if y == q then -1 else 0)
    ensures |At(s.at, q)| >= Signed(l.counter(x), N(s, x)) + l.point(PointOf(s, t))
  {
    hide BalanceOf, Tally;
    AtLeast(s, l, x, t, Handlers);
    TallyOfTwo(s.at, l, q, q);
  }

  /** No semaphore runs ahead of the queues it counts. */
  lemma TokensNeverExceedQueues(c: Config, s: State)
    requires Safe(c, s)
    ensures N(s, AnyForReady) <= |At(s.at, NewQ)| + |At(s.at, SuspendedReadyQ)|
    ensures N(s, ProcessForIo) <= |At(s.at, BlockedQ)| + |At(s.at, SuspendedBlockedQ)|
    ensures N(s, ReadyForExec) <= |At(s.at, ReadyQ)|
    ensures N(s, ToExit) <= |At(s.at, ExitQ)|
  {
    hide BalanceOf, Checked, Messages, AtOwnPoints, CpuLaw, ReadyLaw, IoLaw, AnyLaw, ExitLaw, CreditLaw, MutexLaw,
         TablesLaw, ToReadyHandLaw, AdmittingHandLaw, ResumingHandLaw, IoHandLaw, SuspendingHandLaw, SleepingHandLaw,
         ExitHandLaw;
    AnyTokens(s);
    IoTokens(s);
    ReadyTokens(s);
    ExitTokens(s);
  }

  lemma ReadyTokens(s: State)
    requires BalanceOf(s, ReadyLaw()) == 0
    ensures N(s, ReadyForExec) <= |At(s.at, ReadyQ)|
  {
    hide BalanceOf;
    QueueHoldsItsTokens(s, ReadyLaw(), ReadyQ, ReadyForExec, ToExec);
  }

  lemma ExitTokens(s: State)
    requires BalanceOf(s, ExitLaw()) == 0
    ensures N(s, ToExit) <= |At(s.at, ExitQ)|
  {
    hide BalanceOf;
    QueueHoldsItsTokens(s, ExitLaw(), ExitQ, ToExit, ExitProcess);
  }

  predicate OfWorker(e: Step) { e.Admit? || e.PutToReady? || e.Io? || e.Exec? || e.Exit? }

  lemma WorkersTakeFrom(e: Step)
    requires OfWorker(e) && Proper(e) && ShapeOf(e).from != Nowhere
    ensures var h := ShapeOf(e);
      match h.from
      case NewQ => h.thread == ToReady && h.here.TakeNew?
      case SuspendedReadyQ => h.thread == ToReady && h.here.TakeSuspended?
      case AdmittingHand => h.thread == ToReady && h.here.RequestTables?
      case ResumingHand => h.thread == ToReady && h.here.RequestResume?
      case ToReadyHand => h.thread == ToReady && h.here == Enqueue(ToReady)
      case BlockedQ => h.thread == IoListener && h.here.TakeBlocked?
      case SuspendedBlockedQ => h.thread == IoListener && h.here.TakeSuspendedBlocked?
      case IoHand => h.thread == IoListener && (h.here.RequestSuspension? || h.here == Enqueue(IoListener))
      case SuspendingHand => h.thread == IoListener && h.here.EnterSuspended?
      case SleepingHand => h.thread == IoListener && h.here.SleepSuspended?
      case ReadyQ => h.thread == ToExec && h.here.Dispatch?
      case ExitQ => h.thread == ExitProcess && h.here.TakeExit?
      case ExitHand => h.thread == ExitProcess && h.here.RequestExit?
      case _ => false
  {
  }

  lemma ToReadyHands(s: State)
    requires BalanceOf(s, AdmittingHandLaw()) == 0 && BalanceOf(s, ResumingHandLaw()) == 0
    requires BalanceOf(s, ToReadyHandLaw()) == 0
    ensures PointOf(s, ToReady).RequestTables? ==> |At(s.at, AdmittingHand)| > 0
    ensures PointOf(s, ToReady).RequestResume? ==> |At(s.at, ResumingHand)| > 0
    ensures PointOf(s, ToReady) == Enqueue(ToReady) ==> |At(s.at, ToReadyHand)| > 0
  {
    hide BalanceOf;
    QueueHoldsItsTokens(s, AdmittingHandLaw(), AdmittingHand, CpuFree, ToReady);
    QueueHoldsItsTokens(s, ResumingHandLaw(), ResumingHand, CpuFree, ToReady);
    QueueHoldsItsTokens(s, ToReadyHandLaw(), ToReadyHand, CpuFree, ToReady);
  }

  lemma IoHands(s: State)
    requires BalanceOf(s, IoHandLaw()) == 0 && BalanceOf(s, SuspendingHandLaw()) == 0
    requires BalanceOf(s, SleepingHandLaw()) == 0
    ensures var p := PointOf(s, IoListener);
            && (p.RequestSuspension? || p == Enqueue(IoListener) ==> |At(s.at, IoHand)| > 0)
            && (p.EnterSuspended? ==> |At(s.at, SuspendingHand)| > 0)
            && (p.SleepSuspended? ==> |At(s.at, SleepingHand)| > 0)
  {
    hide BalanceOf;
    QueueHoldsItsTokens(s, IoHandLaw(), IoHand, CpuFree, IoListener);
    QueueHoldsItsTokens(s, SuspendingHandLaw(), SuspendingHand, CpuFree, IoListener);
    QueueHoldsItsTokens(s, SleepingHandLaw(), SleepingHand, CpuFree, IoListener);
  }

  lemma ReadyAndExitQueues(s: State)
    requires BalanceOf(s, ReadyLaw()) == 0 && BalanceOf(s, ExitLaw()) == 0 && BalanceOf(s, ExitHandLaw()) == 0
    ensures PointOf(s, ToExec).Dispatch? ==> |At(s.at, ReadyQ)| > 0
    ensures PointOf(s, ExitProcess).TakeExit? ==> |At(s.at, ExitQ)| > 0
    ensures PointOf(s, ExitProcess).RequestExit? ==> |At(s.at, ExitHand)| > 0
  {
    hide BalanceOf;
    QueueHoldsItsTokens(s, ReadyLaw(), ReadyQ, CpuFree, ToExec);
    QueueHoldsItsTokens(s, ExitLaw(), ExitQ, CpuFree, ExitProcess);
    QueueHoldsItsTokens(s, ExitHandLaw(), ExitHand, CpuFree, ExitProcess);
  }

  /** A worker thread that has come to a pQueue_take, or to the use of its local PCB, always finds one. */
  lemma TakesNeverBlock(c: Config, s: State, e: Step)
    requires Safe(c, s) && OfWorker(e) && Proper(e)
    requires ShapeOf(e).from != Nowhere && PointOf(s, ShapeOf(e).thread) == ShapeOf(e).here
    ensures |At(s.at, ShapeOf(e).from)| > 0
  {
    hide BalanceOf, Messages, AtOwnPoints, ShapeOf, Proper, OfWorker, CpuLaw, ReadyLaw, IoLaw, AnyLaw, ExitLaw,
         CreditLaw, MutexLaw, TablesLaw, ToReadyHandLaw, AdmittingHandLaw, ResumingHandLaw, IoHandLaw,
             SuspendingHandLaw, SleepingHandLaw, ExitHandLaw;
    WorkersTakeFrom(e);
    ToReadyHands(s);
    IoHands(s);
    ReadyAndExitQueues(s);
  }

  // ---- Configurations that never preempt ----------------------------------------------

  lemma SumThreadsNegative(f: Thread -> int)
    requires SumThreads(f) < 0
    ensures exists t :: f(t) < 0
  {
  }

  lemma SomebodyAwaits(c: Config, s: State) returns (t: Thread)
    requires Safe(c, s) && N(s, Interruption) > 0
    ensures PointOf(s, t).AwaitInterrupt? && t != Handlers
  {
    hide BalanceOf, Tally, SumThreads, Balances, Checked, InterruptLaw, MutexLaw, ReadyLaw, Units;
    InterruptUnits(s);
    NothingInPlaces(s.at);
    assert Threads(s.point, InterruptLaw()) < 0 by { ReadInterruptLaw(c, s); }
    SumThreadsNegative(ThreadTerm(s.point, InterruptLaw()));
    t :| ThreadTerm(s.point, InterruptLaw())(t) < 0;
    assert InterruptPoint(PointOf(s, t)) < 0 by { TermsOf(s, t); }
    assert Owns(t, PointOf(s, t));
  }

  lemma ReadInterruptLaw(c: Config, s: State)
    requires Safe(c, s) && N(s, Interruption) > 0
    ensures Threads(s.point, InterruptLaw()) < 0
  {
    hide Tally, Units, Threads, Balances, Checked, AtOwnPoints, InterruptLaw, MutexLaw;
    InterruptUnits(s);
    NothingInPlaces(s.at);
  }

  lemma AwaitingHasAPcb(c: Config, s: State, t: Thread)
    requires Safe(c, s) && PointOf(s, t).AwaitInterrupt? && t != Handlers
    ensures |At(s.at, ReadyQ)| > 0
  {
    hide BalanceOf, Checked, Messages, AtOwnPoints;
    QueueHoldsItsTokens(s, ReadyLaw(), ReadyQ, ReadyForExec, t);
  }

  /** The process on the CPU and the one it is interrupted for are two admitted processes. */
  lemma AloneNeverSendsTwice(c: Config, s: State, e: Step)
    requires Safe(c, s) && c.multiprogrammingLevel <= 1 && Enabled(c, s, e)
    ensures !SendsTwice(s, e)
  {
    hide Safe, ShapeOf, Guard, Proper;
    if SendsTwice(s, e) {
      HeadersFollowTheOutbox(e);
      var t := SomebodyAwaits(c, s);
      AwaitingHasAPcb(c, s, t);
      CreditsAreConserved(c, s);
    }
  }

  /** No interruption is sent, or none meets a process on the CPU. */
  predicate NeverPreempts(c: Config) { !c.srt || c.multiprogrammingLevel <= 1 }

  /** Then every run is guarded. */
  lemma {:induction false} NeverPreemptsIsGuarded(c: Config, s: State, steps: seq<Step>)
    requires NeverPreempts(c) && Safe(c, s) && Runs(c, s, steps)
    ensures Guarded(c, s, steps)
    decreases |steps|
  {
    hide Safe, Apply, Enabled, SendsTwice;
    if steps != [] {
      if c.srt { AloneNeverSendsTwice(c, s, steps[0]); } else { FifoNeverSendsTwice(c, s, steps[0]); }
      SafeKept(c, s, steps[0]);
      NeverPreemptsIsGuarded(c, Apply(c, s, steps[0]), steps[1..]);
    }
  }
}
