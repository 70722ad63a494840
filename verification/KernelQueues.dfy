/** In what order the queues serve, and which of two queues a thread serves first. */
module KernelQueues {
  import opened Processes
  import opened Kernel
  import opened KernelLaws
  import opened KernelSafety
  import opened KernelConservation

  // ---- First in, first out ------------------------------------------------------------

  function Pids(q: seq<Pcb>): seq<nat> { seq(|q|, i requires 0 <= i < |q| => q[i].pid) }

  /** The pid that comes to a place with a step, */
  function Comes(s: State, e: Step, x: Place): seq<nat> {
    if ShapeOf(e).to != x then []
    else if Receives(e) then [s.pid]
    else [PidAt(s.at, ShapeOf(e).from, Index(e))]
  }

  /** and the one that leaves it. */
  function Leaves(s: State, e: Step, x: Place): seq<nat> {
    if ShapeOf(e).from == x then [PidAt(s.at, x, Index(e))] else []
  }

  /** All but ready_q, which SRT sorts, and memory_exit_q, where the pid of the reply is looked for. */
  predicate InLine(c: Config, x: Place) { x != Nowhere && x != MemoryExitQ && (x == ReadyQ ==> !c.srt) }

  lemma LeavesFromTheHead(e: Step)
    ensures Index(e) > 0 ==> ShapeOf(e).from == MemoryExitQ
  {
  }

  lemma NoSortUnderFifo(c: Config, s: State, e: Step)
    requires Safe(c, s) && Enabled(c, s, e) && !c.srt
    ensures !Sorts(e)
  {
    hide ShapeOf, BalanceOf, Checked, Messages, AtOwnPoints, Guard, Unlocked;
    if Sorts(e) { SortsInside(s, e); }
  }

  lemma PlaceAfter(c: Config, s: State, e: Step, x: Place)
    requires Enabled(c, s, e) && !SendsTwice(s, e) && x != Nowhere && (Sorts(e) ==> x != ReadyQ)
    requires ShapeOf(e).from == x ==> Index(e) == 0
    ensures var h := ShapeOf(e);
            var rest := if h.from == x then Rest(At(s.at, x)) else At(s.at, x);
            At(PlacesAfter(c, s, e), x) == if h.to != x then rest
              else if Receives(e) then rest + [Created(c, s, e.receive)]
              else rest + [Carried(c, s, e, PcbAt(s.at, h.from, Index(e)))]
  {
    hide Carried, Created, Guard, ShapeOf, Index;
    MovesAreWhole(e);
  }

  lemma PidsOfRest(q: seq<Pcb>)
    requires |q| > 0
    ensures Pids(q) == [q[0].pid] + Pids(Rest(q))
  {
  }

  lemma PidsOfMore(q: seq<Pcb>, pcb: Pcb)
    ensures Pids(q + [pcb]) == Pids(q) + [pcb.pid]
  {
  }

  function Remaining(s: State, e: Step, x: Place): seq<Pcb> {
    if ShapeOf(e).from == x then Rest(At(s.at, x)) else At(s.at, x)
  }

  lemma ComesAtTheEnd(c: Config, s: State, e: Step, x: Place)
    requires Enabled(c, s, e) && !SendsTwice(s, e) && x != Nowhere && (Sorts(e) ==> x != ReadyQ)
    requires ShapeOf(e).from == x ==> Index(e) == 0
    ensures Pids(At(PlacesAfter(c, s, e), x)) == Pids(Remaining(s, e, x)) + Comes(s, e, x)
  {
    hide Carried, Created, Guard, ShapeOf, PlacesAfter, Proper, Pids, Index, Rest, Startable, SendsTwice;
    PlaceAfter(c, s, e, x);
    MovesAreWhole(e);
    if ShapeOf(e).to != x {
      assert Pids(Remaining(s, e, x)) + [] == Pids(Remaining(s, e, x));
    } else if Receives(e) {
      CreatedPid(c, s, e.receive);
      PidsOfMore(Remaining(s, e, x), Created(c, s, e.receive));
    } else {
      var pcb := PcbAt(s.at, ShapeOf(e).from, Index(e));
      PidIsCarried(c, s, e, pcb);
      PidsOfMore(Remaining(s, e, x), Carried(c, s, e, pcb));
    }
  }

  lemma LeavesTheHead(s: State, e: Step, x: Place)
    requires Startable(s, e) && x != Nowhere && (ShapeOf(e).from == x ==> Index(e) == 0)
    ensures Pids(At(s.at, x)) == Leaves(s, e, x) + Pids(Remaining(s, e, x))
  {
    hide ShapeOf, Pids, Index, Rest;
    if ShapeOf(e).from == x { PidsOfRest(At(s.at, x)); } else { assert Pids(At(s.at, x)) == [] + Pids(At(s.at, x)); }
  }

  /** A step takes the head of a queue and adds at its end. */
  lemma OneStepInLine(c: Config, s: State, e: Step, x: Place)
    requires Safe(c, s) && Enabled(c, s, e) && !SendsTwice(s, e) && InLine(c, x)
    ensures Pids(At(s.at, x)) + Comes(s, e, x) == Leaves(s, e, x) + Pids(At(Apply(c, s, e).at, x))
  {
    hide Safe, Guard, ShapeOf, PlacesAfter, CountAfter, HeadersAfter, HistoryAfter, Sent, RepliesAfter, Residents,
         Given, Proper, Pids, Index, Startable, SendsTwice, Comes, Leaves, Remaining;
    LeavesFromTheHead(e);
    if !c.srt { NoSortUnderFifo(c, s, e); }
    ComesAtTheEnd(c, s, e, x);
    LeavesTheHead(s, e, x);
    assert (Leaves(s, e, x) + Pids(Remaining(s, e, x))) + Comes(s, e, x)
        == Leaves(s, e, x) + (Pids(Remaining(s, e, x)) + Comes(s, e, x));
  }

  lemma CreatedPid(c: Config, s: State, r: ReceiveStep)
    requires r.Receive?
    ensures Created(c, s, r).pid == s.pid
  {
  }

  /** The pids that come to a place in a run, and those that leave it, one after the other. */
  ghost function Arrivals(c: Config, s: State, steps: seq<Step>, x: Place): seq<nat>
    decreases |steps|
  {
    if steps == [] then [] else Comes(s, steps[0], x) + Arrivals(c, Apply(c, s, steps[0]), steps[1..], x)
  }

  ghost function Departures(c: Config, s: State, steps: seq<Step>, x: Place): seq<nat>
    decreases |steps|
  {
    if steps == [] then [] else Leaves(s, steps[0], x) + Departures(c, Apply(c, s, steps[0]), steps[1..], x)
  }

  /** First in, first out, over runs: who was there and who has come are, in this order, who has left and who is still
      there. */
  lemma {:induction false} QueuesServeInOrder(c: Config, s: State, steps: seq<Step>, x: Place)
    requires Safe(c, s) && Runs(c, s, steps) && Guarded(c, s, steps) && InLine(c, x)
    ensures Pids(At(s.at, x)) + Arrivals(c, s, steps, x)
         == Departures(c, s, steps, x) + Pids(At(After(c, s, steps).at, x))
    decreases |steps|
  {
    hide Safe, Apply, Enabled, SendsTwice, Comes, Leaves, Pids, InLine;
    if steps != [] {
      var s', e, rest := Apply(c, s, steps[0]), steps[0], steps[1..];
      OneStepInLine(c, s, e, x);
      SafeKept(c, s, e);
      QueuesServeInOrder(c, s', rest, x);
      Rebracket(Pids(At(s.at, x)), Comes(s, e, x), Arrivals(c, s', rest, x),
          Leaves(s, e, x), Pids(At(s'.at, x)), Departures(c, s', rest, x), Pids(At(After(c, s', rest).at, x)));
    }
  }

  lemma Rebracket<T>(before: seq<T>, came: seq<T>, more: seq<T>, left: seq<T>, there: seq<T>, gone: seq<T>,
        after: seq<T>)
    requires before + came == left + there && there + more == gone + after
    ensures before + (came + more) == (left + gone) + after
  {
    assert before + (came + more) == (before + came) + more == (left + there) + more == left + (there + more);
    assert left + (gone + after) == (left + gone) + after;
  }

  /** So FIFO dispatches the processes in the order in which they have become ready. */
  lemma FifoDispatchesInOrder(c: Config, steps: seq<Step>)
    requires !c.srt && Runs(c, Initial(c), steps)
    ensures Departures(c, Initial(c), steps, ReadyQ) <= Arrivals(c, Initial(c), steps, ReadyQ)
  {
    hide Runs, Guarded, After, Safe, Arrivals, Departures;
    SafeInitially(c);
    NeverPreemptsIsGuarded(c, Initial(c), steps);
    QueuesServeInOrder(c, Initial(c), steps, ReadyQ);
    var came := Arrivals(c, Initial(c), steps, ReadyQ);
    assert came == Pids(At(Initial(c).at, ReadyQ)) + came;
  }

  // ---- Requests and replies -----------------------------------------------------------

  /** The request a step serves, the replies it gives, and the reply it handles. */
  function ServedBy(s: State, e: Step): seq<Request> { if Serves(s, e) then [s.requests[0]] else [] }

  function GivenBy(s: State, e: Step): seq<Reply> { if Serves(s, e) then ReplyTo(s.requests[0], e.handle) else [] }

  function HandledBy(s: State, e: Step): seq<Reply> {
    if TakesReply(e) && |s.replies| > 0 then [s.replies[0]] else []
  }

  ghost function RequestsSent(c: Config, s: State, steps: seq<Step>): seq<Request>
    decreases |steps|
  {
    if steps == [] then [] else Sent(s, steps[0]) + RequestsSent(c, Apply(c, s, steps[0]), steps[1..])
  }

  ghost function RequestsServed(c: Config, s: State, steps: seq<Step>): seq<Request>
    decreases |steps|
  {
    if steps == [] then [] else ServedBy(s, steps[0]) + RequestsServed(c, Apply(c, s, steps[0]), steps[1..])
  }

  ghost function RepliesGiven(c: Config, s: State, steps: seq<Step>): seq<Reply>
    decreases |steps|
  {
    if steps == [] then [] else GivenBy(s, steps[0]) + RepliesGiven(c, Apply(c, s, steps[0]), steps[1..])
  }

  ghost function RepliesHandled(c: Config, s: State, steps: seq<Step>): seq<Reply>
    decreases |steps|
  {
    if steps == [] then [] else HandledBy(s, steps[0]) + RepliesHandled(c, Apply(c, s, steps[0]), steps[1..])
  }

  lemma MessagesAfter(c: Config, s: State, e: Step)
    requires Enabled(c, s, e)
    ensures s.requests + Sent(s, e) == ServedBy(s, e) + Apply(c, s, e).requests
    ensures s.replies + GivenBy(s, e) == HandledBy(s, e) + Apply(c, s, e).replies
  {
    hide Proper, Startable, ShapeOf, PlacesAfter, CountAfter, HeadersAfter, HistoryAfter, Sent, ReplyTo;
    if Serves(s, e) {
      assert s.requests == [s.requests[0]] + Rest(s.requests);
      assert s.requests + Sent(s, e) == [s.requests[0]] + (Rest(s.requests) + Sent(s, e));
    }
  }

  /** Memory serves the requests in the order in which the kernel has sent them, and the kernel handles the replies in
      the order in which memory has given them. */
  lemma {:induction false} MessagesKeepTheirOrder(c: Config, s: State, steps: seq<Step>)
    requires Runs(c, s, steps)
    ensures s.requests + RequestsSent(c, s, steps) == RequestsServed(c, s, steps) + After(c, s, steps).requests
    ensures s.replies + RepliesGiven(c, s, steps) == RepliesHandled(c, s, steps) + After(c, s, steps).replies
    decreases |steps|
  {
    hide Apply, Enabled, Sent, ServedBy, GivenBy, HandledBy;
    if steps != [] {
      var s', e, rest := Apply(c, s, steps[0]), steps[0], steps[1..];
      MessagesAfter(c, s, e);
      MessagesKeepTheirOrder(c, s', rest);
      Rebracket(s.requests, Sent(s, e), RequestsSent(c, s', rest),
          ServedBy(s, e), s'.requests, RequestsServed(c, s', rest), After(c, s', rest).requests);
      Rebracket(s.replies, GivenBy(s, e), RepliesGiven(c, s', rest),
          HandledBy(s, e), s'.replies, RepliesHandled(c, s', rest), After(c, s', rest).replies);
    }
  }

  // ---- Which queue first --------------------------------------------------------------

  /** to_ready and io_listener each look into two queues. */
  predicate Chooses(t: Thread) { t == ToReady || t == IoListener }

  /** kernel.c:437-444 and 129-210: the queue they serve as long as it holds a process, and the other one. */
  function First(t: Thread): Place { if t == ToReady then SuspendedReadyQ else BlockedQ }

  function Second(t: Thread): Place { if t == ToReady then NewQ else SuspendedBlockedQ }

  /** Where they look, */
  function ChoicePoint(t: Thread): Point { if t == ToReady then ChooseQueue else CheckBlocked }

  /** and where they are before they take a process. */
  predicate WillTake(s: State, t: Thread, x: Place) {
    match PointOf(s, t)
    case TakeSuspended => t == ToReady && x == SuspendedReadyQ
    case CheckNew => t == ToReady && x == NewQ
    case TakeNew => t == ToReady && x == NewQ
    case TakeBlocked => t == IoListener && x == BlockedQ
    case TakeSuspendedBlocked => t == IoListener && x == SuspendedBlockedQ
    case _ => false
  }

  predicate LeavesOne(e: Step, t: Thread) { ShapeOf(e).from == First(t) || ShapeOf(e).from == Second(t) }

  predicate NobodyLeaves(steps: seq<Step>, t: Thread) { forall e :: e in steps ==> !LeavesOne(e, t) }

  lemma OnlyTheyTake(e: Step, t: Thread)
    requires Chooses(t) && Proper(e) && LeavesOne(e, t)
    ensures ShapeOf(e).thread == t && ShapeOf(e).here != ChoicePoint(t) && Index(e) == 0
  {
  }

  lemma HeadStays(c: Config, s: State, e: Step, x: Place)
    requires Enabled(c, s, e) && !SendsTwice(s, e) && x != Nowhere && x != ReadyQ && ShapeOf(e).from != x
    requires |At(s.at, x)| > 0
    ensures |At(Apply(c, s, e).at, x)| > 0 && At(Apply(c, s, e).at, x)[0] == At(s.at, x)[0]
  {
    hide Carried, Created, Guard, ShapeOf, PlacesAfter, CountAfter, HeadersAfter, HistoryAfter, Sent, RepliesAfter,
         Residents, Given, Proper, Index;
    PlaceAfter(c, s, e, x);
  }

  lemma PointStays(c: Config, s: State, e: Step, t: Thread)
    requires ShapeOf(e).thread != t
    ensures PointOf(Apply(c, s, e), t) == PointOf(s, t)
  {
    hide ShapeOf, PlacesAfter, CountAfter, HeadersAfter, HistoryAfter, Sent, RepliesAfter, Residents, Given;
  }

  lemma PointGoes(c: Config, s: State, e: Step)
    ensures PointOf(Apply(c, s, e), ShapeOf(e).thread) == ShapeOf(e).next
  {
    hide ShapeOf, PlacesAfter, CountAfter, HeadersAfter, HistoryAfter, Sent, RepliesAfter, Residents, Given;
  }

  /** The two ways they can look, */
  lemma LookingSteps(e: Step, t: Thread)
    requires Chooses(t) && Proper(e) && ShapeOf(e).thread == t && ShapeOf(e).here == ChoicePoint(t)
    ensures e == (if t == ToReady then Admit(SeeSuspended) else Step.Io(SeeBlocked))
            || e == (if t == ToReady then Admit(SeeNoSuspended) else Step.Io(SeeNoBlocked))
  {
  }

  lemma LookingShapes(t: Thread)
    ensures ShapeOf(Admit(SeeSuspended)) == Sem(ToReady, ChooseQueue, TakeSuspended, Nothing, Nothing)
    ensures ShapeOf(Admit(SeeNoSuspended)) == Sem(ToReady, ChooseQueue, CheckNew, Nothing, Nothing)
    ensures ShapeOf(Step.Io(SeeBlocked)) == Sem(IoListener, CheckBlocked, TakeBlocked, Nothing, Nothing)
    ensures ShapeOf(Step.Io(SeeNoBlocked)) == Sem(IoListener, CheckBlocked, TakeSuspendedBlocked, Nothing, Nothing)
  {
  }

  lemma LooksMoveNobody(c: Config, s: State, e: Step)
    requires e == Admit(SeeSuspended) || e == Admit(SeeNoSuspended) || e == Step.Io(SeeBlocked)
             || e == Step.Io(SeeNoBlocked)
    ensures forall x :: At(Apply(c, s, e).at, x) == At(s.at, x)
  {
    hide CountAfter, HeadersAfter, HistoryAfter, Sent, RepliesAfter, Residents, Given, ShapeOf;
    LookingShapes(ToReady);
  }

  /** and what they see. */
  lemma Looks(c: Config, s: State, e: Step, t: Thread)
    requires Chooses(t) && Enabled(c, s, e) && ShapeOf(e).thread == t && PointOf(s, t) == ChoicePoint(t)
    ensures !LeavesOne(e, t) && !SendsTwice(s, e) && forall x :: At(Apply(c, s, e).at, x) == At(s.at, x)
    ensures WillTake(Apply(c, s, e), t, if |At(s.at, First(t))| > 0 then First(t) else Second(t))
  {
    hide Apply, ShapeOf, Proper;
    LookingSteps(e, t);
    LookingShapes(t);
    PointGoes(c, s, e);
    LooksMoveNobody(c, s, e);
  }

  lemma ToReadyTakes(e: Step)
    requires Proper(e) && ShapeOf(e).thread == ToReady
    ensures ShapeOf(e).here.TakeSuspended? ==> ShapeOf(e).from == SuspendedReadyQ
    ensures ShapeOf(e).here.TakeNew? ==> ShapeOf(e).from == NewQ
    ensures ShapeOf(e).here.CheckNew? ==> (e == Admit(SeeNew) && ShapeOf(e).next == TakeNew) || e == Admit(SeeNothing)
    ensures ShapeOf(e).here.CheckNew? ==> ShapeOf(e).from == Nowhere
  {
  }

  lemma IoListenerTakes(e: Step)
    requires Proper(e) && ShapeOf(e).thread == IoListener
    ensures ShapeOf(e).here.TakeBlocked? ==> ShapeOf(e).from == BlockedQ
    ensures ShapeOf(e).here.TakeSuspendedBlocked? ==> ShapeOf(e).from == SuspendedBlockedQ
  {
  }

  /** Then they take from that queue, */
  lemma TakesThere(c: Config, s: State, e: Step, t: Thread, x: Place)
    requires Safe(c, s) && Chooses(t) && Enabled(c, s, e) && ShapeOf(e).thread == t && WillTake(s, t, x)
    ensures if LeavesOne(e, t) then ShapeOf(e).from == x else WillTake(Apply(c, s, e), t, x)
  {
    hide Safe, Apply, ShapeOf, Proper, Guard;
    NoCreditIsBurnt(c, s);
    if t == ToReady { ToReadyTakes(e); } else { IoListenerTakes(e); }
    PointGoes(c, s, e);
  }

  lemma WillTakeSomebody(c: Config, s: State, t: Thread, x: Place)
    requires Safe(c, s) && WillTake(s, t, x)
    ensures |At(s.at, x)| > 0 && (x == First(t) || x == Second(t))
  {
    hide Balances, Messages, AtOwnPoints;
  }

  /** whatever the others do in between. */
  lemma {:induction false} TakesWhatItSaw(c: Config, s: State, steps: seq<Step>, e: Step, t: Thread, x: Place)
    requires Safe(c, s) && Chooses(t) && WillTake(s, t, x)
    requires Runs(c, s, steps) && Guarded(c, s, steps) && NobodyLeaves(steps, t)
    requires Enabled(c, After(c, s, steps), e) && LeavesOne(e, t)
    ensures ShapeOf(e).from == x && |At(s.at, x)| > 0 && |At(After(c, s, steps).at, x)| > 0
    ensures At(After(c, s, steps).at, x)[0] == At(s.at, x)[0]
    decreases |steps|
  {
    hide Safe, Apply, Startable, Guard, Proper, SendsTwice, WillTake, LeavesOne, ShapeOf, Index;
    WillTakeSomebody(c, s, t, x);
    if steps == [] {
      OnlyTheyTake(e, t);
      TakesThere(c, s, e, t, x);
    } else {
      var f, s' := steps[0], Apply(c, s, steps[0]);
      assert f in steps && forall g :: g in steps[1..] ==> g in steps;
      SafeKept(c, s, f);
      NotLeaving(f, t, x);
      HeadStays(c, s, f, x);
      if ShapeOf(f).thread == t { TakesThere(c, s, f, t, x); } else { StillWillTake(c, s, f, t, x); }
      TakesWhatItSaw(c, s', steps[1..], e, t, x);
    }
  }

  lemma NotLeaving(e: Step, t: Thread, x: Place)
    requires !LeavesOne(e, t) && Chooses(t) && (x == First(t) || x == Second(t))
    ensures ShapeOf(e).from != x && x != Nowhere && x != ReadyQ
  {
  }

  lemma StillWillTake(c: Config, s: State, e: Step, t: Thread, x: Place)
    requires WillTake(s, t, x) && ShapeOf(e).thread != t
    ensures WillTake(Apply(c, s, e), t, x)
  {
    hide Apply, ShapeOf;
    PointStays(c, s, e, t);
  }

  /** The exact choice. Once to_ready or io_listener has looked, the next PCB that leaves one of its queues is the one
      that was then the head of suspended_ready_q, or of blocked_q; it is the head of the other queue if and only if
      that one was empty. */
  lemma ServesExactly(c: Config, s: State, look: Step, steps: seq<Step>, e: Step, t: Thread)
    requires Safe(c, s) && Chooses(t) && PointOf(s, t) == ChoicePoint(t)
    requires Enabled(c, s, look) && ShapeOf(look).thread == t
    requires var s' := Apply(c, s, look);
             Runs(c, s', steps) && Guarded(c, s', steps) && NobodyLeaves(steps, t)
             && Enabled(c, After(c, s', steps), e) && LeavesOne(e, t)
    ensures var s'', x := After(c, Apply(c, s, look), steps), ShapeOf(e).from;
            && (x == First(t) <==> |At(s.at, First(t))| > 0) && (x == Second(t) <==> |At(s.at, First(t))| == 0)
            && |At(s.at, x)| > 0 && |At(s''.at, x)| > 0 && At(s''.at, x)[0] == At(s.at, x)[0]
  {
    hide Safe, Runs, Guarded, After, Apply, Enabled, WillTake, SendsTwice, LeavesOne, NobodyLeaves, ShapeOf;
    var x := if |At(s.at, First(t))| > 0 then First(t) else Second(t);
    Looks(c, s, look, t);
    SafeKept(c, s, look);
    TakesWhatItSaw(c, Apply(c, s, look), steps, e, t, x);
  }

  lemma CannotTakeYet(s: State, e: Step, t: Thread)
    requires Chooses(t) && PointOf(s, t) == ChoicePoint(t) && Proper(e) && Startable(s, e)
    ensures !LeavesOne(e, t)
  {
    hide ShapeOf, Proper, LeavesOne;
    if LeavesOne(e, t) { OnlyTheyTake(e, t); }
  }

  /** A suspended process that is ready goes before any new one, and a process blocked in memory before any suspended
      one: from a state in which to_ready or io_listener is about to look, whatever happens, the next PCB that leaves
      its queues is the head the first queue has now. */
  lemma {:induction false} FirstQueueGoesFirst(c: Config, s: State, steps: seq<Step>, e: Step, t: Thread)
    requires Safe(c, s) && Chooses(t) && PointOf(s, t) == ChoicePoint(t) && |At(s.at, First(t))| > 0
    requires Runs(c, s, steps) && Guarded(c, s, steps) && NobodyLeaves(steps, t)
    requires Enabled(c, After(c, s, steps), e) && LeavesOne(e, t)
    ensures ShapeOf(e).from == First(t) && |At(After(c, s, steps).at, First(t))| > 0
    ensures At(After(c, s, steps).at, First(t))[0] == At(s.at, First(t))[0]
    decreases |steps|
  {
    hide Safe, Apply, Startable, Guard, Proper, SendsTwice, WillTake, LeavesOne, ShapeOf, Index;
    if steps == [] {
      CannotTakeYet(s, e, t);
    } else {
      var f, s' := steps[0], Apply(c, s, steps[0]);
      assert f in steps && forall g :: g in steps[1..] ==> g in steps;
      if ShapeOf(f).thread == t {
        ServesExactly(c, s, f, steps[1..], e, t);
      } else {
        SafeKept(c, s, f);
        NotLeaving(f, t, First(t));
        HeadStays(c, s, f, First(t));
        PointStays(c, s, f, t);
        FirstQueueGoesFirst(c, s', steps[1..], e, t);
      }
    }
  }
}
