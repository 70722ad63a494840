/** Under SRT the CPU always gets a process with the least remaining burst, and has one: nobody is left waiting who has
    less to do. */
module KernelOrder {
  import opened Processes
  import opened Kernel
  import opened KernelLaws
  import opened KernelSafety
  import opened KernelHistory

  /** Whenever no put_to_ready is inside its critical section, ready_q is in order. */
  ghost predicate Ordered(c: Config, s: State) {
    c.srt && Unlocked(s) > 0 ==> Sorted(At(s.at, ReadyQ))
  }

  // ---- Sorting ------------------------------------------------------------------------

  function Inserted(q: seq<Pcb>, pcb: Pcb): seq<Pcb> {
    if q == [] || SjfSort(pcb, q[0]) then [pcb] + q else [q[0]] + Inserted(q[1..], pcb)
  }

  function InOrder(q: seq<Pcb>): seq<Pcb> { if q == [] then [] else Inserted(InOrder(q[1..]), q[0]) }

  lemma {:induction false} InsertedIsSorted(q: seq<Pcb>, pcb: Pcb)
    requires Sorted(q)
    ensures Sorted(Inserted(q, pcb)) && multiset(Inserted(q, pcb)) == multiset(q) + multiset{pcb}
  {
    if q != [] {
      assert q == [q[0]] + q[1..];
      if !SjfSort(pcb, q[0]) {
        InsertedIsSorted(q[1..], pcb);
        var r := Inserted(q[1..], pcb);
        forall k | 0 <= k < |r| ensures SjfSort(q[0], r[k]) {
          assert r[k] in multiset(q[1..]) + multiset{pcb};
          if r[k] != pcb {
            assert r[k] in q[1..];
            var l :| 0 <= l < |q[1..]| && q[1..][l] == r[k];
            assert SjfSort(q[0], q[l + 1]);
          }
        }
      }
    }
  }

  /** SJF_sort orders any two processes one way or the other and transitively, so every queue has a sort: put_to_ready
      is never kept from sorting. */
  lemma {:induction false} EveryQueueCanBeSorted(q: seq<Pcb>)
    ensures SortOf(InOrder(q), q)
  {
    if q != [] {
      EveryQueueCanBeSorted(q[1..]);
      InsertedIsSorted(InOrder(q[1..]), q[0]);
      assert q == [q[0]] + q[1..];
    }
  }

  // ---- The order of ready_q -----------------------------------------------------------

  lemma ReadyTraffic(e: Step)
    requires Proper(e)
    ensures ShapeOf(e).from == ReadyQ <==> Dispatches(e)
    ensures ShapeOf(e).to == ReadyQ ==> (e.PutToReady? && (e.put.EnqueueSrt? || e.put.EnqueueFifo?))
                                        || (e.Return? && e.return_.HandleInterrupt?)
    ensures e.PutToReady? && e.put.EnqueueSrt? ==> ShapeOf(e).wait == MutexFree
  {
  }

  lemma FifoEntersUnderFifo(c: Config, s: State, e: Step)
    requires Enabled(c, s, e) && e.PutToReady? && e.put.EnqueueFifo?
    ensures !c.srt
  {
    hide ShapeOf;
  }

  /** What enters ready_q enters it while a put_to_ready is inside its critical section. */
  lemma ArrivalsAreCovered(c: Config, s: State, e: Step)
    requires c.srt && Safe(c, s) && Enabled(c, s, e) && ShapeOf(e).to == ReadyQ
    ensures Unlocked(Apply(c, s, e)) == 0
  {
    hide Apply, ShapeOf, BalanceOf, Checked, AtOwnPoints, Guard, Startable, Notices, Unlocked;
    ReadyTraffic(e);
    MovesAreWhole(e);
    if e.PutToReady? && e.put.EnqueueFifo? { FifoEntersUnderFifo(c, s, e); }
    if e.Return? && e.return_.HandleInterrupt? { HandledIsNoticed(c, s, e); }
    InterruptsHoldTheMutex(s);
    EntersFree(s, e);
    UnlockedAfter(c, s, e);
    UnlockedIsNatural(s);
    UnlockedIsNatural(Apply(c, s, e));
  }

  lemma UnlockedIsNatural(s: State)
    ensures Unlocked(s) >= 0
  {
  }

  /** A dispatch takes the head. */
  lemma DispatchLeavesTheRest(c: Config, s: State, e: Step)
    requires Enabled(c, s, e) && ShapeOf(e).from == ReadyQ
    ensures Unlocked(s) > 0 && |At(s.at, ReadyQ)| > 0
    ensures At(PlacesAfter(c, s, e), ReadyQ) == At(s.at, ReadyQ)[1..]
  {
    hide Carried;
    assert Dispatches(e) by { ReadyTraffic(e); }
  }

  lemma SortSorts(c: Config, s: State, e: Step)
    requires Enabled(c, s, e) && Sorts(e)
    ensures Sorted(At(PlacesAfter(c, s, e), ReadyQ))
  {
  }

  lemma OrderedKept(c: Config, s: State, e: Step)
    requires Ordered(c, s) && Safe(c, s) && Enabled(c, s, e)
    ensures Ordered(c, Apply(c, s, e))
  {
    hide HeadersAfter, Sent, RepliesAfter, Residents, HistoryAfter, PlacesAfter, CountAfter, ShapeOf, Guard, Safe,
         SjfSort, Unlocked;
    if c.srt {
      if Sorts(e) {
        SortSorts(c, s, e);
      } else if ShapeOf(e).to == ReadyQ {
        ArrivalsAreCovered(c, s, e);
      } else {
        UnlockedAfter(c, s, e);
        if ShapeOf(e).from == ReadyQ { DispatchLeavesTheRest(c, s, e); } else { PlaceUnchanged(c, s, e, ReadyQ); }
      }
    }
  }

  lemma EntersFree(s: State, e: Step)
    requires Startable(s, e) && BalanceOf(s, MutexLaw()) == 1
    ensures ShapeOf(e).wait == MutexFree ==> Unlocked(s) == 1
  {
    hide ShapeOf, BalanceOf;
    AtLeast(s, MutexLaw(), MutexFree, ToReady, ToExec);
    NothingInPlaces(s.at);
  }

  lemma {:induction false} OrderedAlways(c: Config, s: State, steps: seq<Step>)
    requires Ordered(c, s) && Safe(c, s) && Runs(c, s, steps) && Guarded(c, s, steps)
    ensures Ordered(c, After(c, s, steps))
    decreases |steps|
  {
    hide Ordered, Safe, Apply, Enabled, SendsTwice;
    if steps != [] {
      OrderedKept(c, s, steps[0]);
      SafeKept(c, s, steps[0]);
      OrderedAlways(c, Apply(c, s, steps[0]), steps[1..]);
    }
  }

  /** In every state a guarded run reaches, the process dispatched next has a least remaining burst, read as a signed
      value. */
  lemma DispatchTakesALeastBurst(c: Config, steps: seq<Step>, now: int)
    requires c.srt && Runs(c, Initial(c), steps) && Guarded(c, Initial(c), steps)
    requires Enabled(c, After(c, Initial(c), steps), Exec(DispatchHead(now)))
    ensures var q := At(After(c, Initial(c), steps).at, ReadyQ);
            |q| > 0 && forall pcb :: pcb in q ==> ToSigned(q[0].leftBurst) <= ToSigned(pcb.leftBurst)
  {
    hide Initial, Runs, Guarded, After, Safe, Ordered, Guard, ShapeOf, ToSigned;
    SafeInitially(c);
    OrderedInitially(c);
    OrderedAlways(c, Initial(c), steps);
    OrderedHeadIsLeast(c, After(c, Initial(c), steps), now);
  }

  lemma OrderedInitially(c: Config)
    ensures Ordered(c, Initial(c))
  {
  }

  lemma OrderedHeadIsLeast(c: Config, s: State, now: int)
    requires c.srt && Ordered(c, s) && Enabled(c, s, Exec(DispatchHead(now)))
    ensures var q := At(s.at, ReadyQ);
            |q| > 0 && forall pcb :: pcb in q ==> ToSigned(q[0].leftBurst) <= ToSigned(pcb.leftBurst)
  {
    hide ToSigned;
    forall pcb | pcb in At(s.at, ReadyQ) ensures ToSigned(At(s.at, ReadyQ)[0].leftBurst) <= ToSigned(pcb.leftBurst) {
      var i :| 0 <= i < |At(s.at, ReadyQ)| && At(s.at, ReadyQ)[i] == pcb;
      if i > 0 { assert SjfSort(At(s.at, ReadyQ)[0], At(s.at, ReadyQ)[i]); }
    }
  }

  // ---- The process on the CPU ---------------------------------------------------------

  /** put_to_ready has found the CPU free, or has its answer from it or will have it without anything more of it. */
  ghost predicate HasTheCpuBack(s: State) {
    || N(s, InterruptReady) > 0 || IsPreempting(s)
    || (exists t :: PointOf(s, t) == Sort(t))
  }

  predicate CpuHasNobody(s: State) { |At(s.at, CpuInbox)| == 0 && |At(s.at, CpuRunning)| == 0 }

  predicate WithTheCpu(x: Place) { x.CpuInbox? || x.CpuRunning? }

  /** Nobody is ready who has less to do than the process on the CPU had when it came there, unless a put_to_ready is
      inside its critical section; and before that one ends, the CPU has nobody. */
  ghost predicate Preemptive(c: Config, s: State) {
    c.srt ==>
      && (HasTheCpuBack(s) ==> CpuHasNobody(s))
      && (Unlocked(s) > 0 ==>
            forall x, p, q {:trigger p in At(s.at, x), q in At(s.at, ReadyQ)} ::
              WithTheCpu(x) && p in At(s.at, x) && q in At(s.at, ReadyQ) ==>
                SjfSort(p, q))
  }

  lemma SortingHolds(s: State, t: Thread)
    requires BalanceOf(s, MutexLaw()) == 1 && PointOf(s, t) == Sort(t) && t != ToExec
    ensures Unlocked(s) == 0
  {
    hide BalanceOf;
    AtLeast(s, MutexLaw(), MutexFree, t, ToExec);
    NothingInPlaces(s.at);
  }

  lemma SorterIsNotToExec(s: State, t: Thread)
    requires AtOwnPoints(s) && PointOf(s, t) == Sort(t)
    ensures t != ToExec
  {
    assert Owns(t, PointOf(s, t));
  }

  lemma CpuBackHoldsTheMutex(c: Config, s: State)
    requires Safe(c, s) && HasTheCpuBack(s)
    ensures Unlocked(s) == 0
  {
    hide Checked, BalanceOf, AtOwnPoints, Unlocked, IsPreempting;
    UnlockedIsNatural(s);
    if t :| PointOf(s, t) == Sort(t) {
      SorterIsNotToExec(s, t);
      SortingHolds(s, t);
    } else {
      InterruptsHoldTheMutex(s);
    }
  }

  lemma WayToTheCpu(e: Step)
    ensures ShapeOf(e).to == CpuInbox ==> Dispatches(e) && ShapeOf(e).wait == MutexFree && ShapeOf(e).from == ReadyQ
    ensures ShapeOf(e).to == CpuRunning ==> ShapeOf(e).from == CpuInbox || ShapeOf(e).from == CpuRunning
  {
  }

  /** The steps that give put_to_ready the CPU back. */
  lemma WayToSort(e: Step, t: Thread)
    requires Proper(e)
    ensures ShapeOf(e).thread == t && ShapeOf(e).next == Sort(t) ==>
        e == PutToReady(t, CheckIdle) || ShapeOf(e).wait == InterruptReady
    ensures ShapeOf(e).post == InterruptReady ==>
        ShapeOf(e).here.PreemptPostDone? && ShapeOf(e).thread == DispatchListener
    ensures var h := ShapeOf(e);
            h.thread == DispatchListener
                && (h.next.PreemptPostReady? || h.next.PreemptPostCpu? || h.next.PreemptPostDone?) ==>
              h.from == CpuOutbox || h.here.PreemptPostReady? || h.here.PreemptPostCpu?
  {
  }

  lemma CpuIsEmptyAt(c: Config, s: State)
    requires Safe(c, s)
    ensures N(s, CpuFree) > 0 || |At(s.at, CpuOutbox)| > 0 || PointOf(s, ToExec).Dispatch? ==> CpuHasNobody(s)
  {
    hide Safe;
    CpuIsExclusive(c, s);
  }

  /** A step that gives put_to_ready the CPU back finds nobody there, and nobody comes there before the mutex is
      free. */
  lemma CpuBackKept(c: Config, s: State, e: Step)
    requires Safe(c, s) && (HasTheCpuBack(s) ==> CpuHasNobody(s)) && Enabled(c, s, e) && !SendsTwice(s, e)
    requires HasTheCpuBack(Apply(c, s, e))
    ensures CpuHasNobody(Apply(c, s, e))
  {
    hide Safe, PlacesAfter, HeadersAfter, HistoryAfter, Sent, RepliesAfter, Residents, Given, ShapeOf, Proper,
         HasTheCpuBack, CpuHasNobody;
    CpuWasBack(c, s, e);
    NobodyComes(c, s, e);
  }

  lemma CpuWasBack(c: Config, s: State, e: Step)
    requires Safe(c, s) && (HasTheCpuBack(s) ==> CpuHasNobody(s)) && Enabled(c, s, e)
    requires HasTheCpuBack(Apply(c, s, e))
    ensures CpuHasNobody(s) && !Dispatches(e)
  {
    hide Safe, Apply, ShapeOf, Proper, CpuHasNobody, Unlocked, Guard;
    var s' := Apply(c, s, e);
    PointsAndCounters(c, s, e);
    if Dispatches(e) { DispatchNeedsTheMutex(s, e); }
    CpuIsEmptyAt(c, s);
    if HasTheCpuBack(s) {
      CpuBackHoldsTheMutex(c, s);
    } else {
      WayToSort(e, ToReady);
      if t :| PointOf(s', t) == Sort(t) {
        WayToSort(e, t);
        IdleIsFree(c, s, e);
      }
    }
  }

  lemma DispatchNeedsTheMutex(s: State, e: Step)
    requires Startable(s, e) && Dispatches(e)
    ensures Unlocked(s) > 0 && ShapeOf(e).from == ReadyQ && ShapeOf(e).thread == ToExec && ShapeOf(e).next == Timing
  {
  }

  lemma IdleIsFree(c: Config, s: State, e: Step)
    requires Enabled(c, s, e)
    ensures e.PutToReady? && e.put.CheckIdle? ==> N(s, CpuFree) > 0
  {
    hide ShapeOf;
  }

  lemma NobodyComes(c: Config, s: State, e: Step)
    requires CpuHasNobody(s) && Enabled(c, s, e) && !SendsTwice(s, e) && !Dispatches(e)
    ensures CpuHasNobody(Apply(c, s, e))
  {
    hide CountAfter, PlacesAfter, HeadersAfter, HistoryAfter, Sent, RepliesAfter, Residents, Given, ShapeOf, Proper,
         Guard;
    WayToTheCpu(e);
    LengthAfter(c, s, e, CpuInbox);
    LengthAfter(c, s, e, CpuRunning);
  }

  /** The head of a sorted ready_q has the least to do. */
  lemma DispatchedIsLeast(c: Config, s: State, e: Step, p: Pcb, q: Pcb)
    requires c.srt && Ordered(c, s) && Safe(c, s) && Enabled(c, s, e) && Dispatches(e)
    requires p in At(Apply(c, s, e).at, CpuInbox) && q in At(Apply(c, s, e).at, ReadyQ)
    ensures SjfSort(p, q)
  {
    hide Safe, CountAfter, HeadersAfter, HistoryAfter, Sent, RepliesAfter, Residents, Given, SjfSort, Unlocked;
    DispatchNeedsTheMutex(s, e);
    CpuIsEmptyAt(c, s);
    var i :| 0 <= i < |At(s.at, ReadyQ)[1..]| && At(s.at, ReadyQ)[1..][i] == q;
    assert At(s.at, ReadyQ)[i + 1] == q;
  }

  lemma BurstOnTheCpu(c: Config, s: State, e: Step, pcb: Pcb)
    requires WithTheCpu(ShapeOf(e).from)
    ensures Carried(c, s, e, pcb).leftBurst == pcb.leftBurst
  {
    hide OperationOf;
  }

  lemma SameBurstSorts(p: Pcb, q: Pcb, r: Pcb)
    requires SjfSort(p, r) && q.leftBurst == p.leftBurst
    ensures SjfSort(q, r)
  {
  }

  /** A process that moves on the CPU. */
  lemma MovedIsLeast(c: Config, s: State, e: Step, x: Place, p: Pcb, q: Pcb)
    requires c.srt && Preemptive(c, s) && Unlocked(s) > 0 && Enabled(c, s, e) && !Dispatches(e)
    requires WithTheCpu(x) && p in At(Apply(c, s, e).at, x) && q in At(s.at, ReadyQ)
    ensures SjfSort(p, q)
  {
    hide PlacesAfter, CountAfter, HeadersAfter, HistoryAfter, Sent, RepliesAfter, Residents, Given, SjfSort, Unlocked,
         ShapeOf, Guard, Proper, Carried, HasTheCpuBack;
    InPlaceAfter(c, s, e, x, p);
    if Moves(e) && x == ShapeOf(e).to && p == Arriving(c, s, e) {
      WayToTheCpu(e);
      MovesAreWhole(e);
      var before := At(s.at, ShapeOf(e).from)[Index(e)];
      assert before in At(s.at, ShapeOf(e).from);
      BurstOnTheCpu(c, s, e, before);
      SameBurstSorts(before, p, q);
    } else {
      assert p in At(s.at, x);
    }
  }

  lemma LeastKept(c: Config, s: State, e: Step, x: Place, p: Pcb, q: Pcb)
    requires c.srt && Preemptive(c, s) && Ordered(c, s) && Safe(c, s) && Enabled(c, s, e) && !SendsTwice(s, e)
    requires Unlocked(Apply(c, s, e)) > 0 && WithTheCpu(x)
    requires p in At(Apply(c, s, e).at, x) && q in At(Apply(c, s, e).at, ReadyQ)
    ensures SjfSort(p, q)
  {
    hide PlacesAfter, CountAfter, HeadersAfter, HistoryAfter, Sent, RepliesAfter, Residents, Given, SjfSort, Unlocked,
         ShapeOf, Guard, Proper, Carried, HasTheCpuBack, Safe;
    if Dispatches(e) {
      DispatchedToTheInbox(c, s, e, x);
      DispatchedIsLeast(c, s, e, p, q);
    } else if Sorts(e) {
      SortsWithTheCpuBack(s, e);
      NobodyComes(c, s, e);
    } else if ShapeOf(e).to == ReadyQ {
      ArrivalsAreCovered(c, s, e);
    } else {
      UnlockedAfter(c, s, e);
      ReadyTraffic(e);
      PlaceUnchanged(c, s, e, ReadyQ);
      MovedIsLeast(c, s, e, x, p, q);
    }
  }

  lemma DispatchedToTheInbox(c: Config, s: State, e: Step, x: Place)
    requires Safe(c, s) && Enabled(c, s, e) && Dispatches(e) && WithTheCpu(x) && At(Apply(c, s, e).at, x) != []
    ensures x == CpuInbox
  {
    hide Safe, CountAfter, HeadersAfter, HistoryAfter, Sent, RepliesAfter, Residents, Given;
    CpuIsEmptyAt(c, s);
  }

  lemma SortsWithTheCpuBack(s: State, e: Step)
    requires Startable(s, e) && Sorts(e)
    ensures HasTheCpuBack(s)
  {
    assert PointOf(s, e.t) == Sort(e.t);
  }

  lemma PreemptiveKept(c: Config, s: State, e: Step)
    requires Preemptive(c, s) && Ordered(c, s) && Safe(c, s) && Enabled(c, s, e) && !SendsTwice(s, e)
    ensures Preemptive(c, Apply(c, s, e))
  {
    hide Apply, SjfSort, Unlocked, HasTheCpuBack, CpuHasNobody, Safe, Enabled, Ordered;
    if c.srt {
      var s' := Apply(c, s, e);
      if HasTheCpuBack(s') { CpuBackKept(c, s, e); }
      if Unlocked(s') > 0 {
        forall x, p, q | WithTheCpu(x) && p in At(s'.at, x) && q in At(s'.at, ReadyQ) ensures SjfSort(p, q) {
          LeastKept(c, s, e, x, p, q);
        }
      }
    }
  }

  lemma {:induction false} PreemptiveAlways(c: Config, s: State, steps: seq<Step>)
    requires Preemptive(c, s) && Ordered(c, s) && Safe(c, s) && Runs(c, s, steps) && Guarded(c, s, steps)
    ensures Preemptive(c, After(c, s, steps))
    decreases |steps|
  {
    hide Preemptive, Ordered, Safe, Apply, Enabled, SendsTwice;
    if steps != [] {
      PreemptiveKept(c, s, steps[0]);
      OrderedKept(c, s, steps[0]);
      SafeKept(c, s, steps[0]);
      PreemptiveAlways(c, Apply(c, s, steps[0]), steps[1..]);
    }
  }

  lemma PreemptiveInitially(c: Config)
    ensures Preemptive(c, Initial(c))
  {
  }

  /** Shortest remaining time, over runs: unless a put_to_ready is inside its critical section, the process on the CPU
      came there with a remaining burst no longer than that of any process that is ready. */
  lemma TheCpuHasALeastBurst(c: Config, steps: seq<Step>, x: Place, p: Pcb, q: Pcb)
    requires c.srt && Runs(c, Initial(c), steps) && Guarded(c, Initial(c), steps)
    requires var s := After(c, Initial(c), steps);
             Unlocked(s) > 0 && WithTheCpu(x) && p in At(s.at, x) && q in At(s.at, ReadyQ)
    ensures ToSigned(p.leftBurst) <= ToSigned(q.leftBurst)
  {
    hide Initial, Runs, Guarded, After, Safe, Ordered, Unlocked, HasTheCpuBack, ToSigned;
    SafeInitially(c);
    OrderedInitially(c);
    PreemptiveInitially(c);
    PreemptiveAlways(c, Initial(c), steps);
    assert SjfSort(p, q);
  }
}
