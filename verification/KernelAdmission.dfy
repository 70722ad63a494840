/** What the kernel asks of memory, in the order it asks. The kernel sends a suspension before it returns the credit, an
    exit returns its credit after memory's reply, and memory serves requests in order: so whenever memory serves a
    creation or a resumption, fewer processes than the multiprogramming level hold frames. It does not matter that
    waiting_for_suspension starts at 1. */
module KernelAdmission {
  import opened Processes
  import opened Kernel
  import opened KernelLaws
  import opened KernelSafety
  import opened KernelConservation

  /** Two sets of pids that requests change: those that hold frames, and those that memory knows at all. */
  datatype Kind = Holding | Known

  predicate Adds(k: Kind, r: Request) { r.ProcessNew? || (k.Holding? && r.ProcessResume?) }

  predicate Removes(k: Kind, r: Request) { r.ProcessExit? || (k.Holding? && r.ProcessSuspend?) }

  function Changed(k: Kind, pids: set<nat>, r: Request): set<nat> {
    if Adds(k, r) then pids + {r.pid} else if Removes(k, r) then pids - {r.pid} else pids
  }

  /** A request finds what it relies on: a process that is added was not there, any other was; and a process given
      frames is not one too many. */
  predicate Welcome(k: Kind, level: nat, pids: set<nat>, r: Request) {
    && (Adds(k, r) ==> r.pid !in pids && (k.Holding? ==> |pids| < level))
    && (!Adds(k, r) ==> r.pid in pids)
  }

  /** The set once the requests under way are served. */
  function Eventually(k: Kind, pids: set<nat>, requests: seq<Request>): set<nat>
    decreases |requests|
  {
    if requests == [] then pids else Eventually(k, Changed(k, pids, requests[0]), requests[1..])
  }

  predicate AllWelcome(k: Kind, level: nat, pids: set<nat>, requests: seq<Request>)
    decreases |requests|
  {
    requests == []
        || (Welcome(k, level, pids, requests[0]) && AllWelcome(k, level, Changed(k, pids, requests[0]), requests[1..]))
  }

  lemma {:induction false} OneMoreRequest(k: Kind, level: nat, pids: set<nat>, requests: seq<Request>, r: Request)
    requires AllWelcome(k, level, pids, requests) && Welcome(k, level, Eventually(k, pids, requests), r)
    ensures AllWelcome(k, level, pids, requests + [r])
    ensures Eventually(k, pids, requests + [r]) == Changed(k, Eventually(k, pids, requests), r)
    decreases |requests|
  {
    hide Changed, Welcome;
    if requests == [] {
      assert requests + [r] == [r];
    } else {
      assert (requests + [r])[1..] == requests[1..] + [r];
      OneMoreRequest(k, level, Changed(k, pids, requests[0]), requests[1..], r);
    }
  }

  // ---- The sets, read off the queues --------------------------------------------------

  predicate CountsAs(k: Kind, x: Place) {
    if x.ResumingHand? || x.SuspendingHand? || x.SuspendedBlockedQ? || x.SleepingHand? || x.SuspendedReadyQ?
        then k.Known?
    else !(x.NewQ? || x.AdmittingHand? || x.MemoryExitQ? || x.Finished? || x.Nowhere?)
  }

  function KindLaw(k: Kind): Law { Weights(NoCounter, NoPoint, (x: Place) => B(CountsAs(k, x))) }

  /** How many PCBs of a pid are where the kind counts them. */
  function Held(k: Kind, at: Places, pid: nat): int { Tally(at, KindLaw(k), Of(pid)) }

  lemma HeldPut(k: Kind, at: Places, x: Place, pcb: Pcb, pid: nat)
    requires x != Nowhere
    ensures Held(k, Put(at, x, pcb), pid) == Held(k, at, pid) + B(pcb.pid == pid && CountsAs(k, x))
  {
    OccurrencesConcat(At(at, x), [pcb], pid);
    hide Tally, CountsAs;
    TallyPut(at, x, pcb, KindLaw(k), Of(pid), B(pcb.pid == pid));
  }

  lemma HeldTake(k: Kind, at: Places, x: Place, i: nat, pid: nat)
    requires x != Nowhere && i < |At(at, x)|
    ensures Held(k, Take(at, x, i), pid) == Held(k, at, pid) - B(At(at, x)[i].pid == pid && CountsAs(k, x))
  {
    hide Tally, CountsAs;
    OccurrencesWithout(At(at, x), i, pid);
    TallyTake(at, x, i, KindLaw(k), Of(pid), B(At(at, x)[i].pid == pid));
  }

  lemma HeldSort(k: Kind, at: Places, sorted: seq<Pcb>, pid: nat)
    requires multiset(sorted) == multiset(At(at, ReadyQ))
    ensures Held(k, at[ReadyQ := sorted], pid) == Held(k, at, pid)
  {
    hide Tally;
    OccurrencesOfSort(sorted, At(at, ReadyQ), pid);
    TallyChange(at, ReadyQ, sorted, KindLaw(k), Of(pid));
  }

  /** The pid of the PCB that a step moves. */
  function MovedPid(s: State, e: Step): nat { PidAt(s.at, ShapeOf(e).from, Index(e)) }

  lemma HeldAfter(k: Kind, c: Config, s: State, e: Step, pid: nat)
    requires Enabled(c, s, e) && !SendsTwice(s, e)
    ensures Held(k, PlacesAfter(c, s, e), pid) == Held(k, s.at, pid)
         + if ShapeOf(e).from != Nowhere && MovedPid(s, e) == pid
           then B(CountsAs(k, ShapeOf(e).to)) - B(CountsAs(k, ShapeOf(e).from)) else 0
  {
    hide Held, Carried, ShapeOf, Proper, OperationOf;
    var h := ShapeOf(e);
    MovesAreWhole(e);
    if Receives(e) {
      HeldPut(k, s.at, NewQ, Created(c, s, e.receive), pid);
    } else if Sorts(e) {
      HeldSort(k, s.at, e.put.sorted, pid);
    } else if h.from != Nowhere {
      var pcb := At(s.at, h.from)[Index(e)];
      PidIsCarried(c, s, e, pcb);
      HeldTake(k, s.at, h.from, Index(e), pid);
      HeldPut(k, Take(s.at, h.from, Index(e)), h.to, Carried(c, s, e, pcb), pid);
    }
  }

  predicate Asks(e: Step) {
    (e.Admit? && (e.admit.SendNew? || e.admit.SendResume?)) || (e.Io? && e.io.SendSuspend?)
        || (e.Exit? && e.exit.SendExit?)
  }

  /** A step changes what a place counts for exactly when it asks memory for that change. */
  lemma MovesAreAsked(k: Kind, s: State, e: Step)
    requires ShapeOf(e).from != Nowhere
    ensures !Asks(e) ==> CountsAs(k, ShapeOf(e).to) == CountsAs(k, ShapeOf(e).from)
  {
  }

  lemma AsksForTheMoved(k: Kind, s: State, e: Step)
    requires Asks(e)
    ensures ShapeOf(e).from != Nowhere && Index(e) == 0 && ShapeOf(e).from != ShapeOf(e).to
    ensures |Sent(s, e)| == 1 && Sent(s, e)[0].pid == MovedPid(s, e)
    ensures var r, h := Sent(s, e)[0], ShapeOf(e);
            && (Adds(k, r) <==> !CountsAs(k, h.from) && CountsAs(k, h.to))
            && (Removes(k, r) <==> CountsAs(k, h.from) && !CountsAs(k, h.to))
            && (!Adds(k, r) ==> CountsAs(k, h.from))
  {
  }

  lemma OthersAskNothing(s: State, e: Step)
    requires !Asks(e)
    ensures Sent(s, e) == []
  {
  }

  // ---- Few enough ---------------------------------------------------------------------

  lemma SumWhereCounted(f: Place -> int)
    requires SumPlaces(f) > 0
    ensures exists x :: x != Nowhere && f(x) > 0
  {
  }

  lemma HeldSomewhere(k: Kind, at: Places, pid: nat) returns (x: Place, i: nat)
    requires Held(k, at, pid) > 0
    ensures x != Nowhere && CountsAs(k, x) && i < |At(at, x)| && At(at, x)[i].pid == pid
  {
    hide SumPlaces, CountsAs;
    SumWhereCounted(PlaceTerm(at, KindLaw(k), Of(pid)));
    x :| x != Nowhere && PlaceTerm(at, KindLaw(k), Of(pid))(x) > 0;
    i := OccurrenceIndex(At(at, x), pid);
  }

  lemma CountTake(k: Kind, at: Places, x: Place, i: nat)
    requires x != Nowhere && CountsAs(k, x) && i < |At(at, x)|
    ensures Tally(Take(at, x, i), KindLaw(k), All()) == Tally(at, KindLaw(k), All()) - 1
  {
    hide Tally, CountsAs;
    TallyTake(at, x, i, KindLaw(k), All(), 1);
  }

  lemma CountIsNonNegative(k: Kind, at: Places)
    ensures Tally(at, KindLaw(k), All()) >= 0
  {
    hide SumPlaces, CountsAs;
    SumOfPositives(PlaceTerm(at, KindLaw(k), All()));
  }

  /** Different pids have different PCBs. */
  lemma {:induction false} NoMorePidsThanPcbs(k: Kind, at: Places, pids: set<nat>)
    requires forall p :: p in pids ==> Held(k, at, p) > 0
    ensures |pids| <= Tally(at, KindLaw(k), All())
    decreases |pids|
  {
    hide Held, Tally, CountsAs;
    CountIsNonNegative(k, at);
    if pids != {} {
      var p :| p in pids;
      var x, i := HeldSomewhere(k, at, p);
      CountTake(k, at, x, i);
      forall q | q in pids - {p} ensures Held(k, Take(at, x, i), q) > 0 { HeldTake(k, at, x, i, q); }
      NoMorePidsThanPcbs(k, Take(at, x, i), pids - {p});
      assert |pids| == |pids - {p}| + 1;
    }
  }

  lemma HeldIsNonNegative(k: Kind, at: Places, pid: nat)
    ensures 0 <= Held(k, at, pid) <= Copies(at, pid)
  {
    hide SumPlaces, CountsAs;
    SumOfPositives(PlaceTerm(at, KindLaw(k), Of(pid)));
    SumIsMonotone(PlaceTerm(at, KindLaw(k), Of(pid)), PlaceTerm(at, EverywhereLaw(), Of(pid)));
  }

  lemma SumIsMonotone(f: Place -> int, g: Place -> int)
    requires forall x :: x != Nowhere ==> f(x) <= g(x)
    ensures SumPlaces(f) <= SumPlaces(g)
  {
  }

  /** Who has a credit and holds no frames: processes in the hands of to_ready, and those that have just asked to be
      suspended or to exit. */
  predicate OnlyCredit(x: Place) { x.AdmittingHand? || x.ResumingHand? || x.SuspendingHand? || x.MemoryExitQ? }

  lemma HoldersAndOthers(x: Place)
    ensures KindLaw(Holding).place(x) == if OnlyCredit(x) then 0 else CreditPlace(x)
    ensures OnlyCredit(x) ==> CreditPlace(x) == 1
  {
  }

  function CreditTerm(at: Places, x: Place): int { Signed(CreditPlace(x), |At(at, x)|) }

  /** Who holds frames has a credit; who is about to ask for frames has one too and does not hold frames yet. */
  lemma HoldersHaveCredits(at: Places)
    ensures Tally(at, KindLaw(Holding), All()) + |At(at, AdmittingHand)| + |At(at, ResumingHand)| <= Admitted(at)
  {
    hide SumPlaces, CountsAs, KindLaw, CreditPlace, Admitted;
    var f, g := PlaceTerm(at, KindLaw(Holding), All()), PlaceTerm(at, CreditLaw(), All());
    forall x ensures g(x) == CreditTerm(at, x) && f(x) == if OnlyCredit(x) then 0 else CreditTerm(at, x) {
      HoldersAndOthers(x);
    }
    HoldersAndOthers(AdmittingHand);
    HoldersAndOthers(ResumingHand);
    var one := (x: Place) => if x.AdmittingHand? then CreditTerm(at, x) else f(x);
    var two := (x: Place) => if x.AdmittingHand? || x.ResumingHand? then CreditTerm(at, x) else f(x);
    SumPlacesChange(f, one, AdmittingHand);
    SumPlacesChange(one, two, ResumingHand);
    forall x ensures two(x) <= g(x) { HoldersAndOthers(x); }
    SumIsMonotone(two, g);
    CreditTally(at);
  }

  // ---- The invariant ------------------------------------------------------------------

  ghost predicate ReadOff(k: Kind, at: Places, pids: set<nat>) {
    forall p: nat {:trigger Held(k, at, p)} :: p in pids <==> Held(k, at, p) > 0
  }

  /** Every request under way will be welcome, and once all are served the set is what the queues say. */
  ghost predicate Agreed(k: Kind, c: Config, s: State, pids: set<nat>) {
    && AllWelcome(k, c.multiprogrammingLevel, pids, s.requests)
    && ReadOff(k, s.at, Eventually(k, pids, s.requests))
  }

  /** The new request is welcome, as things will be then. */
  lemma AskedIsWelcome(k: Kind, c: Config, s: State, e: Step, pids: set<nat>)
    requires Safe(c, s) && Conserved(s) && Enabled(c, s, e) && Asks(e) && ReadOff(k, s.at, pids)
    ensures |Sent(s, e)| == 1 && Welcome(k, c.multiprogrammingLevel, pids, Sent(s, e)[0])
  {
    hide Safe, Held, Copies, CountsAs, Guard, ShapeOf, Sent, Admitted, Tally;
    AsksForTheMoved(k, s, e);
    var x, p := ShapeOf(e).from, MovedPid(s, e);
    assert At(s.at, x)[0].pid == p;
    HeldTake(k, s.at, x, 0, p);
    CopiesTake(s.at, x, 0, p);
    HeldIsNonNegative(k, Take(s.at, x, 0), p);
    assert Copies(s.at, p) <= 1;
    if Adds(k, Sent(s, e)[0]) && k.Holding? {
      NoMorePidsThanPcbs(k, s.at, pids);
      HoldersHaveCredits(s.at);
      CreditsAreConserved(c, s);
      AddsFromAHand(s, e);
    }
  }

  lemma AddsFromAHand(s: State, e: Step)
    requires Asks(e) && |Sent(s, e)| == 1 && Adds(Holding, Sent(s, e)[0])
    ensures ShapeOf(e).from == AdmittingHand || ShapeOf(e).from == ResumingHand
  {
  }

  lemma ReadOffAfterAsking(k: Kind, c: Config, s: State, e: Step, pids: set<nat>)
    requires Conserved(s) && Enabled(c, s, e) && Asks(e) && !SendsTwice(s, e) && ReadOff(k, s.at, pids)
    requires |Sent(s, e)| == 1
    ensures ReadOff(k, PlacesAfter(c, s, e), Changed(k, pids, Sent(s, e)[0]))
  {
    hide Held, Copies, CountsAs, Guard, ShapeOf, Sent, PlacesAfter;
    AsksForTheMoved(k, s, e);
    forall p: nat ensures p in Changed(k, pids, Sent(s, e)[0]) <==> Held(k, PlacesAfter(c, s, e), p) > 0 {
      HeldAfter(k, c, s, e, p);
      HeldIsNonNegative(k, s.at, p);
      assert Copies(s.at, p) <= 1;
    }
  }

  lemma ReadOffOtherwise(k: Kind, c: Config, s: State, e: Step, pids: set<nat>)
    requires Enabled(c, s, e) && !Asks(e) && !SendsTwice(s, e) && ReadOff(k, s.at, pids)
    ensures ReadOff(k, PlacesAfter(c, s, e), pids)
  {
    hide Held, CountsAs, Guard, ShapeOf, PlacesAfter;
    if ShapeOf(e).from != Nowhere { MovesAreAsked(k, s, e); }
    forall p: nat ensures p in pids <==> Held(k, PlacesAfter(c, s, e), p) > 0 { HeldAfter(k, c, s, e, p); }
  }

  /** The set after a step: a step of memory serves the first request. */
  function Served(k: Kind, s: State, e: Step, pids: set<nat>): set<nat> {
    if Serves(s, e) then Changed(k, pids, s.requests[0]) else pids
  }

  lemma AgreedKept(k: Kind, c: Config, s: State, e: Step, pids: set<nat>)
    requires Safe(c, s) && Conserved(s) && Agreed(k, c, s, pids) && Enabled(c, s, e) && !SendsTwice(s, e)
    ensures Agreed(k, c, Apply(c, s, e), Served(k, s, e, pids))
  {
    hide Safe, Conserved, ReadOff, PlacesAfter, CountAfter, HeadersAfter, HistoryAfter, RepliesAfter, Residents, Sent,
         Guard, Proper, Startable, Changed, Welcome;
    var q := Eventually(k, pids, s.requests);
    if Asks(e) {
      AskedIsWelcome(k, c, s, e, q);
      ReadOffAfterAsking(k, c, s, e, q);
      OneMoreRequest(k, c.multiprogrammingLevel, pids, s.requests, Sent(s, e)[0]);
      assert Sent(s, e) == [Sent(s, e)[0]];
    } else {
      ReadOffOtherwise(k, c, s, e, q);
      OthersAskNothing(s, e);
      assert s.requests + [] == s.requests;
      assert Rest(s.requests) + [] == Rest(s.requests);
    }
  }

  lemma HeldInitially(k: Kind, c: Config, p: nat)
    ensures Held(k, Initial(c).at, p) == 0
  {
    hide Held, Copies, Initial;
    NoCopies(c, p);
    HeldIsNonNegative(k, Initial(c).at, p);
  }

  lemma AgreedInitially(k: Kind, c: Config)
    ensures Agreed(k, c, Initial(c), {})
  {
    hide Held;
    forall p: nat ensures Held(k, Initial(c).at, p) == 0 { HeldInitially(k, c, p); }
  }

  // ---- Runs ---------------------------------------------------------------------------

  ghost predicate Admits(c: Config, s: State) {
    Safe(c, s) && Conserved(s) && Numbering(s) && Agreed(Holding, c, s, s.resident)
  }

  lemma ResidentsAreHolders(c: Config, s: State, e: Step)
    ensures Apply(c, s, e).resident == Served(Holding, s, e, s.resident)
  {
  }

  lemma AdmitsKept(c: Config, s: State, e: Step)
    requires Admits(c, s) && Enabled(c, s, e) && !SendsTwice(s, e) && !Overtakes(s, e)
    ensures Admits(c, Apply(c, s, e))
  {
    hide Safe, Conserved, Numbering, Agreed, Apply, Enabled, SendsTwice, Overtakes, Rereads, Served;
    SafeKept(c, s, e);
    ConservedKept(c, s, e);
    AgreedKept(Holding, c, s, e, s.resident);
    ResidentsAreHolders(c, s, e);
  }

  lemma {:induction false} AdmitsAlways(c: Config, s: State, steps: seq<Step>)
    requires Admits(c, s) && Runs(c, s, steps) && Guarded(c, s, steps) && InTurn(c, s, steps)
    ensures Admits(c, After(c, s, steps))
    decreases |steps|
  {
    hide Admits, Apply, Enabled, SendsTwice, Overtakes;
    if steps != [] {
      AdmitsKept(c, s, steps[0]);
      AdmitsAlways(c, Apply(c, s, steps[0]), steps[1..]);
    }
  }

  /** Admission: whenever memory comes to serve a creation or a resumption, the process holds no frames and fewer
      processes than the multiprogramming level do; suspensions and exits find a process that holds frames. */
  lemma RequestsAreWelcome(c: Config, steps: seq<Step>)
    requires Runs(c, Initial(c), steps) && Guarded(c, Initial(c), steps) && InTurn(c, Initial(c), steps)
    requires |After(c, Initial(c), steps).requests| > 0
    ensures var s := After(c, Initial(c), steps);
            var r := s.requests[0];
            if r.ProcessNew? || r.ProcessResume? then r.pid !in s.resident && |s.resident| < c.multiprogrammingLevel
            else r.pid in s.resident
  {
    hide Initial, Runs, Guarded, InTurn, After, Safe, Conserved, Numbering, ReadOff;
    InitiallyAdmits(c);
    AdmitsAlways(c, Initial(c), steps);
  }

  lemma InitiallyAdmits(c: Config)
    ensures Admits(c, Initial(c))
  {
    hide Safe, Conserved, Numbering, Agreed;
    SafeInitially(c);
    ConservedInitially(c);
    AgreedInitially(Holding, c);
    assert Initial(c).resident == {};
  }
}
