/** Counting laws of the scheduler. A law says that tokens of one resource - units of counters, threads at program
    points, PCBs in places - add up to a constant. A step keeps a law when what it takes away and what it adds
    cancel, which depends on the shape of the step alone. */
module KernelLaws {
  import opened Processes
  import opened Kernel

  function B(b: bool): int { if b then 1 else 0 }

  // ---- The laws -----------------------------------------------------------------------

  /** The weight of a unit of each counter, of a thread at each point and of a PCB in each place. */
  datatype Weights = Weights(counter: Counter -> int, point: Point -> int, place: Place -> int)

  /** The weights are signs, and where there is nothing there is no weight. */
  ghost predicate Proportioned(l: Weights) {
    && (forall x: Counter :: 0 <= l.counter(x) <= 1)
    && (forall x: Place :: -1 <= l.place(x) <= 1)
    && l.counter(Nothing) == 0 && l.place(Nowhere) == 0 && l.point(Anywhere) == 0
  }

  type Law = w: Weights | Proportioned(w) witness Weights(NoCounter, NoPoint, NoPlace)

  function NoCounter(x: Counter): int { 0 }
  function NoPoint(p: Point): int { 0 }
  function NoPlace(x: Place): int { 0 }

  /** cpu_free is the one token of the CPU: free, taken for a dispatch, with the PCB, or about to be given back. */
  function CpuLaw(): Law { Weights(CpuCounter, CpuPoint, CpuPlace) }
  function CpuCounter(x: Counter): int { B(x.CpuFree?) }
  function CpuPoint(p: Point): int {
    B(p.Dispatch? || p.IoPostCpu? || p.ExitPostExit? || p.ExitPostCpu? || p.PreemptPostReady? || p.PreemptPostCpu?)
  }
  function CpuPlace(x: Place): int { B(x.CpuInbox? || x.CpuRunning? || x.CpuOutbox?) }

  predicate Critical(p: Point) { p.Check? || p.AwaitInterrupt? || p.Sort? }

  // The tokens of a queue are its PCBs.
  function ReadyLaw(): Law { Weights(ReadyCounter, ReadyPoint, ReadyPlace) }
  function ReadyCounter(x: Counter): int { B(x.ReadyForExec?) }
  function ReadyPoint(p: Point): int { B(p.AwaitCpu? || p.Dispatch? || p.PreemptPostReady? || Critical(p) || p.Post?) }
  function ReadyPlace(x: Place): int { -B(x.ReadyQ?) }

  function IoLaw(): Law { Weights(IoCounter, IoPoint, IoPlace) }
  function IoCounter(x: Counter): int { B(x.ProcessForIo?) }
  function IoPoint(p: Point): int {
    B(p.IoPostCpu? || p.IoPostIo? || p.CheckBlocked? || p.TakeBlocked? || p.TakeSuspendedBlocked? || p.PostCredit?
        || p.PostIo?)
  }
  function IoPlace(x: Place): int { -B(x.BlockedQ? || x.SuspendedBlockedQ?) }

  function AnyLaw(): Law { Weights(AnyCounter, AnyPoint, AnyPlace) }
  function AnyCounter(x: Counter): int { B(x.AnyForReady? || x.Received?) }
  function AnyPoint(p: Point): int {
    B(p.PostAny? || p.AwaitCredit? || p.ChooseQueue? || p.TakeSuspended? || p.CheckNew? || p.TakeNew?)
  }
  function AnyPlace(x: Place): int { -B(x.NewQ? || x.SuspendedReadyQ?) }

  function ExitLaw(): Law { Weights(ExitCounter, ExitPoint, ExitPlace) }
  function ExitCounter(x: Counter): int { B(x.ToExit?) }
  function ExitPoint(p: Point): int { B(p.ExitPostExit? || p.TakeExit?) }
  function ExitPlace(x: Place): int { -B(x.ExitQ?) }

  /** sem_multiprogram and the processes that are admitted, neither suspended nor acknowledged as exited. */
  function CreditLaw(): Law { Weights(CreditCounter, CreditPoint, CreditPlace) }
  function CreditCounter(x: Counter): int { B(x.Multiprogram?) }
  function CreditPoint(p: Point): int {
    if p.ChooseQueue? || p.TakeSuspended? || p.CheckNew? || p.TakeNew? || p.PostCredit? || p.PostExitCredit? then 1
        else 0
  }
  function CreditPlace(x: Place): int {
    if x.NewQ? || x.SuspendedBlockedQ? || x.SleepingHand? || x.SuspendedReadyQ? || x.Finished? || x.Nowhere? then 0
        else 1
  }

  /** execution_mutex is free, one put_to_ready holds it, or to_exec does. */
  function MutexLaw(): Law { Weights(MutexCounter, MutexPoint, NoPlace) }
  function MutexCounter(x: Counter): int { B(x.MutexFree?) }
  function MutexPoint(p: Point): int { B(Critical(p) || p.Timing?) }

  // A local PCB exists exactly between the steps that fetch it and pass it on.
  function TablesLaw(): Law { Weights(TableCounter, TablePoint, TablePlace) }
  function TableCounter(x: Counter): int { B(x.TableReady?) }
  function TablePoint(p: Point): int { B(p.PostTables?) - B(p.AwaitTables?) }
  function TablePlace(x: Place): int { B(x.MemoryInitQ?) }

  function ToReadyHandLaw(): Law { Weights(TableCounter, ToReadyHandPoint, ToReadyHandPlace) }
  function ToReadyHandPoint(p: Point): int { B(p.PostTables? || (p.Enqueue? && p.t.ToReady?)) }
  function ToReadyHandPlace(x: Place): int { -B(x.ToReadyHand?) }

  function AdmittingHandLaw(): Law { Weights(NoCounter, AdmittingHandPoint, AdmittingHandPlace) }
  function AdmittingHandPoint(p: Point): int { B(p.RequestTables?) }
  function AdmittingHandPlace(x: Place): int { -B(x.AdmittingHand?) }

  function ResumingHandLaw(): Law { Weights(NoCounter, ResumingHandPoint, ResumingHandPlace) }
  function ResumingHandPoint(p: Point): int { B(p.RequestResume?) }
  function ResumingHandPlace(x: Place): int { -B(x.ResumingHand?) }

  function IoHandLaw(): Law { Weights(NoCounter, IoHandPoint, IoHandPlace) }
  function IoHandPoint(p: Point): int { B(p.RequestSuspension? || (p.Enqueue? && p.t.IoListener?)) }
  function IoHandPlace(x: Place): int { -B(x.IoHand?) }

  function SuspendingHandLaw(): Law { Weights(NoCounter, SuspendingHandPoint, SuspendingHandPlace) }
  function SuspendingHandPoint(p: Point): int { B(p.AwaitSuspension? || p.EnterSuspended?) }
  function SuspendingHandPlace(x: Place): int { -B(x.SuspendingHand?) }

  function SleepingHandLaw(): Law { Weights(NoCounter, SleepingHandPoint, SleepingHandPlace) }
  function SleepingHandPoint(p: Point): int { B(p.SleepSuspended?) }
  function SleepingHandPlace(x: Place): int { -B(x.SleepingHand?) }

  function ExitHandLaw(): Law { Weights(NoCounter, ExitHandPoint, ExitHandPlace) }
  function ExitHandPoint(p: Point): int { B(p.RequestExit?) }
  function ExitHandPlace(x: Place): int { -B(x.ExitHand?) }

  /** An interruption that is under way - sent, noticed, or being handled - has a put_to_ready that waits for it.
      The one the CPU has answered and nobody has handled yet is in the headers. */
  function InterruptLaw(): Law { Weights(InterruptCounter, InterruptPoint, NoPlace) }
  function InterruptCounter(x: Counter): int { B(x.InterruptWire? || x.Interruption? || x.InterruptReady?) }
  function InterruptPoint(p: Point): int {
    B(p.PreemptPostReady? || p.PreemptPostCpu? || p.PreemptPostDone?) - B(p.AwaitInterrupt?)
  }

  /** Every PCB is somewhere. */
  function EverywhereLaw(): Law { Weights(NoCounter, NoPoint, AnyWhere) }
  function AnyWhere(x: Place): int { B(!x.Nowhere?) }

  // ---- Sums ---------------------------------------------------------------------------

  /** The PCBs of a sequence with a given pid. */
  function Occurrences(q: seq<Pcb>, pid: nat): (n: int)
    ensures n >= 0
  {
    if q == [] then 0 else B(q[0].pid == pid) + Occurrences(q[1..], pid)
  }

  /** Ways to measure the contents of a place: how many PCBs, or how many with one pid. */
  type Measure = seq<Pcb> -> int

  function All(): Measure { (q: seq<Pcb>) => |q| }

  function Of(pid: nat): Measure { (q: seq<Pcb>) => Occurrences(q, pid) }

  function Signed(sign: int, n: int): int { if sign == 1 then n else if sign == -1 then -n else 0 }

  function SumPlaces(f: Place -> int): int {
    f(NewQ) + f(ReadyQ) + f(MemoryInitQ) + f(MemoryExitQ) + f(BlockedQ) + f(SuspendedBlockedQ) + f(SuspendedReadyQ)
    + f(ExitQ) + f(Finished) + f(AdmittingHand) + f(ResumingHand) + f(ToReadyHand) + f(IoHand) + f(SuspendingHand)
        + f(SleepingHand)
    + f(ExitHand) + f(CpuInbox) + f(CpuRunning) + f(CpuOutbox)
  }

  function SumCounters(f: Counter -> int): int {
    f(Multiprogram) + f(CpuFree) + f(InterruptReady) + f(ProcessForIo) + f(AnyForReady) + f(ReadyForExec)
    + f(TableReady) + f(ToExit) + f(SuspensionDone) + f(Numbered) + f(Received) + f(MutexFree) + f(InterruptWire)
        + f(Interruption)
  }

  function SumThreads(f: Thread -> int): int {
    f(Handlers) + f(ToReady) + f(IoListener) + f(ToExec) + f(ExitProcess) + f(DispatchListener) + f(MemoryListener)
  }

  function PlaceTerm(at: Places, l: Law, m: Measure): Place -> int {
    x => Signed(l.place(x), m(At(at, x)))
  }

  function CounterTerm(count: map<Counter, nat>, l: Law): Counter -> int {
    x => Signed(l.counter(x), if x in count then count[x] else 0)
  }

  function ThreadTerm(point: map<Thread, Point>, l: Law): Thread -> int {
    t => if t in point then l.point(point[t]) else 0
  }

  function Tally(at: Places, l: Law, m: Measure): int { SumPlaces(PlaceTerm(at, l, m)) }

  function Units(count: map<Counter, nat>, l: Law): int { SumCounters(CounterTerm(count, l)) }

  function Threads(point: map<Thread, Point>, l: Law): int { SumThreads(ThreadTerm(point, l)) }

  function Balance(count: map<Counter, nat>, point: map<Thread, Point>, at: Places, l: Law): int {
    Units(count, l) + Threads(point, l) + Tally(at, l, All())
  }

  function BalanceOf(s: State, l: Law): int { Balance(s.count, s.point, s.at, l) }

  // ---- How a step changes them --------------------------------------------------------

  lemma {:induction false} OccurrencesConcat(q: seq<Pcb>, r: seq<Pcb>, pid: nat)
    ensures Occurrences(q + r, pid) == Occurrences(q, pid) + Occurrences(r, pid)
  {
    if q == [] {
      assert q + r == r;
    } else {
      assert (q + r)[1..] == q[1..] + r;
      OccurrencesConcat(q[1..], r, pid);
    }
  }

  lemma OccurrencesWithout(q: seq<Pcb>, i: nat, pid: nat)
    requires i < |q|
    ensures Occurrences(Without(q, i), pid) + B(q[i].pid == pid) == Occurrences(q, pid)
  {
    assert q == q[..i] + ([q[i]] + q[i + 1..]);
    OccurrencesConcat(q[..i], [q[i]] + q[i + 1..], pid);
    OccurrencesConcat([q[i]], q[i + 1..], pid);
    OccurrencesConcat(q[..i], q[i + 1..], pid);
  }

  lemma SumPlacesChange(f: Place -> int, g: Place -> int, x: Place)
    requires x != Nowhere && forall y :: y != x ==> f(y) == g(y)
    ensures SumPlaces(g) == SumPlaces(f) + g(x) - f(x)
  {
    match x
    case _ =>
  }

  lemma SumCountersChange(f: Counter -> int, g: Counter -> int, x: Counter)
    requires x != Nothing && forall y :: y != x ==> f(y) == g(y)
    ensures SumCounters(g) == SumCounters(f) + g(x) - f(x)
  {
    match x
    case _ =>
  }

  lemma SumThreadsChange(f: Thread -> int, g: Thread -> int, x: Thread)
    requires forall y :: y != x ==> f(y) == g(y)
    ensures SumThreads(g) == SumThreads(f) + g(x) - f(x)
  {
    match x
    case _ =>
  }

  lemma PlaceTermElsewhere(at: Places, x: Place, q: seq<Pcb>, l: Law, m: Measure, y: Place)
    requires y != x
    ensures PlaceTerm(at[x := q], l, m)(y) == PlaceTerm(at, l, m)(y)
  {
    assert At(at[x := q], y) == At(at, y);
  }

  lemma TallyChange(at: Places, x: Place, q: seq<Pcb>, l: Law, m: Measure)
    requires x != Nowhere
    ensures Tally(at[x := q], l, m)
         == Tally(at, l, m) + Signed(l.place(x), m(q)) - Signed(l.place(x), m(At(at, x)))
  {
    hide SumPlaces;
    var f, g := PlaceTerm(at, l, m), PlaceTerm(at[x := q], l, m);
    forall y | y != x ensures f(y) == g(y) { PlaceTermElsewhere(at, x, q, l, m, y); }
    assert At(at[x := q], x) == q;
    SumPlacesChange(f, g, x);
  }

  lemma UnitsChange(count: map<Counter, nat>, x: Counter, n: nat, l: Law)
    requires x != Nothing
    ensures Units(count[x := n], l)
         == Units(count, l) + Signed(l.counter(x), n) - Signed(l.counter(x), if x in count then count[x] else 0)
  {
    SumCountersChange(CounterTerm(count, l), CounterTerm(count[x := n], l), x);
  }

  lemma ThreadsChange(point: map<Thread, Point>, t: Thread, p: Point, l: Law)
    ensures Threads(point[t := p], l) == Threads(point, l) + l.point(p) - ThreadTerm(point, l)(t)
  {
    SumThreadsChange(ThreadTerm(point, l), ThreadTerm(point[t := p], l), t);
  }

  // ---- Reading a law ------------------------------------------------------------------

  lemma CounterTermsAreNonNegative(count: map<Counter, nat>, l: Law, x: Counter)
    ensures Units(count, l) >= CounterTerm(count, l)(x) >= 0 || x == Nothing
  {
    assert forall y :: CounterTerm(count, l)(y) >= 0;
    SumCountersAtLeast(CounterTerm(count, l), x);
  }

  lemma SumCountersAtLeast(f: Counter -> int, x: Counter)
    requires forall y :: f(y) >= 0
    ensures SumCounters(f) >= f(x) || x == Nothing
  {
  }

  lemma SumThreadsAtLeast(f: Thread -> int, x: Thread, y: Thread)
    requires x != y && forall z :: f(z) >= 0
    ensures SumThreads(f) >= f(x) + f(y)
  {
  }

  lemma SumThreadsMonotone(f: Thread -> int, g: Thread -> int)
    requires forall t :: f(t) <= g(t)
    ensures SumThreads(f) <= SumThreads(g)
  {
  }

  /** Units of one counter, and two threads, weigh no more than the law allows. */
  lemma AtLeast(s: State, l: Law, x: Counter, t: Thread, u: Thread)
    requires x != Nothing && t != u && forall p :: l.point(p) >= 0
    ensures BalanceOf(s, l)
         >= CounterTerm(s.count, l)(x) + ThreadTerm(s.point, l)(t) + ThreadTerm(s.point, l)(u) + Tally(s.at, l, All())
  {
    CounterTermsAreNonNegative(s.count, l, x);
    assert forall z :: ThreadTerm(s.point, l)(z) >= 0;
    SumThreadsAtLeast(ThreadTerm(s.point, l), t, u);
    hide SumThreads, SumCounters, SumPlaces, CounterTerm, ThreadTerm, Tally;
  }

  function Nil(x: Place): int { 0 }

  lemma SumOfNothing()
    ensures SumPlaces(Nil) == 0
  {
  }

  lemma SumOfTwo(f: Place -> int, x: Place, y: Place)
    requires x != Nowhere && y != Nowhere && forall z :: z != x && z != y ==> f(z) == 0
    ensures SumPlaces(f) == f(x) + if x == y then 0 else f(y)
  {
    hide SumPlaces;
    SumOfNothing();
    var one := (z: Place) => if z == x then f(x) else 0;
    SumPlacesChange(Nil, one, x);
    SumPlacesChange(one, f, y);
  }

  lemma SumOfThree(f: Place -> int, x: Place, y: Place, z: Place)
    requires x != Nowhere && y != Nowhere && z != Nowhere && x != y && y != z && x != z
    requires forall u :: u != x && u != y && u != z ==> f(u) == 0
    ensures SumPlaces(f) == f(x) + f(y) + f(z)
  {
    hide SumPlaces;
    var two := (u: Place) => if u == z then 0 else f(u);
    SumOfTwo(two, x, y);
    SumPlacesChange(two, f, z);
  }

  /** A law whose only places are x and y, the weight of each being -1. */
  lemma TallyOfTwo(at: Places, l: Law, x: Place, y: Place)
    requires x != Nowhere && y != Nowhere
    requires forall z :: l.place(z) == if z == x || z == y then -1 else 0
    ensures Tally(at, l, All()) == -|At(at, x)| - (if x == y then 0 else |At(at, y)|)
  {
    hide SumPlaces;
    var f := PlaceTerm(at, l, All());
    assert forall z :: f(z) == if z == x || z == y then -|At(at, z)| else 0;
    SumOfTwo(f, x, y);
  }

  // ---- Steps and laws -----------------------------------------------------------------

  /** What a step of shape h adds to the balance of a law. */
  function Net(h: Shape, l: Law): int {
    l.counter(h.post) - l.counter(h.wait) + l.point(h.next) - l.point(h.here)
    + l.place(h.to) - l.place(h.from)
  }

  lemma UnitsAfter(s: State, h: Shape, l: Law)
    requires !h.wait.Nothing? ==> N(s, h.wait) > 0
    ensures Units(CountAfter(s, h), l)
         == Units(s.count, l) + l.counter(h.post) - l.counter(h.wait)
  {
    hide Units;
    var less := s.count;
    if !h.wait.Nothing? {
      UnitsChange(s.count, h.wait, N(s, h.wait) - 1, l);
      less := s.count[h.wait := N(s, h.wait) - 1];
    }
    if !h.post.Nothing? {
      UnitsChange(less, h.post, (if h.post in less then less[h.post] else 0) + 1, l);
    }
  }

  /** Whatever is measured, putting a PCB somewhere adds what the PCB measures. */
  lemma TallyPut(at: Places, x: Place, pcb: Pcb, l: Law, m: Measure, w: int)
    requires x != Nowhere
    requires m(At(at, x) + [pcb]) == m(At(at, x)) + w && 0 <= w <= 1
    ensures Tally(Put(at, x, pcb), l, m) == Tally(at, l, m) + Signed(l.place(x), w)
  {
    hide Tally;
    TallyChange(at, x, At(at, x) + [pcb], l, m);
  }

  lemma TallyTake(at: Places, x: Place, i: nat, l: Law, m: Measure, w: int)
    requires x != Nowhere
    requires m(Without(At(at, x), i)) == m(At(at, x)) - w && 0 <= w <= 1
    ensures Tally(Take(at, x, i), l, m) == Tally(at, l, m) - Signed(l.place(x), w)
  {
    hide Tally;
    TallyChange(at, x, Without(At(at, x), i), l, m);
  }

  lemma SortKeepsLength(c: Config, s: State, e: Step)
    requires Enabled(c, s, e) && Sorts(e)
    ensures |e.put.sorted| == |At(s.at, ReadyQ)|
  {
    assert |e.put.sorted| == |multiset(e.put.sorted)|;
  }

  /** Only the creation of a process has a place to go and none to come from; sorting stays in its place. */
  lemma MovesAreWhole(e: Step)
    ensures Receives(e) ==> ShapeOf(e).from == Nowhere && ShapeOf(e).to == NewQ
    ensures Sorts(e) ==> ShapeOf(e).from == Nowhere && ShapeOf(e).to == Nowhere
    ensures !Receives(e) ==> (ShapeOf(e).from == Nowhere <==> ShapeOf(e).to == Nowhere)
  {
  }

  lemma TallyAfter(c: Config, s: State, e: Step, l: Law)
    requires Enabled(c, s, e) && !SendsTwice(s, e)
    ensures var h := ShapeOf(e);
            Tally(PlacesAfter(c, s, e), l, All())
            == Tally(s.at, l, All()) + l.place(h.to) - l.place(h.from)
  {
    hide Tally, Carried, Guard, ShapeOf;
    MovesAreWhole(e);
    var h := ShapeOf(e);
    if Receives(e) {
      TallyPut(s.at, NewQ, Created(c, s, e.receive), l, All(), 1);
    } else if Sorts(e) {
      SortKeepsLength(c, s, e);
      TallyChange(s.at, ReadyQ, e.put.sorted, l, All());
    } else if !h.from.Nowhere? {
      TallyTake(s.at, h.from, Index(e), l, All(), 1);
      TallyPut(Take(s.at, h.from, Index(e)), h.to,
               Carried(c, s, e, At(s.at, h.from)[Index(e)]), l, All(), 1);
    }
  }

  lemma BalanceAfter(c: Config, s: State, e: Step, l: Law)
    requires Enabled(c, s, e) && !SendsTwice(s, e)
    ensures BalanceOf(Apply(c, s, e), l) == BalanceOf(s, l) + Net(ShapeOf(e), l)
  {
    hide Tally, Units, Threads, ShapeOf, Guard, Proper, PlacesAfter, CountAfter, HistoryAfter, Sent, HeadersAfter;
    var h := ShapeOf(e);
    UnitsAfter(s, h, l);
    TallyAfter(c, s, e, l);
    ThreadsChange(s.point, h.thread, h.next, l);
  }

  /** The steps of the handlers, the CPU and io_listener; a law is looked at for these and for the others apart. */
  predicate Elsewhere(e: Step) { e.Io? || e.Return? || e.Answer? || e.Cpu? }

  lemma CpuCancelsHere(e: Step)
    requires Proper(e) && !Elsewhere(e)
    ensures Net(ShapeOf(e), CpuLaw()) == 0
  {
    hide Proportioned;
  }

  lemma CpuCancelsElsewhere(e: Step)
    requires Proper(e) && Elsewhere(e)
    ensures Net(ShapeOf(e), CpuLaw()) == 0
  {
    hide Proportioned;
  }

  lemma CpuCancels(e: Step)
    requires Proper(e)
    ensures Net(ShapeOf(e), CpuLaw()) == 0
  {
    hide ShapeOf, Net;
    if Elsewhere(e) { CpuCancelsElsewhere(e); } else { CpuCancelsHere(e); }
  }

  lemma ReadyCancelsHere(e: Step)
    requires Proper(e) && !Elsewhere(e)
    ensures Net(ShapeOf(e), ReadyLaw()) == 0
  {
    hide Proportioned;
  }

  lemma ReadyCancelsElsewhere(e: Step)
    requires Proper(e) && Elsewhere(e)
    ensures Net(ShapeOf(e), ReadyLaw()) == 0
  {
    hide Proportioned;
  }

  lemma ReadyCancels(e: Step)
    requires Proper(e)
    ensures Net(ShapeOf(e), ReadyLaw()) == 0
  {
    hide ShapeOf, Net;
    if Elsewhere(e) { ReadyCancelsElsewhere(e); } else { ReadyCancelsHere(e); }
  }

  lemma IoCancelsHere(e: Step)
    requires Proper(e) && !Elsewhere(e)
    ensures Net(ShapeOf(e), IoLaw()) == 0
  {
    hide Proportioned;
  }

  lemma IoCancelsElsewhere(e: Step)
    requires Proper(e) && Elsewhere(e)
    ensures Net(ShapeOf(e), IoLaw()) == 0
  {
    hide Proportioned;
  }

  lemma IoCancels(e: Step)
    requires Proper(e)
    ensures Net(ShapeOf(e), IoLaw()) == 0
  {
    hide ShapeOf, Net;
    if Elsewhere(e) { IoCancelsElsewhere(e); } else { IoCancelsHere(e); }
  }

  lemma AnyCancelsIo(e: Step)
    requires e.Io? || e.Return? || e.Answer?
    ensures Net(ShapeOf(e), AnyLaw()) == 0
  {
    hide Proportioned;
  }

  lemma AnyCancelsElsewhere(e: Step)
    requires Proper(e) && e != Admit(SeeNothing) && !e.Io? && !e.Return? && !e.Answer?
    ensures Net(ShapeOf(e), AnyLaw()) == 0
  {
    hide Proportioned;
  }

  lemma AnyCancels(e: Step)
    requires Proper(e) && e != Admit(SeeNothing)
    ensures Net(ShapeOf(e), AnyLaw()) == 0
  {
    hide ShapeOf, Net;
    if e.Io? || e.Return? || e.Answer? { AnyCancelsIo(e); } else { AnyCancelsElsewhere(e); }
  }

  lemma ExitCancels(e: Step)
    requires Proper(e)
    ensures Net(ShapeOf(e), ExitLaw()) == 0
  {
    hide Proportioned;
  }

  predicate OfSuspension(e: Step) {
    e.Io? && (e.io.SendSuspend? || e.io.TokenSuspension? || e.io.PushSuspendedBlocked? || e.io.GiveCredit?)
  }

  lemma CreditCancelsSuspension(e: Step)
    requires OfSuspension(e)
    ensures Net(ShapeOf(e), CreditLaw()) == 0
  {
    hide Proportioned;
  }

  lemma CreditCancelsIo(e: Step)
    requires e.Io? && !OfSuspension(e)
    ensures Net(ShapeOf(e), CreditLaw()) == 0
  {
    hide Proportioned;
  }

  lemma CreditCancelsAnswers(e: Step)
    requires e.Return? || e.Answer?
    ensures Net(ShapeOf(e), CreditLaw()) == 0
  {
    hide Proportioned;
  }

  lemma CreditCancelsAdmission(e: Step)
    requires e.Admit? && e != Admit(SeeNothing)
    ensures Net(ShapeOf(e), CreditLaw()) == 0
  {
    hide Proportioned;
  }

  lemma CreditCancelsInPut(e: Step)
    requires Proper(e) && e.PutToReady?
    ensures Net(ShapeOf(e), CreditLaw()) == 0
  {
    hide Proportioned;
  }

  lemma CreditCancelsElsewhere(e: Step)
    requires !e.Admit? && !e.Io? && !e.Return? && !e.Answer? && !e.PutToReady?
    ensures Net(ShapeOf(e), CreditLaw()) == 0
  {
    hide Proportioned;
  }

  lemma CreditCancels(e: Step)
    requires Proper(e) && e != Admit(SeeNothing)
    ensures Net(ShapeOf(e), CreditLaw()) == 0
  {
    hide ShapeOf, Net;
    if OfSuspension(e) { CreditCancelsSuspension(e); }
    else if e.Io? { CreditCancelsIo(e); }
    else if e.Return? || e.Answer? { CreditCancelsAnswers(e); }
    else if e.Admit? { CreditCancelsAdmission(e); }
    else if e.PutToReady? { CreditCancelsInPut(e); }
    else { CreditCancelsElsewhere(e); }
  }

  lemma MutexCancels(e: Step)
    requires Proper(e)
    ensures Net(ShapeOf(e), MutexLaw()) == 0
  {
    hide Proportioned;
  }

  lemma TablesCancels(e: Step)
    requires Proper(e)
    ensures Net(ShapeOf(e), TablesLaw()) == 0
  {
    hide Proportioned;
  }

  lemma ToReadyHandCancels(e: Step)
    requires Proper(e)
    ensures Net(ShapeOf(e), ToReadyHandLaw()) == 0
  {
    hide Proportioned;
  }

  lemma AdmittingHandCancels(e: Step)
    requires Proper(e)
    ensures Net(ShapeOf(e), AdmittingHandLaw()) == 0
  {
    hide Proportioned;
  }

  lemma ResumingHandCancels(e: Step)
    requires Proper(e)
    ensures Net(ShapeOf(e), ResumingHandLaw()) == 0
  {
    hide Proportioned;
  }

  lemma IoHandCancels(e: Step)
    requires Proper(e)
    ensures Net(ShapeOf(e), IoHandLaw()) == 0
  {
    hide Proportioned;
  }

  lemma SuspendingHandCancels(e: Step)
    requires Proper(e)
    ensures Net(ShapeOf(e), SuspendingHandLaw()) == 0
  {
    hide Proportioned;
  }

  lemma SleepingHandCancels(e: Step)
    requires Proper(e)
    ensures Net(ShapeOf(e), SleepingHandLaw()) == 0
  {
    hide Proportioned;
  }

  lemma ExitHandCancels(e: Step)
    requires Proper(e)
    ensures Net(ShapeOf(e), ExitHandLaw()) == 0
  {
    hide Proportioned;
  }

  lemma InterruptCancelsHere(e: Step)
    requires Proper(e) && e != Cpu(CpuInterruptedAgain) && !Elsewhere(e)
    ensures Net(ShapeOf(e), InterruptLaw())
         == B(e.Return? && e.return_.HandleInterrupt?) - B(e == Cpu(ExecuteYield))
  {
    hide Proportioned;
  }

  lemma InterruptCancelsElsewhere(e: Step)
    requires Proper(e) && e != Cpu(CpuInterruptedAgain) && Elsewhere(e)
    ensures Net(ShapeOf(e), InterruptLaw())
         == B(e.Return? && e.return_.HandleInterrupt?) - B(e == Cpu(ExecuteYield))
  {
    hide Proportioned;
  }

  lemma InterruptCancels(e: Step)
    requires Proper(e) && e != Cpu(CpuInterruptedAgain)
    ensures Net(ShapeOf(e), InterruptLaw())
         == B(e.Return? && e.return_.HandleInterrupt?) - B(e == Cpu(ExecuteYield))
  {
    hide ShapeOf, Net;
    if Elsewhere(e) { InterruptCancelsElsewhere(e); } else { InterruptCancelsHere(e); }
  }
}
