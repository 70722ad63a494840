/** No interleaving of the threads loses or duplicates a process - as long as the CPU does not send a PCB twice, and the
    handlers of the consoles number their processes one after the other. */
module KernelConservation {
  import opened Processes
  import opened Kernel
  import opened KernelLaws
  import opened KernelSafety

  /** How many PCBs with this pid there are, anywhere. */
  function Copies(at: Places, pid: nat): int { Tally(at, EverywhereLaw(), Of(pid)) }

  /** Every pid given out is carried by exactly one PCB, and no other pid by any. */
  ghost predicate Conserved(s: State) {
    forall p: nat {:trigger Copies(s.at, p)} :: Copies(s.at, p) == B(p in s.history.program)
  }

  // ---- A step and the copies of a pid -------------------------------------------------

  lemma MultisetWithout(r: seq<Pcb>, i: nat)
    requires i < |r|
    ensures multiset(Without(r, i)) == multiset(r) - multiset{r[i]}
  {
    assert r == r[..i] + [r[i]] + r[i + 1..];
  }

  lemma {:induction false} OccurrencesOfSort(q: seq<Pcb>, r: seq<Pcb>, pid: nat)
    requires multiset(q) == multiset(r)
    ensures Occurrences(q, pid) == Occurrences(r, pid)
    decreases |q|
  {
    if q == [] {
      assert |r| == |multiset(r)| == 0;
    } else {
      assert q[0] in multiset(r);
      var i :| 0 <= i < |r| && r[i] == q[0];
      MultisetWithout(r, i);
      assert q[1..] == Without(q, 0);
      MultisetWithout(q, 0);
      OccurrencesOfSort(q[1..], Without(r, i), pid);
      OccurrencesWithout(r, i, pid);
    }
  }

  lemma PidIsCarried(c: Config, s: State, e: Step, pcb: Pcb)
    ensures Carried(c, s, e, pcb).pid == pcb.pid
  {
  }

  lemma CopiesPut(at: Places, x: Place, pcb: Pcb, pid: nat)
    requires x != Nowhere
    ensures Copies(Put(at, x, pcb), pid) == Copies(at, pid) + B(pcb.pid == pid)
  {
    OccurrencesConcat(At(at, x), [pcb], pid);
    hide Tally;
    TallyPut(at, x, pcb, EverywhereLaw(), Of(pid), B(pcb.pid == pid));
  }

  lemma CopiesTake(at: Places, x: Place, i: nat, pid: nat)
    requires x != Nowhere && i < |At(at, x)|
    ensures Copies(Take(at, x, i), pid) == Copies(at, pid) - B(At(at, x)[i].pid == pid)
  {
    hide Tally;
    OccurrencesWithout(At(at, x), i, pid);
    TallyTake(at, x, i, EverywhereLaw(), Of(pid), B(At(at, x)[i].pid == pid));
  }

  lemma CopiesSort(at: Places, sorted: seq<Pcb>, pid: nat)
    requires multiset(sorted) == multiset(At(at, ReadyQ))
    ensures Copies(at[ReadyQ := sorted], pid) == Copies(at, pid)
  {
    hide Tally;
    OccurrencesOfSort(sorted, At(at, ReadyQ), pid);
    TallyChange(at, ReadyQ, sorted, EverywhereLaw(), Of(pid));
  }

  lemma CopiesAfter(c: Config, s: State, e: Step, pid: nat)
    requires Enabled(c, s, e)
    ensures Copies(PlacesAfter(c, s, e), pid)
         == Copies(s.at, pid) + B(Receives(e) && pid == s.pid)
            + B(SendsTwice(s, e) && pid == PidAt(s.at, CpuRunning, 0))
  {
    hide Copies, Carried, ShapeOf, Proper, OperationOf;
    var h := ShapeOf(e);
    MovesAreWhole(e);
    HeadersFollowTheOutbox(e);
    if Receives(e) {
      CopiesPut(s.at, NewQ, Created(c, s, e.receive), pid);
    } else if Sorts(e) {
      CopiesSort(s.at, e.put.sorted, pid);
    } else if h.from != Nowhere {
      var pcb := At(s.at, h.from)[Index(e)];
      PidIsCarried(c, s, e, pcb);
      CopiesTake(s.at, h.from, Index(e), pid);
      CopiesPut(Take(s.at, h.from, Index(e)), h.to, Carried(c, s, e, pcb), pid);
      if SendsTwice(s, e) {
        CopiesPut(Put(Take(s.at, h.from, Index(e)), h.to, Carried(c, s, e, pcb)), CpuOutbox, Carried(c, s, e, pcb),
            pid);
      }
    }
  }

  lemma ProgramsAfter(s: State, e: Step)
    ensures HistoryAfter(s, e).program.Keys == s.history.program.Keys + if Receives(e) then {s.pid} else {}
  {
    hide CanExecute, Fetched, BurstSoFar, PidAt;
  }

  /** The exact condition: from a good state, a step conserves the processes unless it sends a PCB twice or gives out a
      pid again. */
  lemma ConservedExactly(c: Config, s: State, e: Step)
    requires Conserved(s) && Enabled(c, s, e)
    ensures Conserved(Apply(c, s, e)) <==> !SendsTwice(s, e) && !Rereads(s, e)
  {
    hide Copies, PlacesAfter, CountAfter, HeadersAfter, HistoryAfter, Sent, RepliesAfter, Residents, ShapeOf, Guard,
         Proper;
    var s' := Apply(c, s, e);
    ProgramsAfter(s, e);
    forall p: nat ensures p in s'.history.program <==> p in s'.history.program.Keys {}
    forall p: nat ensures Copies(s'.at, p) == Copies(s.at, p) + B(Receives(e) && p == s.pid)
                                              + B(SendsTwice(s, e) && p == PidAt(s.at, CpuRunning, 0)) {
      CopiesAfter(c, s, e, p);
    }
    if SendsTwice(s, e) {
      var p := PidAt(s.at, CpuRunning, 0);
      assert Copies(s'.at, p) == Copies(s.at, p) + 1;
      RunningHasACopy(c, s, e);
    }
    if Rereads(s, e) { assert Copies(s'.at, s.pid) == 2; }
  }

  lemma RunningHasACopy(c: Config, s: State, e: Step)
    requires Enabled(c, s, e) && SendsTwice(s, e)
    ensures Copies(s.at, PidAt(s.at, CpuRunning, 0)) >= 1
  {
    hide Copies, ShapeOf;
    HeadersFollowTheOutbox(e);
    assert |At(s.at, CpuRunning)| > 0;
    CopyOf(s.at, CpuRunning, 0);
  }

  lemma CopyOf(at: Places, x: Place, i: nat)
    requires x != Nowhere && i < |At(at, x)|
    ensures Copies(at, At(at, x)[i].pid) >= 1
  {
    CopiesTake(at, x, i, At(at, x)[i].pid);
    CopiesAreNonNegative(Take(at, x, i), At(at, x)[i].pid);
  }

  lemma SumOfPositives(f: Place -> int)
    requires forall x :: f(x) >= 0
    ensures SumPlaces(f) >= 0
    ensures (forall x :: f(x) == 0) ==> SumPlaces(f) == 0
  {
  }

  lemma CopiesAreNonNegative(at: Places, pid: nat)
    ensures Copies(at, pid) >= 0
    ensures Copies(at, pid) > 0 ==> exists x :: x != Nowhere && Occurrences(At(at, x), pid) > 0
  {
    hide SumPlaces;
    var f := PlaceTerm(at, EverywhereLaw(), Of(pid));
    assert forall x :: f(x) == if x == Nowhere then 0 else Occurrences(At(at, x), pid);
    SumOfPositives(f);
  }

  // ---- Exactly one place --------------------------------------------------------------

  ghost predicate IsAt(at: Places, pid: nat, x: Place, i: nat) {
    x != Nowhere && i < |At(at, x)| && At(at, x)[i].pid == pid
  }

  ghost predicate InExactlyOnePlace(at: Places, pid: nat) {
    && (exists x, i :: IsAt(at, pid, x, i))
    && (forall x, i, y, j :: IsAt(at, pid, x, i) && IsAt(at, pid, y, j) ==> x == y && i == j)
  }

  lemma {:induction false} OccurrenceIndex(q: seq<Pcb>, pid: nat) returns (i: nat)
    requires Occurrences(q, pid) > 0
    ensures i < |q| && q[i].pid == pid
  {
    if q[0].pid == pid {
      i := 0;
    } else {
      var j := OccurrenceIndex(q[1..], pid);
      i := j + 1;
    }
  }

  lemma TwoCopies(at: Places, pid: nat, x: Place, i: nat, y: Place, j: nat)
    requires IsAt(at, pid, x, i) && IsAt(at, pid, y, j) && (x != y || i < j)
    ensures Copies(at, pid) >= 2
  {
    hide Copies;
    CopiesTake(at, x, i, pid);
    var k := if x == y then j - 1 else j;
    assert At(Take(at, x, i), y)[k] == At(at, y)[j];
    CopyOf(Take(at, x, i), y, k);
  }

  lemma OneCopyIsOnePlace(at: Places, pid: nat)
    requires Copies(at, pid) == 1
    ensures InExactlyOnePlace(at, pid)
  {
    CopiesAreNonNegative(at, pid);
    hide Copies;
    var x :| x != Nowhere && Occurrences(At(at, x), pid) > 0;
    var i := OccurrenceIndex(At(at, x), pid);
    assert IsAt(at, pid, x, i);
    forall x, i, y, j | IsAt(at, pid, x, i) && IsAt(at, pid, y, j) ensures x == y && i == j {
      if x != y || i < j { TwoCopies(at, pid, x, i, y, j); }
      if x == y && j < i { TwoCopies(at, pid, y, j, x, i); }
    }
  }

  // ---- Giving out pids ----------------------------------------------------------------

  /** At most one handler has stored pid and not read it back, the others have loaded it as it is; the pids up to
      there have been given out. */
  ghost predicate Numbering(s: State) {
    && N(s, Numbered) <= 1 && N(s, Numbered) <= s.pid
    && (forall v :: v in s.loaded ==> v == s.pid)
    && (forall p: nat :: p in s.history.program <==> 1 <= p <= s.pid - N(s, Numbered))
  }

  /** Every handler that has begun is done with pid. */
  predicate Finished(s: State) { N(s, Numbered) == 0 && s.loaded == [] }

  lemma NumbersAfter(c: Config, s: State, e: Step)
    requires Enabled(c, s, e)
    ensures var s' := Apply(c, s, e);
            && s'.pid == PidAfter(s, e) && s'.loaded == LoadedAfter(s, e)
            && N(s', Numbered) == N(s, Numbered) + B(Stores(e)) - B(Receives(e))
            && s'.history.program.Keys == s.history.program.Keys + if Receives(e) then {s.pid} else {}
    ensures Receives(e) ==> N(s, Numbered) > 0
    ensures Stores(e) ==> e.receive.handler < |s.loaded|
  {
    hide PlacesAfter, HeadersAfter, HistoryAfter, Sent, RepliesAfter, Residents, Given, SendsTwice, Guard, Proper,
         ShapeOf, PidAfter, LoadedAfter;
    ProgramsAfter(s, e);
    NumberingShapes(e);
    StoresWhatItLoaded(c, s, e);
  }

  lemma NumberingShapes(e: Step)
    ensures ShapeOf(e).wait == Numbered <==> Receives(e)
    ensures ShapeOf(e).post == Numbered <==> Stores(e)
  {
  }

  lemma StoresWhatItLoaded(c: Config, s: State, e: Step)
    requires Enabled(c, s, e)
    ensures Stores(e) ==> e.receive.handler < |s.loaded|
  {
  }

  /** What a handler stores is one more than what it had loaded. */
  lemma LoadedThen(s: State, e: Step)
    requires Stores(e) ==> e.receive.handler < |s.loaded|
    ensures forall v :: v in LoadedAfter(s, e) ==> v in s.loaded || (Loads(e) && v == s.pid)
    ensures forall v :: v in s.loaded ==> v in LoadedAfter(s, e) || (Stores(e) && v == PidAfter(s, e) - 1)
    ensures |LoadedAfter(s, e)| == |s.loaded| + B(Loads(e)) - B(Stores(e))
    ensures if Stores(e) then PidAfter(s, e) >= 1 && PidAfter(s, e) - 1 in s.loaded else PidAfter(s, e) == s.pid
  {
    if Stores(e) {
      var i, q := e.receive.handler, s.loaded;
      assert q == q[..i] + [q[i]] + q[i + 1..];
    }
  }

  /** In turn, no pid is given out again. */
  lemma NumberingKept(c: Config, s: State, e: Step)
    requires Numbering(s) && Enabled(c, s, e) && !Overtakes(s, e)
    ensures Numbering(Apply(c, s, e)) && !Rereads(s, e)
  {
    hide Apply, Enabled, LoadedAfter, PidAfter;
    NumbersAfter(c, s, e);
    LoadedThen(s, e);
    var s' := Apply(c, s, e);
    if Stores(e) {
      assert |s'.loaded| == 0;
    }
    forall p: nat ensures p in s'.history.program <==> 1 <= p <= s'.pid - N(s', Numbered) {
      assert p in s'.history.program <==> p in s'.history.program.Keys;
      assert p in s.history.program <==> p in s.history.program.Keys;
    }
  }

  lemma ConservedKept(c: Config, s: State, e: Step)
    requires Conserved(s) && Numbering(s) && Enabled(c, s, e) && !SendsTwice(s, e) && !Overtakes(s, e)
    ensures Conserved(Apply(c, s, e)) && Numbering(Apply(c, s, e)) && !Rereads(s, e)
  {
    hide Conserved, Numbering, Apply, Enabled, SendsTwice, Overtakes, Rereads;
    NumberingKept(c, s, e);
    ConservedExactly(c, s, e);
  }

  /** No pid is given out again. */
  ghost predicate Distinct(c: Config, s: State, steps: seq<Step>)
    requires Runs(c, s, steps)
    decreases |steps|
  {
    steps == [] || (!Rereads(s, steps[0]) && Distinct(c, Apply(c, s, steps[0]), steps[1..]))
  }

  lemma {:induction false} InTurnIsDistinct(c: Config, s: State, steps: seq<Step>)
    requires Numbering(s) && Runs(c, s, steps) && InTurn(c, s, steps)
    ensures Distinct(c, s, steps)
    decreases |steps|
  {
    hide Numbering, Apply, Enabled, Overtakes, Rereads;
    if steps != [] {
      NumberingKept(c, s, steps[0]);
      InTurnIsDistinct(c, Apply(c, s, steps[0]), steps[1..]);
    }
  }

  function UpTo(n: nat): (r: set<nat>)
    ensures forall p: nat :: p in r <==> 1 <= p <= n
    ensures |r| == n
  {
    if n == 0 then {} else UpTo(n - 1) + {n}
  }

  /** How many stores there have been, as long as no pid is given out again. */
  function StoreCount(s: State): nat { |s.history.program.Keys| + N(s, Numbered) }

  /** The pids given out, the global and what was loaded from it are at most n. */
  ghost predicate Within(s: State, n: nat) {
    s.history.program.Keys <= UpTo(n) && 1 <= s.pid <= n && forall v :: v in s.loaded ==> v <= n
  }

  lemma StoreCountAfter(c: Config, s: State, e: Step)
    requires Enabled(c, s, e) && !Rereads(s, e)
    ensures StoreCount(Apply(c, s, e)) == StoreCount(s) + B(Stores(e))
  {
    hide Apply, Enabled;
    NumbersAfter(c, s, e);
    if Receives(e) { assert s.pid !in s.history.program.Keys; }
  }

  lemma WithinMore(s: State, n: nat, m: nat)
    requires Within(s, n) && n <= m
    ensures Within(s, m)
  {
  }

  function Bound(s: State, e: Step, n: nat): nat { if Stores(e) && PidAfter(s, e) > n then n + 1 else n }

  lemma WithinKept(c: Config, s: State, e: Step, n: nat)
    requires Within(s, n) && Enabled(c, s, e)
    ensures Within(Apply(c, s, e), Bound(s, e, n))
  {
    hide Apply, Enabled, LoadedAfter, PidAfter;
    NumbersAfter(c, s, e);
    LoadedThen(s, e);
  }

  /** A handler has stored over the pid of one that had not read it back: p will never be read, */
  ghost predicate Lost(s: State, p: nat) {
    Within(s, StoreCount(s)) && 1 <= p < s.pid && p !in s.history.program.Keys && forall v :: v in s.loaded ==> p <= v
  }

  lemma LostKept(c: Config, s: State, e: Step, p: nat)
    requires Lost(s, p) && Enabled(c, s, e) && !Rereads(s, e)
    ensures Lost(Apply(c, s, e), p)
  {
    hide Apply, Enabled, StoreCount, LoadedAfter, PidAfter, Rereads, Within;
    NumbersAfter(c, s, e);
    LoadedThen(s, e);
    StoreCountAfter(c, s, e);
    WithinKept(c, s, e, StoreCount(s));
    WithinMore(Apply(c, s, e), Bound(s, e, StoreCount(s)), StoreCount(Apply(c, s, e)));
  }

  lemma {:induction false} LostPid(c: Config, s: State, steps: seq<Step>, p: nat)
    requires Lost(s, p) && Runs(c, s, steps) && Distinct(c, s, steps)
    ensures !Finished(After(c, s, steps))
    decreases |steps|
  {
    hide Apply, Enabled, Rereads;
    if steps == [] {
      assert s.history.program.Keys <= UpTo(StoreCount(s)) - {p};
      SubsetIsSmaller(s.history.program.Keys, UpTo(StoreCount(s)) - {p});
    } else {
      hide Lost, Finished;
      LostKept(c, s, steps[0], p);
      LostPid(c, Apply(c, s, steps[0]), steps[1..], p);
    }
  }

  /** or a handler has loaded pid before another one's store and will store the same. */
  ghost predicate Lagging(s: State, n: nat) {
    Within(s, n) && n <= StoreCount(s) && (n == StoreCount(s) ==> exists v :: v in s.loaded && v < n)
  }

  lemma LaggingKept(c: Config, s: State, e: Step, n: nat)
    requires Lagging(s, n) && Enabled(c, s, e) && !Rereads(s, e)
    ensures Lagging(Apply(c, s, e), Bound(s, e, n))
  {
    hide Apply, Enabled, StoreCount, LoadedAfter, PidAfter, Rereads, Within;
    NumbersAfter(c, s, e);
    LoadedThen(s, e);
    StoreCountAfter(c, s, e);
    WithinKept(c, s, e, n);
    if n == StoreCount(s) && Bound(s, e, n) == StoreCount(Apply(c, s, e)) {
      var v :| v in s.loaded && v < n;
      assert v in LoadedAfter(s, e);
    }
  }

  lemma {:induction false} LostUpdate(c: Config, s: State, steps: seq<Step>, n: nat)
    requires Lagging(s, n) && Runs(c, s, steps) && Distinct(c, s, steps)
    ensures !Finished(After(c, s, steps))
    decreases |steps|
  {
    hide Apply, Enabled, Rereads;
    if steps == [] {
      SubsetIsSmaller(s.history.program.Keys, UpTo(n));
    } else {
      hide Lagging, Finished;
      LaggingKept(c, s, steps[0], n);
      LostUpdate(c, Apply(c, s, steps[0]), steps[1..], Bound(s, steps[0], n));
    }
  }

  lemma NumberingCounts(s: State)
    requires Numbering(s)
    ensures StoreCount(s) == s.pid && s.history.program.Keys == UpTo(s.pid - N(s, Numbered))
  {
    assert s.history.program.Keys == UpTo(s.pid - N(s, Numbered));
  }

  lemma OvertakingStores(c: Config, s: State, e: Step)
    requires Numbering(s) && Enabled(c, s, e) && Overtakes(s, e)
    ensures var s' := Apply(c, s, e);
            && s'.pid == StoreCount(s') == s.pid + 1 && s'.history.program.Keys == UpTo(s.pid - N(s, Numbered))
            && (forall v :: v in s'.loaded ==> v == s.pid) && |s'.loaded| == |s.loaded| - 1
  {
    hide Apply, Enabled, StoreCount, LoadedAfter, PidAfter;
    NumberingCounts(s);
    NumbersAfter(c, s, e);
    StoreCountAfter(c, s, e);
    LoadedThen(s, e);
  }

  /** Each kind of overtaking leaves fewer pids than handlers. */
  lemma OvertakingLoses(c: Config, s: State, e: Step)
    requires Numbering(s) && Enabled(c, s, e) && Overtakes(s, e)
    ensures var s' := Apply(c, s, e); if N(s, Numbered) > 0 then Lost(s', s.pid) else Lagging(s', s'.pid)
  {
    hide Apply, Enabled, StoreCount;
    OvertakingStores(c, s, e);
    var s' := Apply(c, s, e);
    if N(s, Numbered) == 0 { assert s'.loaded[0] in s'.loaded; }
  }

  lemma OvertakenIsNeverFinished(c: Config, s: State, steps: seq<Step>)
    requires Numbering(s) && Runs(c, s, steps) && Distinct(c, s, steps) && steps != [] && Overtakes(s, steps[0])
    ensures !Finished(After(c, s, steps))
  {
    hide Apply, Enabled, Rereads, Finished, Lost, Lagging, Numbering, Overtakes;
    var s' := Apply(c, s, steps[0]);
    OvertakingLoses(c, s, steps[0]);
    if N(s, Numbered) > 0 { LostPid(c, s', steps[1..], s.pid); } else { LostUpdate(c, s', steps[1..], s'.pid); }
  }

  lemma {:induction false} DistinctIsInTurn(c: Config, s: State, steps: seq<Step>)
    requires Numbering(s) && Runs(c, s, steps) && Distinct(c, s, steps) && Finished(After(c, s, steps))
    ensures InTurn(c, s, steps)
    decreases |steps|
  {
    hide Apply, Enabled, Rereads, Finished, Numbering, Overtakes;
    if steps != [] {
      if Overtakes(s, steps[0]) { OvertakenIsNeverFinished(c, s, steps); }
      NumberingKept(c, s, steps[0]);
      DistinctIsInTurn(c, Apply(c, s, steps[0]), steps[1..]);
    }
  }

  /** kernel.c:251-252: once every handler that has begun is done, the pids are distinct exactly when no handler
      stored pid between another one's load and its reading back. */
  lemma PidsAreDistinctExactly(c: Config, s: State, steps: seq<Step>)
    requires Numbering(s) && Runs(c, s, steps) && Finished(After(c, s, steps))
    ensures Distinct(c, s, steps) <==> InTurn(c, s, steps)
  {
    hide Numbering, Runs, After, Distinct, InTurn, Finished;
    if InTurn(c, s, steps) { InTurnIsDistinct(c, s, steps); }
    if Distinct(c, s, steps) { DistinctIsInTurn(c, s, steps); }
  }

  // ---- Runs ---------------------------------------------------------------------------

  lemma ConservedInitially(c: Config)
    ensures Conserved(Initial(c)) && Numbering(Initial(c)) && N(Initial(c), Numbered) == 0
  {
    forall p: nat ensures Copies(Initial(c).at, p) == 0 { NoCopies(c, p); }
  }

  lemma NoCopies(c: Config, p: nat)
    ensures Copies(Initial(c).at, p) == 0
  {
    hide SumPlaces;
    var f := PlaceTerm(Initial(c).at, EverywhereLaw(), Of(p));
    assert forall x :: f(x) == 0;
    SumOfPositives(f);
  }

  lemma {:induction false} ConservedAlways(c: Config, s: State, steps: seq<Step>)
    requires Conserved(s) && Numbering(s) && Runs(c, s, steps) && Guarded(c, s, steps) && InTurn(c, s, steps)
    ensures Conserved(After(c, s, steps)) && Numbering(After(c, s, steps))
    decreases |steps|
  {
    hide Conserved, Numbering, Apply, Enabled, SendsTwice, Overtakes, Rereads;
    if steps != [] {
      ConservedKept(c, s, steps[0]);
      ConservedAlways(c, Apply(c, s, steps[0]), steps[1..]);
    }
  }

  /** Every process is carried by exactly one PCB, all along the run. */
  ghost predicate ConservedThroughout(c: Config, s: State, steps: seq<Step>)
    requires Runs(c, s, steps)
    decreases |steps|
  {
    Conserved(s) && (steps == [] || ConservedThroughout(c, Apply(c, s, steps[0]), steps[1..]))
  }

  /** A run conserves the processes all along exactly when it never executes an I/O call or an exit while an
      interruption is pending and never gives out a pid again. */
  lemma {:induction false} RunsConserveExactly(c: Config, s: State, steps: seq<Step>)
    requires Conserved(s) && Runs(c, s, steps)
    ensures ConservedThroughout(c, s, steps) <==> Guarded(c, s, steps) && Distinct(c, s, steps)
    decreases |steps|
  {
    hide Conserved, Apply, Enabled, SendsTwice, Rereads;
    if steps != [] {
      ConservedExactly(c, s, steps[0]);
      if !SendsTwice(s, steps[0]) && !Rereads(s, steps[0]) {
        RunsConserveExactly(c, Apply(c, s, steps[0]), steps[1..]);
      }
    }
  }

  /** Once every handler that has begun is done: exactly when no I/O call or exit meets an interruption, and no handler
      stores pid between another one's load and its reading back. */
  lemma FinishedRunsConserveExactly(c: Config, steps: seq<Step>)
    requires Runs(c, Initial(c), steps) && Finished(After(c, Initial(c), steps))
    ensures ConservedThroughout(c, Initial(c), steps) <==> Guarded(c, Initial(c), steps) && InTurn(c, Initial(c), steps)
  {
    hide Initial, Conserved, Numbering, Finished, Runs, Guarded, InTurn, Distinct, ConservedThroughout, After;
    ConservedInitially(c);
    RunsConserveExactly(c, Initial(c), steps);
    PidsAreDistinctExactly(c, Initial(c), steps);
  }

  /** PCB conservation: in every state a run reaches that has neither defect, each pid given out is in exactly one
      place. */
  lemma EveryProcessIsInOnePlace(c: Config, steps: seq<Step>, pid: nat)
    requires Runs(c, Initial(c), steps) && Guarded(c, Initial(c), steps) && InTurn(c, Initial(c), steps)
    requires 1 <= pid <= After(c, Initial(c), steps).pid - N(After(c, Initial(c), steps), Numbered)
    ensures InExactlyOnePlace(After(c, Initial(c), steps).at, pid)
  {
    hide Initial, Copies, InExactlyOnePlace, Runs, Guarded, InTurn, After;
    ConservedInitially(c);
    ConservedAlways(c, Initial(c), steps);
    var s := After(c, Initial(c), steps);
    assert pid in s.history.program;
    assert Copies(s.at, pid) == 1;
    OneCopyIsOnePlace(s.at, pid);
  }

  /** Under FIFO the guard is no restriction. */
  lemma EveryFifoProcessIsInOnePlace(c: Config, steps: seq<Step>, pid: nat)
    requires !c.srt && Runs(c, Initial(c), steps) && InTurn(c, Initial(c), steps)
    requires 1 <= pid <= After(c, Initial(c), steps).pid - N(After(c, Initial(c), steps), Numbered)
    ensures InExactlyOnePlace(After(c, Initial(c), steps).at, pid)
  {
    hide Initial, InExactlyOnePlace, Runs, Guarded, InTurn, After, N;
    SafeInitially(c);
    NeverPreemptsIsGuarded(c, Initial(c), steps);
    EveryProcessIsInOnePlace(c, steps, pid);
  }

  lemma HandlerStep(c: Config, s: State, e: Step)
    requires PointOf(s, Handlers) == Anywhere
    requires Loads(e) || (Stores(e) && e.receive.handler < |s.loaded|) || (Receives(e) && N(s, Numbered) > 0)
    ensures Enabled(c, s, e) && !SendsTwice(s, e) && PointOf(Apply(c, s, e), Handlers) == Anywhere
    ensures !Receives(e) ==> Apply(c, s, e).at == s.at
  {
    hide CountAfter, HeadersAfter, HistoryAfter, Sent, RepliesAfter, Residents;
  }

  lemma CreatedCopies(c: Config, s: State, e: Step, p: nat)
    requires Enabled(c, s, e) && Receives(e)
    ensures Copies(Apply(c, s, e).at, p) == Copies(s.at, p) + B(p == s.pid)
  {
    hide Copies;
    CopiesAfter(c, s, e, p);
  }

  lemma First(c: Config, s: State, e: Step, steps: seq<Step>)
    requires Enabled(c, s, e) && !SendsTwice(s, e) && Runs(c, Apply(c, s, e), steps)
    requires Guarded(c, Apply(c, s, e), steps)
    ensures Runs(c, s, [e] + steps) && Guarded(c, s, [e] + steps)
    ensures After(c, s, [e] + steps) == After(c, Apply(c, s, e), steps)
  {
    hide Enabled, Apply, SendsTwice;
    assert ([e] + steps)[1..] == steps;
  }

  /** A handler increments pid. */
  lemma Incremented(c: Config, s: State)
    requires PointOf(s, Handlers) == Anywhere && s.loaded == []
    ensures var load, store := Console(LoadPid), Console(StorePid(0));
            var s1 := Apply(c, s, load);
            var s2 := Apply(c, s1, store);
            && Enabled(c, s, load) && !SendsTwice(s, load) && Enabled(c, s1, store) && !SendsTwice(s1, store)
            && PointOf(s2, Handlers) == Anywhere && s2.at == s.at
            && s2.pid == s.pid + 1 && s2.loaded == [] && N(s2, Numbered) == N(s, Numbered) + 1
  {
    hide Apply, Enabled, SendsTwice;
    HandlerStep(c, s, Console(LoadPid));
    NumbersAfter(c, s, Console(LoadPid));
    HandlerStep(c, Apply(c, s, Console(LoadPid)), Console(StorePid(0)));
    NumbersAfter(c, Apply(c, s, Console(LoadPid)), Console(StorePid(0)));
  }

  /** Two handlers read back the same pid. */
  lemma BothReadBack(c: Config, s: State, one: Step, two: Step)
    requires PointOf(s, Handlers) == Anywhere && N(s, Numbered) == 2 && Receives(one) && Receives(two)
    ensures Runs(c, s, [one, two]) && Guarded(c, s, [one, two])
    ensures forall p: nat {:trigger Copies(s.at, p)} ::
        Copies(After(c, s, [one, two]).at, p) == Copies(s.at, p) + 2 * B(p == s.pid)
  {
    hide Apply, Enabled, Copies, SendsTwice;
    HandlerStep(c, s, one);
    NumbersAfter(c, s, one);
    var t := Apply(c, s, one);
    HandlerStep(c, t, two);
    First(c, t, two, []);
    First(c, s, one, [two]);
    forall p: nat ensures Copies(Apply(c, t, two).at, p) == Copies(s.at, p) + 2 * B(p == s.pid) {
      CreatedCopies(c, s, one, p);
      CreatedCopies(c, t, two, p);
    }
  }

  /** Where the handlers of two consoles both increment pid before either reads it back, two processes have pid 2 and
      none has pid 1, whatever the algorithm. */
  lemma TwoHandlersShareAPid(c: Config, a: ReceiveStep, b: ReceiveStep)
    requires a.Receive? && b.Receive?
    ensures var load, store := Console(LoadPid), Console(StorePid(0));
            var steps := [load, store, load, store, Console(a), Console(b)];
            && Runs(c, Initial(c), steps) && Guarded(c, Initial(c), steps)
            && Copies(After(c, Initial(c), steps).at, 1) == 0 && Copies(After(c, Initial(c), steps).at, 2) == 2
  {
    hide Apply, Enabled, Initial, Copies, SendsTwice, Runs, Guarded, After;
    var s, load, store, both := Initial(c), Console(LoadPid), Console(StorePid(0)), [Console(a), Console(b)];
    ConservedInitially(c);
    InitialHandlers(c);
    Incremented(c, s);
    var t := Apply(c, Apply(c, s, load), store);
    Incremented(c, t);
    var u := Apply(c, Apply(c, t, load), store);
    BothReadBack(c, u, Console(a), Console(b));
    First(c, Apply(c, t, load), store, both);
    First(c, t, load, [store] + both);
    First(c, Apply(c, s, load), store, [load] + ([store] + both));
    First(c, s, load, [store] + ([load] + ([store] + both)));
    NoCopies(c, 1);
    NoCopies(c, 2);
    assert [load] + ([store] + ([load] + ([store] + both))) == [load, store, load, store, Console(a), Console(b)];
  }

  lemma InitialHandlers(c: Config)
    ensures PointOf(Initial(c), Handlers) == Anywhere && Initial(c).pid == 0 && Initial(c).loaded == []
  {
  }
}
