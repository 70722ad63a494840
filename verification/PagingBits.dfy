/** The bits the replacement goes by, over runs: a page is used when it was accessed and no scan has passed it since,
    and modified when it was written since it came in; a fault evicts by the policy on those bits. */
module PagingBits {
  import opened Processes
  import opened Clock
  import opened Paging
  import opened PagingProcess
  import opened PagingRefinement
  import opened PagingRuns

  // ---- What a translation does to the slots and the bits ------------------------------

  predicate Full(p: Process) { forall i :: 0 <= i < |p.slots| ==> p.slots[i].page != -1 }

  /** The page in a slot, and its bits. */
  predicate UsedIn(p: Process, i: nat) {
    i < |p.slots| && 0 <= p.slots[i].page < |p.pages| && p.pages[p.slots[i].page].used
  }

  predicate ModifiedIn(p: Process, i: nat) {
    i < |p.slots| && 0 <= p.slots[i].page < |p.pages| && p.pages[p.slots[i].page].modified
  }

  /** A translation of page l of this process makes the scan pass slot i: l is absent, there is no free slot, every slot
      from the hand to i holds a used page, and CLOCK-M has no unused, unmodified one to take at its first turn. */
  ghost predicate ScanPasses(g: Geometry, p: Process, l: nat, i: nat)
    requires p.hand < |p.slots| && i < |p.slots|
  {
    && l < |p.pages| && !p.pages[l].present && Full(p)
    && (forall j :: 0 <= j < |p.slots| && Distance(p.hand, j, |p.slots|) <= Distance(p.hand, i, |p.slots|) ==>
          UsedIn(p, j))
    && !(g.clockM && exists j :: 0 <= j < |p.slots| && !UsedIn(p, j) && !ModifiedIn(p, j))
  }

  /** It passes the slot that holds page k. */
  ghost predicate ScanPassesPage(g: Geometry, p: Process, l: nat, k: nat)
    requires p.hand < |p.slots|
  {
    exists i :: 0 <= i < |p.slots| && p.slots[i].page == k && ScanPasses(g, p, l, i)
  }

  lemma FullHasNoFree(slots: seq<Slot>)
    ensures FirstFree(slots, 0) == |slots| <==> forall i :: 0 <= i < |slots| ==> slots[i].page != -1
  {
  }

  lemma ClearsIsScanPasses(g: Geometry, p: Process, l: nat, i: nat)
    requires Occupied(p) && Full(p) && p.hand < |p.slots| && i < |p.slots| && l < |p.pages| && !p.pages[l].present
    ensures Clears(g.clockM, BitsOf(p), p.hand, i) <==> ScanPasses(g, p, l, i)
  {
    forall j | 0 <= j < |p.slots| ensures BitsOf(p)[j] == Bits(UsedIn(p, j), ModifiedIn(p, j)) {}
  }

  /** A replacement by any outcome. */
  lemma ReplacedPage(p: Process, ram: seq<Page>, o: Outcome, l: nat, k: nat)
    requires Fits(p, ram) && l < |p.swap| && k < |p.pages|
    requires |o.bits| == |p.slots| && o.victim < |p.slots| && o.hand < |p.slots| && p.slots[o.victim].page >= 0
    ensures var q, v := Replaced(p, ram, o, l).p, p.slots[o.victim].page;
            && |q.pages| == |p.pages| && q.hand == o.hand
            && q.slots == p.slots[o.victim := p.slots[o.victim].(page := l)]
            && q.pages[k].used == UsedAs(p, o.bits, k).used
            && (k != v ==> q.pages[k].modified == p.pages[k].modified)
            && (q.pages[k].present <==> k == l || (k != v && p.pages[k].present))
  {
    hide UsedAs;
  }

  lemma UsedAsOutcome(g: Geometry, p: Process, l: nat, k: nat)
    requires Occupied(p) && Full(p) && p.hand < |p.slots| && l < |p.pages| && !p.pages[l].present && k < |p.pages|
    ensures UsedAs(p, Replacement(g.clockM, BitsOf(p), p.hand).bits, k).used
            <==> p.pages[k].used && !ScanPassesPage(g, p, l, k)
  {
    hide Clears, Replacement, ScanPasses;
    var i := SlotOf(p.slots, k);
    if i < |p.slots| {
      ReplacementClearsExactly(g.clockM, BitsOf(p), p.hand, i);
      ClearsIsScanPasses(g, p, l, i);
      forall j | 0 <= j < |p.slots| && p.slots[j].page == k ensures j == i {}
    }
  }

  /** A fault into a free slot. */
  lemma LoadedPage(p: Process, ram: seq<Page>, i: nat, l: nat, k: nat)
    requires Fits(p, ram) && i < |p.slots| && l < |p.swap| && k < |p.pages|
    ensures var q := Loaded(p, ram, i, l).p;
            && |q.pages| == |p.pages| && q.hand == p.hand && q.slots == p.slots[i := p.slots[i].(page := l)]
            && q.pages[k].used == p.pages[k].used && q.pages[k].modified == p.pages[k].modified
            && (q.pages[k].present <==> k == l || p.pages[k].present)
  {
  }

  lemma AbsentIsClean(g: Geometry, p: Process, bitmap: seq<bool>, ram: seq<Page>, k: nat)
    requires ProcOk(g, p, bitmap, ram) && k < |p.pages|
    ensures p.pages[k].modified ==> p.pages[k].present
  {
    assert PageOk(p, ram, k);
  }

  lemma NothingPassesWhereFree(g: Geometry, p: Process, l: nat, k: nat)
    requires p.hand < |p.slots| && (l < |p.pages| && !p.pages[l].present ==> !Full(p))
    ensures !ScanPassesPage(g, p, l, k)
  {
  }

  /** What a translation does to the bits of a page: it clears used where the scan passes, and a page that comes in is
      not modified. */
  lemma TranslatedBits(g: Geometry, p: Process, bitmap: seq<bool>, ram: seq<Page>, l: nat, k: nat)
    requires ProcOk(g, p, bitmap, ram) && Fits(p, ram) && l < |p.swap| && k < |p.pages|
    ensures var q := Translated(g, p, ram, l).p;
            && |q.pages| == |p.pages|
            && (q.pages[k].used <==> p.pages[k].used && !ScanPassesPage(g, p, l, k))
            && (q.pages[k].present ==> q.pages[k].modified == (p.pages[k].present && p.pages[k].modified))
  {
    hide ProcOk, ScanPassesPage, Replaced, Loaded, Replacement, UsedAs;
    AbsentIsClean(g, p, bitmap, ram, k);
    FullHasNoFree(p.slots);
    if p.pages[l].present || !Full(p) {
      NothingPassesWhereFree(g, p, l, k);
      if !p.pages[l].present { LoadedPage(p, ram, FirstFree(p.slots, 0), l, k); }
    } else {
      FullIsOccupied(g, p, bitmap, ram);
      UsedAsOutcome(g, p, l, k);
      ReplacedPage(p, ram, Replacement(g.clockM, BitsOf(p), p.hand), l, k);
      AbsentIsInNoSlot(g, p, bitmap, ram, l);
    }
  }

  lemma AbsentIsInNoSlot(g: Geometry, p: Process, bitmap: seq<bool>, ram: seq<Page>, l: nat)
    requires ProcOk(g, p, bitmap, ram) && l < |p.pages| && !p.pages[l].present
    ensures forall i :: 0 <= i < |p.slots| ==> p.slots[i].page != l
  {
    forall i | 0 <= i < |p.slots| ensures p.slots[i].page != l { assert SlotOk(p, bitmap, i); }
  }

  // ---- The policy ---------------------------------------------------------------------

  /** Slot v goes before slot i: unused before used, for CLOCK-M then unmodified before modified, then the nearer to the
      hand. */
  predicate GoesBefore(g: Geometry, p: Process, v: nat, i: nat)
    requires p.hand < |p.slots| && v < |p.slots| && i < |p.slots|
  {
    if UsedIn(p, v) != UsedIn(p, i) then !UsedIn(p, v)
    else if g.clockM && ModifiedIn(p, v) != ModifiedIn(p, i) then !ModifiedIn(p, v)
    else Distance(p.hand, v, |p.slots|) <= Distance(p.hand, i, |p.slots|)
  }

  /** Where a translation of page l finds or puts it. */
  ghost predicate ByPolicy(g: Geometry, p: Process, q: Process, l: nat)
    requires p.hand < |p.slots| && l < |p.pages|
  {
    if p.pages[l].present then q == p
    else
      exists v: nat :: v < |p.slots| && q.slots == p.slots[v := p.slots[v].(page := l)]
        && (if Full(p) then
              && (forall i :: 0 <= i < |p.slots| ==> GoesBefore(g, p, v, i))
              && q.hand == if v + 1 == |p.slots| then 0 else v + 1
            else
              p.slots[v].page == -1 && q.hand == p.hand && forall i :: 0 <= i < v ==> p.slots[i].page != -1)
  }

  lemma VictimGoesFirst(g: Geometry, p: Process, i: nat)
    requires Occupied(p) && p.hand < |p.slots| && i < |p.slots|
    ensures var o := Replacement(g.clockM, BitsOf(p), p.hand);
            GoesBefore(g, p, o.victim, i) && o.hand == if o.victim + 1 == |p.slots| then 0 else o.victim + 1
  {
    hide Replacement;
    VictimIsLeastAndNearest(g.clockM, BitsOf(p), p.hand, i);
    forall j | 0 <= j < |p.slots| ensures BitsOf(p)[j] == Bits(UsedIn(p, j), ModifiedIn(p, j)) {}
  }

  /** Faults fill the lowest free slot, and replace by CLOCK or CLOCK-M when there is none. */
  lemma FaultsGoByThePolicy(g: Geometry, p: Process, bitmap: seq<bool>, ram: seq<Page>, l: nat)
    requires ProcOk(g, p, bitmap, ram) && Fits(p, ram) && l < |p.swap|
    ensures ByPolicy(g, p, Translated(g, p, ram, l).p, l)
  {
    hide ProcOk, Replaced, Loaded, Replacement, UsedAs, GoesBefore;
    FullHasNoFree(p.slots);
    if !p.pages[l].present {
      var i := FirstFree(p.slots, 0);
      if i < |p.slots| {
        LoadedPage(p, ram, i, l, l);
      } else {
        FullIsOccupied(g, p, bitmap, ram);
        var o := Replacement(g.clockM, BitsOf(p), p.hand);
        ReplacedPage(p, ram, o, l, l);
        forall j | 0 <= j < |p.slots| ensures GoesBefore(g, p, o.victim, j) { VictimGoesFirst(g, p, j); }
        VictimGoesFirst(g, p, 0);
      }
    }
  }

  // ---- One request --------------------------------------------------------------------

  predicate IsPage(m: Memory, pid: nat, k: nat) { pid in m.procs && k < |m.procs[pid].pages| }

  predicate IsPresent(m: Memory, pid: nat, k: nat) { IsPage(m, pid, k) && m.procs[pid].pages[k].present }

  predicate IsUsed(m: Memory, pid: nat, k: nat) { IsPage(m, pid, k) && m.procs[pid].pages[k].used }

  predicate IsModified(m: Memory, pid: nat, k: nat) { IsPage(m, pid, k) && m.procs[pid].pages[k].modified }

  /** The request is served at page k of the process. */
  predicate Accesses(t: Target, e: Event, pid: nat, k: nat) { (e.Load? || e.Store?) && t == Page(pid, k) }

  function TargetHere(t: Translation): Target { if t.At? then Page(t.pid, t.page) else NoTarget }

  /** The request makes the scan pass the page. */
  ghost predicate PassesBy(g: Geometry, m: Memory, e: Event, pid: nat, k: nat)
    requires Inv(g, m)
  {
    e.Translate? && e.pid == pid && pid in m.procs && ScanPassesPage(g, m.procs[pid], e.page, k)
  }

  lemma KernelRequestsAndBits(g: Geometry, s: System, e: Event, pid: nat, k: nat)
    requires Sound(g, s) && Enabled(g, s, e) && (e.New? || e.Suspend? || e.Resume? || e.Exit?)
    ensures var m' := Apply(g, s, e).m;
            && (IsUsed(m', pid, k) <==> IsUsed(s.m, pid, k) && e != Event.Exit(pid))
            && (IsPresent(m', pid, k) ==> IsPresent(s.m, pid, k) && IsModified(m', pid, k) == IsModified(s.m, pid, k))
  {
    hide Inv, Released, Assign, EntriesOf, PagesOf, SavedPage, Zeros, EmptySlots, Sound;
  }

  lemma AccessesAndBits(g: Geometry, s: System, e: Event, pid: nat, k: nat)
    requires Sound(g, s) && Enabled(g, s, e) && (e.Load? || e.Store?)
    ensures var m' := Apply(g, s, e).m;
            && (IsUsed(m', pid, k) <==> Accesses(TargetHere(s.t), e, pid, k) || IsUsed(s.m, pid, k))
            && (IsPresent(m', pid, k) <==> IsPresent(s.m, pid, k))
            && (IsModified(m', pid, k) <==>
                  (Accesses(TargetHere(s.t), e, pid, k) && e.Store?) || IsModified(s.m, pid, k))
  {
    SoundIsPointed(g, s);
    hide Inv, Overwrite, Sound;
  }

  lemma TranslationsAndBits(g: Geometry, s: System, e: Event, pid: nat, k: nat)
    requires Sound(g, s) && Enabled(g, s, e) && e.Translate?
    ensures var m' := Apply(g, s, e).m;
            && (IsUsed(m', pid, k) <==> IsUsed(s.m, pid, k) && !PassesBy(g, s.m, e, pid, k))
            && (IsPresent(m', pid, k) ==>
                  (IsModified(m', pid, k) <==> IsPresent(s.m, pid, k) && IsModified(s.m, pid, k)))
  {
    hide ProcOk, Translated, ScanPassesPage;
    var p := s.m.procs[e.pid];
    OkFits(g, p, s.m.bitmap, s.m.ram);
    AbsentPagesAreClean(g, s.m, pid, k);
    if k < |p.pages| { TranslatedBits(g, p, s.m.bitmap, s.m.ram, e.page, k); }
    TranslatedBits(g, p, s.m.bitmap, s.m.ram, e.page, e.page);
  }

  lemma AbsentPagesAreClean(g: Geometry, m: Memory, pid: nat, k: nat)
    requires Inv(g, m)
    ensures IsModified(m, pid, k) ==> IsPresent(m, pid, k)
  {
    if IsPage(m, pid, k) { AbsentIsClean(g, m.procs[pid], m.bitmap, m.ram, k); }
  }

  lemma TargetIsHere(g: Geometry, es: seq<Event>)
    requires GeometryOk(g) && Runs(g, es)
    ensures TargetOf(es) == TargetHere(After(g, es).t)
  {
    hide Runs, After, TargetOf;
    TargetIsTheTranslation(g, es);
  }

  /** Any request. */
  lemma BitsAfter(g: Geometry, s: System, e: Event, pid: nat, k: nat)
    requires Sound(g, s) && Enabled(g, s, e)
    ensures var m' := Apply(g, s, e).m;
            && (IsUsed(m', pid, k) <==>
                  || Accesses(TargetHere(s.t), e, pid, k)
                  || (IsUsed(s.m, pid, k) && e != Event.Exit(pid) && !PassesBy(g, s.m, e, pid, k)))
            && (IsPresent(m', pid, k) ==>
                  (IsModified(m', pid, k) <==>
                    || (Accesses(TargetHere(s.t), e, pid, k) && e.Store?)
                    || (IsPresent(s.m, pid, k) && IsModified(s.m, pid, k))))
  {
    hide Inv, Apply, Enabled, IsUsed, IsModified, IsPresent, ScanPassesPage;
    match e
    case Translate(_, _) => TranslationsAndBits(g, s, e, pid, k);
    case Load(_) => AccessesAndBits(g, s, e, pid, k); AbsentPagesAreClean(g, s.m, pid, k);
    case Store(_, _) => AccessesAndBits(g, s, e, pid, k); AbsentPagesAreClean(g, s.m, pid, k);
    case _ => KernelRequestsAndBits(g, s, e, pid, k);
  }

  // ---- Runs ---------------------------------------------------------------------------

  /** The page was read or written, its process has not ended since, and no scan has passed it since. */
  ghost predicate AccessedSince(g: Geometry, es: seq<Event>, pid: nat, k: nat)
    requires GeometryOk(g) && Runs(g, es)
    decreases |es|
  {
    && es != []
    && var before, e := es[..|es| - 1], es[|es| - 1];
       || Accesses(TargetOf(before), e, pid, k)
       || (AccessedSince(g, before, pid, k) && e != Event.Exit(pid) && !PassesBy(g, After(g, before).m, e, pid, k))
  }

  /** The page was written, and has been present since. */
  ghost predicate WrittenSince(g: Geometry, es: seq<Event>, pid: nat, k: nat)
    requires GeometryOk(g) && Runs(g, es)
    decreases |es|
  {
    && es != []
    && var before, e := es[..|es| - 1], es[|es| - 1];
       || (Accesses(TargetOf(before), e, pid, k) && e.Store?)
       || (IsPresent(After(g, before).m, pid, k) && WrittenSince(g, before, pid, k))
  }

  lemma NothingInitially(g: Geometry, pid: nat, k: nat)
    ensures !IsPage(Initial(g).m, pid, k)
  {
  }

  /** Over every run, a page is used exactly when it was accessed since the last scan that passed it. */
  lemma {:induction false} UsedExactly(g: Geometry, es: seq<Event>, pid: nat, k: nat)
    requires GeometryOk(g) && Runs(g, es)
    ensures IsUsed(After(g, es).m, pid, k) <==> AccessedSince(g, es, pid, k)
    decreases |es|
  {
    hide Sound, Apply, Enabled, Initial, PassesBy, Accesses, TargetOf;
    if es == [] {
      NothingInitially(g, pid, k);
    } else {
      var before, e := es[..|es| - 1], es[|es| - 1];
      UsedExactly(g, before, pid, k);
      TargetIsHere(g, before);
      BitsAfter(g, After(g, before), e, pid, k);
    }
  }

  /** A page that is present is modified exactly when it was written since it came in. */
  lemma {:induction false} ModifiedExactly(g: Geometry, es: seq<Event>, pid: nat, k: nat)
    requires GeometryOk(g) && Runs(g, es) && IsPresent(After(g, es).m, pid, k)
    ensures IsModified(After(g, es).m, pid, k) <==> WrittenSince(g, es, pid, k)
    decreases |es|
  {
    hide Sound, Apply, Enabled, Initial, PassesBy, Accesses, TargetOf, IsPresent, IsModified;
    if es == [] {
      NotPresent(g, pid, k);
    } else {
      var before, e := es[..|es| - 1], es[|es| - 1];
      if IsPresent(After(g, before).m, pid, k) { ModifiedExactly(g, before, pid, k); }
      TargetIsHere(g, before);
      BitsAfter(g, After(g, before), e, pid, k);
    }
  }

  lemma NotPresent(g: Geometry, pid: nat, k: nat)
    ensures !IsPresent(Initial(g).m, pid, k)
  {
  }

  /** A read or a write leaves the page it is served at used, and a write modified. */
  lemma AccessesMark(g: Geometry, es: seq<Event>, pid: nat, k: nat)
    requires GeometryOk(g) && Runs(g, es) && es != []
    requires TargetOf(es[..|es| - 1]) == Page(pid, k) && (es[|es| - 1].Load? || es[|es| - 1].Store?)
    ensures IsUsed(After(g, es).m, pid, k) && (es[|es| - 1].Store? ==> IsModified(After(g, es).m, pid, k))
  {
    hide Sound, Apply, Enabled, Initial, PassesBy, TargetOf;
    var before, e := es[..|es| - 1], es[|es| - 1];
    TargetIsHere(g, before);
    var s := After(g, before);
    AccessesAndBits(g, s, e, pid, k);
  }

  /** Over every run, a fault fills the lowest free slot of its process, and without one evicts the page that goes first
      by CLOCK or CLOCK-M on those bits. */
  lemma EvictionsGoByThePolicy(g: Geometry, es: seq<Event>)
    requires GeometryOk(g) && Runs(g, es) && es != [] && es[|es| - 1].Translate?
    ensures var pid, l := es[|es| - 1].pid, es[|es| - 1].page;
            var m, m' := After(g, es[..|es| - 1]).m, After(g, es).m;
            && pid in m.procs && pid in m'.procs
            && m.procs[pid].hand < |m.procs[pid].slots| && l < |m.procs[pid].pages|
            && ByPolicy(g, m.procs[pid], m'.procs[pid], l)
  {
    hide ByPolicy, Translated, ProcOk;
    var s, e := After(g, es[..|es| - 1]), es[|es| - 1];
    var p := s.m.procs[e.pid];
    OkFits(g, p, s.m.bitmap, s.m.ram);
    FaultsGoByThePolicy(g, p, s.m.bitmap, s.m.ram, e.page);
  }

  /** Nothing else moves the hand. */
  lemma OnlyFaultsMoveTheHand(g: Geometry, s: System, e: Event, pid: nat)
    requires Sound(g, s) && Enabled(g, s, e) && pid in s.m.procs && pid in Apply(g, s, e).m.procs
    requires e.Translate? ==> e.pid != pid
    ensures Apply(g, s, e).m.procs[pid].hand == s.m.procs[pid].hand
  {
    hide Inv, Released, Assign, EntriesOf, PagesOf, SavedPage, Zeros, EmptySlots, Sound, Translated, Overwrite;
  }

  // ---- Sizes --------------------------------------------------------------------------

  /** The size a process was created with. */
  function SizeOf(es: seq<Event>, pid: nat): nat {
    if es == [] then 0
    else if es[|es| - 1].New? && es[|es| - 1].pid == pid then es[|es| - 1].size
    else SizeOf(es[..|es| - 1], pid)
  }

  lemma PagesAreWhole(g: Geometry, size: nat)
    requires GeometryOk(g)
    ensures PagesOf(g, size) * g.pageSize <= size < (PagesOf(g, size) + 1) * g.pageSize
  {
    assert size == PagesOf(g, size) * g.pageSize + size % g.pageSize;
  }

  lemma LengthsAfter(g: Geometry, s: System, e: Event, pid: nat)
    requires Sound(g, s) && Enabled(g, s, e) && Sound(g, Apply(g, s, e)) && GeometryOk(g)
    requires pid in FlatOf(g, Apply(g, s, e).m)
    ensures var n := |FlatOf(g, Apply(g, s, e).m)[pid]|;
            if e.New? && e.pid == pid then n == PagesOf(g, e.size)
            else pid in FlatOf(g, s.m) && n == |FlatOf(g, s.m)[pid]|
  {
    hide Inv, Apply, Enabled, FlatOf, PagesOf, Overwrite;
    Refines(g, s, e);
    EnabledNew(g, s, e);
  }

  /** The memory of a process is as many whole pages as fit the size it was created with, throughout its life. */
  lemma {:induction false} ProcessesHaveTheirSize(g: Geometry, es: seq<Event>, pid: nat)
    requires GeometryOk(g) && Runs(g, es) && pid in FlatOf(g, After(g, es).m)
    ensures var n := |FlatOf(g, After(g, es).m)[pid]|;
            n * g.pageSize <= SizeOf(es, pid) < (n + 1) * g.pageSize
    decreases |es|
  {
    hide Inv, Apply, Enabled, FlatOf, Initial, PagesOf;
    if es == [] {
      NobodyInitially(g);
      FlatDomain(g, Initial(g).m);
    } else {
      var before, e := es[..|es| - 1], es[|es| - 1];
      LengthsAfter(g, After(g, before), e, pid);
      if e.New? && e.pid == pid { PagesAreWhole(g, e.size); } else { ProcessesHaveTheirSize(g, before, pid); }
    }
  }
}
