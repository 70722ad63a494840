/** The page replacement policies of memory/src/page_table.c:211-318, specified on the (used, modified) bits of a
    process's frames. The loops that carry them out are in MemoryServer. */
module Clock {
  datatype Bits = Bits(used: bool, modified: bool)

  /** memory/src/utils.c:111-118. The hand wraps at the frames of the process; the source wraps at the frames of the
      whole memory, see AsWritten.HandStaysInside. */
  function Advance(hand: nat, n: nat): nat { if hand + 1 >= n then 0 else hand + 1 }

  /** The frame at cyclic distance d from the hand. */
  function Spot(hand: nat, d: nat, n: nat): nat { if hand + d < n then hand + d else hand + d - n }

  /** CLOCK-M orders frames by (used, modified), CLOCK by used alone. */
  function Rank(clockM: bool, b: Bits): nat {
    if clockM then (if b.used then 2 else 0) + (if b.modified then 1 else 0)
    else if b.used then 2 else 0
  }

  function RankAt(clockM: bool, bits: seq<Bits>, hand: nat, d: nat): nat
    requires hand < |bits| && d < |bits|
  {
    Rank(clockM, bits[Spot(hand, d, |bits|)])
  }

  /** The first distance, from d on, of least rank. */
  function Least(clockM: bool, bits: seq<Bits>, hand: nat, d: nat): (e: nat)
    requires hand < |bits| && d < |bits|
    ensures d <= e < |bits|
    decreases |bits| - d
  {
    if d == |bits| - 1 then d
    else
      var e := Least(clockM, bits, hand, d + 1);
      if RankAt(clockM, bits, hand, d) <= RankAt(clockM, bits, hand, e) then d else e
  }

  lemma {:induction false} LeastIsLeast(clockM: bool, bits: seq<Bits>, hand: nat, d: nat)
    requires hand < |bits| && d < |bits|
    ensures var e := Least(clockM, bits, hand, d);
            forall k :: d <= k < |bits| ==>
              && RankAt(clockM, bits, hand, e) <= RankAt(clockM, bits, hand, k)
              && (k < e ==> RankAt(clockM, bits, hand, e) < RankAt(clockM, bits, hand, k))
    decreases |bits| - d
  {
    if d < |bits| - 1 {
      LeastIsLeast(clockM, bits, hand, d + 1);
    }
  }

  /** There is only one such distance. */
  lemma LeastIsUnique(clockM: bool, bits: seq<Bits>, hand: nat, e: nat)
    requires hand < |bits| && e < |bits|
    requires forall k :: 0 <= k < |bits| ==>
               && RankAt(clockM, bits, hand, e) <= RankAt(clockM, bits, hand, k)
               && (k < e ==> RankAt(clockM, bits, hand, e) < RankAt(clockM, bits, hand, k))
    ensures e == Least(clockM, bits, hand, 0)
  {
    LeastIsLeast(clockM, bits, hand, 0);
    var l := Least(clockM, bits, hand, 0);
    assert RankAt(clockM, bits, hand, l) <= RankAt(clockM, bits, hand, e) <= RankAt(clockM, bits, hand, l);
  }

  /** The used bits of the first d frames from the hand are cleared. */
  function Cleared(bits: seq<Bits>, hand: nat, d: nat): (r: seq<Bits>)
    requires hand < |bits| && d <= |bits|
    ensures |r| == |bits|
  {
    if d == 0 then bits
    else
      var r, i := Cleared(bits, hand, d - 1), Spot(hand, d - 1, |bits|);
      r[i := r[i].(used := false)]
  }

  predicate Within(hand: nat, d: nat, n: nat, i: nat) { hand <= i < hand + d || i + n < hand + d }

  lemma {:induction false} ClearedAt(bits: seq<Bits>, hand: nat, d: nat, i: nat)
    requires hand < |bits| && d <= |bits| && i < |bits|
    ensures Cleared(bits, hand, d)[i] == if Within(hand, d, |bits|, i) then bits[i].(used := false) else bits[i]
  {
    if d > 0 { ClearedAt(bits, hand, d - 1, i); }
  }

  lemma ClearedAtDistance(bits: seq<Bits>, hand: nat, d: nat, e: nat)
    requires hand < |bits| && d <= |bits| && e < |bits|
    ensures var i := Spot(hand, e, |bits|);
            Cleared(bits, hand, d)[i] == if e < d then bits[i].(used := false) else bits[i]
  {
    ClearedAt(bits, hand, d, Spot(hand, e, |bits|));
  }

  // ---- The policies -------------------------------------------------------------------

  /** The frame to replace, the bits and the hand afterwards. */
  datatype Outcome = Outcome(victim: nat, bits: seq<Bits>, hand: nat)

  /** How many frames lose their used bit before the victim is found: none when CLOCK-M finds an unused, unmodified
      frame; those before the victim when it is unused; all of them otherwise. */
  function Passed(clockM: bool, bits: seq<Bits>, hand: nat): (d: nat)
    requires hand < |bits|
    ensures d <= |bits|
  {
    var e := Least(clockM, bits, hand, 0);
    var r := RankAt(clockM, bits, hand, e);
    if r >= 2 then |bits| else if clockM && r == 0 then 0 else e
  }

  function Replacement(clockM: bool, bits: seq<Bits>, hand: nat): (o: Outcome)
    requires hand < |bits|
    ensures o.victim < |bits| && |o.bits| == |bits| && o.hand < |bits|
  {
    var victim := Spot(hand, Least(clockM, bits, hand, 0), |bits|);
    Outcome(victim, Cleared(bits, hand, Passed(clockM, bits, hand)), Advance(victim, |bits|))
  }

  /** One call of two_clock_turns finds a victim unless it is CLOCK-M's and every frame is used. */
  predicate Finds(clockM: bool, bits: seq<Bits>, hand: nat)
    requires hand < |bits|
  {
    !clockM || RankAt(clockM, bits, hand, Least(clockM, bits, hand, 0)) < 2
  }

  /** How many frames one call looks at. */
  function Probes(clockM: bool, bits: seq<Bits>, hand: nat): nat
    requires hand < |bits|
  {
    var e := Least(clockM, bits, hand, 0);
    var r := RankAt(clockM, bits, hand, e);
    if r == 0 then e + 1 else if !clockM || r == 1 then |bits| + e + 1 else 2 * |bits|
  }

  /** The second call of CLOCK-M: the first has cleared every used bit, so it finds the victim that was least before,
      at the same distance, and clears nothing more. */
  lemma SecondCallFinds(bits: seq<Bits>, hand: nat)
    requires hand < |bits| && !Finds(true, bits, hand)
    ensures var bits' := Cleared(bits, hand, |bits|);
            && Finds(true, bits', hand)
            && Least(true, bits', hand, 0) == Least(true, bits, hand, 0)
            && Cleared(bits', hand, Passed(true, bits', hand)) == bits'
            && Probes(true, bits, hand) + Probes(true, bits', hand) <= 3 * |bits| + 1
  {
    var n, e := |bits|, Least(true, bits, hand, 0);
    var bits' := Cleared(bits, hand, n);
    LeastIsLeast(true, bits, hand, 0);
    forall k | 0 <= k < n ensures RankAt(true, bits', hand, k) + 2 == RankAt(true, bits, hand, k) {
      ClearedAtDistance(bits, hand, n, k);
      assert RankAt(true, bits, hand, k) >= 2;
    }
    LeastIsUnique(true, bits', hand, e);
    LeastIsLeast(true, bits', hand, 0);
    assert e > 0 ==> RankAt(true, bits', hand, e) < RankAt(true, bits', hand, 0);
    ClearsNothingNew(bits, hand, Passed(true, bits', hand));
  }

  lemma ClearsNothingNew(bits: seq<Bits>, hand: nat, d: nat)
    requires hand < |bits| && d <= |bits|
    ensures var all := Cleared(bits, hand, |bits|); Cleared(all, hand, d) == all
  {
    var all := Cleared(bits, hand, |bits|);
    forall i | 0 <= i < |bits| ensures Cleared(all, hand, d)[i] == all[i] {
      ClearedAt(bits, hand, |bits|, i);
      ClearedAt(all, hand, d, i);
    }
  }

  /** CLOCK looks at no more than one frame twice, and always finds a victim. */
  lemma ClockProbes(bits: seq<Bits>, hand: nat)
    requires hand < |bits|
    ensures Finds(false, bits, hand) && Probes(false, bits, hand) <= |bits| + 1
  {
    LeastIsLeast(false, bits, hand, 0);
    var e := Least(false, bits, hand, 0);
    assert e > 0 ==> RankAt(false, bits, hand, e) < RankAt(false, bits, hand, 0);
  }

  /** CLOCK takes the first unused frame from the hand, and the frame at the hand itself when all are used. */
  lemma ClockTakesTheFirstUnused(bits: seq<Bits>, hand: nat)
    requires hand < |bits|
    ensures var o, e := Replacement(false, bits, hand), Least(false, bits, hand, 0);
            && o.victim == Spot(hand, e, |bits|)
            && (forall k :: 0 <= k < e ==> bits[Spot(hand, k, |bits|)].used)
            && (bits[o.victim].used ==> o.victim == hand && forall i :: 0 <= i < |bits| ==> bits[i].used)
  {
    LeastIsLeast(false, bits, hand, 0);
    var e := Least(false, bits, hand, 0);
    forall k | 0 <= k < e ensures bits[Spot(hand, k, |bits|)].used {
      assert RankAt(false, bits, hand, e) < RankAt(false, bits, hand, k);
    }
    forall i | 0 <= i < |bits| ensures bits[Spot(hand, Least(false, bits, hand, 0), |bits|)].used ==> bits[i].used {
      var d := if i >= hand then i - hand else i + |bits| - hand;
      assert Spot(hand, d, |bits|) == i;
      assert RankAt(false, bits, hand, Least(false, bits, hand, 0)) <= RankAt(false, bits, hand, d);
    }
  }

  /** CLOCK-M evicts the frame least in the lexicographic order of (used, modified). */
  lemma ClockMTakesTheLeast(bits: seq<Bits>, hand: nat, i: nat)
    requires hand < |bits| && i < |bits|
    ensures var v := Replacement(true, bits, hand).victim;
            && (bits[v].used ==> bits[i].used)
            && (bits[v].used == bits[i].used && bits[v].modified ==> bits[i].modified)
  {
    LeastIsLeast(true, bits, hand, 0);
    var d := if i >= hand then i - hand else i + |bits| - hand;
    assert Spot(hand, d, |bits|) == i;
    assert RankAt(true, bits, hand, Least(true, bits, hand, 0)) <= RankAt(true, bits, hand, d);
  }

  /** How far a frame is from the hand. */
  function Distance(hand: nat, i: nat, n: nat): nat
    requires hand < n && i < n
  {
    if i >= hand then i - hand else i + n - hand
  }

  /** The scan passes the frames from the hand on as long as they are used, except that CLOCK-M's first turn takes an
      unused, unmodified frame without a trace. */
  ghost predicate Clears(clockM: bool, bits: seq<Bits>, hand: nat, i: nat)
    requires hand < |bits| && i < |bits|
  {
    && (forall j :: 0 <= j < |bits| && Distance(hand, j, |bits|) <= Distance(hand, i, |bits|) ==> bits[j].used)
    && !(clockM && exists j :: 0 <= j < |bits| && !bits[j].used && !bits[j].modified)
  }

  lemma SpotAtDistance(hand: nat, i: nat, n: nat)
    requires hand < n && i < n
    ensures Distance(hand, i, n) < n && Spot(hand, Distance(hand, i, n), n) == i
  {
  }

  lemma DistanceOfSpot(hand: nat, d: nat, n: nat)
    requires hand < n && d < n
    ensures Spot(hand, d, n) < n && Distance(hand, Spot(hand, d, n), n) == d
  {
  }

  /** What the scan clears lies before the victim, or everything is used. */
  lemma ClearsWhatItPasses(clockM: bool, bits: seq<Bits>, hand: nat, i: nat)
    requires hand < |bits| && i < |bits| && bits[i].used
    ensures Clears(clockM, bits, hand, i) <==> Distance(hand, i, |bits|) < Passed(clockM, bits, hand)
  {
    var n, e, d := |bits|, Least(clockM, bits, hand, 0), Distance(hand, i, |bits|);
    LeastIsLeast(clockM, bits, hand, 0);
    SpotAtDistance(hand, i, n);
    DistanceOfSpot(hand, e, n);
    var r := RankAt(clockM, bits, hand, e);
    forall j | 0 <= j < n ensures Rank(clockM, bits[j]) >= r
        && (Distance(hand, j, n) < e ==> Rank(clockM, bits[j]) > r) {
      SpotAtDistance(hand, j, n);
      assert RankAt(clockM, bits, hand, Distance(hand, j, n)) == Rank(clockM, bits[j]);
    }
    hide Least, RankAt;
    if r < 2 {
      assert !bits[Spot(hand, e, n)].used by { RankOfSpot(clockM, bits, hand, e); }
      if clockM && r == 0 { assert !bits[Spot(hand, e, n)].modified by { RankOfSpot(clockM, bits, hand, e); } }
    }
  }

  lemma RankOfSpot(clockM: bool, bits: seq<Bits>, hand: nat, e: nat)
    requires hand < |bits| && e < |bits|
    ensures RankAt(clockM, bits, hand, e) < 2 ==> !bits[Spot(hand, e, |bits|)].used
    ensures clockM && RankAt(clockM, bits, hand, e) == 0 ==> !bits[Spot(hand, e, |bits|)].modified
  {
  }

  /** A replacement clears the used bits the scan passes and no other bit. */
  lemma ReplacementClearsExactly(clockM: bool, bits: seq<Bits>, hand: nat, i: nat)
    requires hand < |bits| && i < |bits|
    ensures var b := Replacement(clockM, bits, hand).bits;
            && b[i].modified == bits[i].modified
            && (b[i].used <==> bits[i].used && !Clears(clockM, bits, hand, i))
  {
    hide Clears, Least, Passed, Cleared;
    ClearedAtDistance(bits, hand, Passed(clockM, bits, hand), Distance(hand, i, |bits|));
    SpotAtDistance(hand, i, |bits|);
    if bits[i].used { ClearsWhatItPasses(clockM, bits, hand, i); }
  }

  /** The victim is least in the order of the policy, and the nearest to the hand among those; the hand comes to stand
      behind it. */
  lemma VictimIsLeastAndNearest(clockM: bool, bits: seq<Bits>, hand: nat, i: nat)
    requires hand < |bits| && i < |bits|
    ensures var o, n := Replacement(clockM, bits, hand), |bits|;
            var b, v := bits[i], bits[o.victim];
            && o.hand == (if o.victim + 1 == n then 0 else o.victim + 1)
            && (v.used ==> b.used) && (clockM && v.used == b.used && v.modified ==> b.modified)
            && (v.used == b.used && (clockM ==> v.modified == b.modified) ==>
                  Distance(hand, o.victim, n) <= Distance(hand, i, n))
  {
    var e, d := Least(clockM, bits, hand, 0), Distance(hand, i, |bits|);
    LeastIsLeast(clockM, bits, hand, 0);
    assert Spot(hand, d, |bits|) == i && Distance(hand, Spot(hand, e, |bits|), |bits|) == e;
    assert RankAt(clockM, bits, hand, e) <= RankAt(clockM, bits, hand, d);
  }

  // ---- The two turns, step by step ----------------------------------------------------

  /** How many frames have lost their used bit when turn j looks at distance k; after the turns, j is 2. */
  function PassedSoFar(clockM: bool, j: nat, k: nat, n: nat): (d: nat)
    ensures k <= n ==> d <= n
  {
    if j == 0 then (if clockM then 0 else k) else if j == 1 && clockM then k else n
  }

  /** What is known about the frames when turn j comes to distance k. */
  ghost predicate Seen(clockM: bool, bits: seq<Bits>, hand: nat, j: nat, k: nat)
    requires hand < |bits| && k <= |bits|
  {
    && (forall d :: 0 <= d < (if j == 0 then k else |bits|) ==> RankAt(clockM, bits, hand, d) > 0)
    && (clockM && j >= 1 ==> forall d :: 0 <= d < (if j == 1 then k else |bits|) ==> RankAt(clockM, bits, hand, d) >= 2)
    && (!clockM && j >= 1 ==> j == 1 && k == 0)
  }

  /** Where a turn stops is where the specification says. */
  lemma FoundThere(clockM: bool, bits: seq<Bits>, hand: nat, j: nat, k: nat)
    requires hand < |bits| && k < |bits| && j < 2 && Seen(clockM, bits, hand, j, k)
    requires j == 0 ==> RankAt(clockM, bits, hand, k) == 0
    requires j == 1 && clockM ==> RankAt(clockM, bits, hand, k) < 2
    ensures Finds(clockM, bits, hand) && Least(clockM, bits, hand, 0) == k
    ensures Passed(clockM, bits, hand) == PassedSoFar(clockM, j, k, |bits|)
    ensures Probes(clockM, bits, hand) == j * |bits| + k + 1
  {
    assert j == 1 && !clockM ==> forall d :: 0 <= d < |bits| ==> RankAt(clockM, bits, hand, d) == 2;
    LeastIsUnique(clockM, bits, hand, k);
  }

  lemma FoundNowhere(bits: seq<Bits>, hand: nat)
    requires hand < |bits| && Seen(true, bits, hand, 2, 0)
    ensures !Finds(true, bits, hand) && Probes(true, bits, hand) == 2 * |bits|
  {
    LeastIsLeast(true, bits, hand, 0);
  }

  /** The bits a turn looks at: still the original ones, but for CLOCK's second turn. */
  lemma LooksAt(clockM: bool, bits: seq<Bits>, hand: nat, j: nat, k: nat)
    requires hand < |bits| && k < |bits| && j < 2
    ensures Spot(hand, k, |bits|) < |bits|
    ensures Cleared(bits, hand, PassedSoFar(clockM, j, k, |bits|))[Spot(hand, k, |bits|)]
         == if j == 1 && !clockM then bits[Spot(hand, k, |bits|)].(used := false) else bits[Spot(hand, k, |bits|)]
    ensures Advance(Spot(hand, k, |bits|), |bits|) == Spot(hand, k + 1, |bits|)
  {
    ClearedAtDistance(bits, hand, PassedSoFar(clockM, j, k, |bits|), k);
  }

  lemma ClearedNext(bits: seq<Bits>, hand: nat, k: nat)
    requires hand < |bits| && k < |bits|
    ensures var c, i := Cleared(bits, hand, k), Spot(hand, k, |bits|);
            Cleared(bits, hand, k + 1) == c[i := c[i].(used := false)]
  {
  }

  /** Passing a frame by. */
  lemma NextBits(clockM: bool, bits: seq<Bits>, hand: nat, j: nat, k: nat)
    requires hand < |bits| && k < |bits| && j < 2 && (j == 1 ==> clockM)
    ensures var c, i := Cleared(bits, hand, PassedSoFar(clockM, j, k, |bits|)), Spot(hand, k, |bits|);
            Cleared(bits, hand, PassedSoFar(clockM, j, k + 1, |bits|))
              == if clockM <==> j == 1 then c[i := c[i].(used := false)] else c
  {
    hide Cleared;
    ClearedNext(bits, hand, k);
  }
}
