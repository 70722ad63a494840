/** Frames of the memory: allocation takes the lowest free ones, release gives back what was taken, and no frame is
    lost or owned twice. */
module PagingFrames {
  import opened Processes
  import opened Paging
  import opened PagingProcess

  lemma {:induction false} FreeCountUpdate(bitmap: seq<bool>, i: nat, b: bool)
    requires i < |bitmap|
    ensures FreeCount(bitmap[i := b]) == FreeCount(bitmap) + (if bitmap[i] then 1 else 0) - (if b then 1 else 0)
  {
    if i == 0 {
      assert bitmap[i := b][1..] == bitmap[1..];
    } else {
      assert bitmap[i := b][1..] == bitmap[1..][i - 1 := b];
      FreeCountUpdate(bitmap[1..], i - 1, b);
    }
  }

  lemma {:induction false} NoneFree(bitmap: seq<bool>)
    ensures (forall f :: 0 <= f < |bitmap| ==> bitmap[f]) <==> FreeCount(bitmap) == 0
  {
    if bitmap != [] {
      NoneFree(bitmap[1..]);
      if forall f :: 0 <= f < |bitmap| ==> bitmap[f] {
        forall f | 0 <= f < |bitmap[1..]| ensures bitmap[1..][f] { assert bitmap[1..][f] == bitmap[f + 1]; }
      }
      if FreeCount(bitmap) == 0 {
        forall f | 0 <= f < |bitmap| ensures bitmap[f] { if f > 0 { assert bitmap[f] == bitmap[1..][f - 1]; } }
      }
    }
  }

  /** The frames granted were free, are different, and are exactly what the bitmap gains. */
  lemma {:induction false} AssignGrants(bitmap: seq<bool>, n: nat)
    ensures var r := Assign(bitmap, n);
            && |r.frames| == (if n <= FreeCount(bitmap) then n else FreeCount(bitmap))
            && FreeCount(r.bitmap) == FreeCount(bitmap) - |r.frames|
            && DistinctFrames(r.frames)
            && (forall f :: f in r.frames ==> !bitmap[f])
            && (forall f :: 0 <= f < |bitmap| ==> (r.bitmap[f] <==> bitmap[f] || f in r.frames))
    decreases n
  {
    var i := LowestFree(bitmap, 0);
    NoneFree(bitmap);
    if n > 0 && i < |bitmap| {
      FreeCountUpdate(bitmap, i, true);
      AssignGrants(bitmap[i := true], n - 1);
      var r := Assign(bitmap[i := true], n - 1);
      assert forall f :: f in r.frames ==> f != i && !bitmap[f];
    }
  }

  /** Every allocation takes the lowest free index: below a granted frame everything was taken, or was granted just
      before. */
  lemma {:induction false} AssignTakesTheLowest(bitmap: seq<bool>, n: nat, j: nat, f: nat)
    requires j < |Assign(bitmap, n).frames| && f < Assign(bitmap, n).frames[j] && f < |bitmap|
    ensures bitmap[f] || f in Assign(bitmap, n).frames[..j]
    decreases n
  {
    var i := LowestFree(bitmap, 0);
    if j > 0 {
      var r := Assign(bitmap[i := true], n - 1);
      AssignTakesTheLowest(bitmap[i := true], n - 1, j - 1, f);
      assert Assign(bitmap, n).frames == [i] + r.frames;
      assert Assign(bitmap, n).frames[..j] == [i] + r.frames[..j - 1];
    }
  }

  predicate DistinctSlots(slots: seq<Slot>) {
    forall i, j :: 0 <= i < j < |slots| ==> slots[i].frame != slots[j].frame
  }

  /** Release clears the bits of the slots' frames, and of no other frame. */
  lemma {:induction false} ReleaseClears(bitmap: seq<bool>, slots: seq<Slot>)
    requires DistinctSlots(slots) && forall i :: 0 <= i < |slots| ==>
        0 <= slots[i].frame < |bitmap| && bitmap[slots[i].frame]
    ensures var r := Released(bitmap, slots);
            && FreeCount(r) == FreeCount(bitmap) + |slots|
            && forall f :: 0 <= f < |bitmap| ==>
                (r[f] <==> bitmap[f] && forall i :: 0 <= i < |slots| ==> slots[i].frame != f)
  {
    if slots != [] {
      forall i, j | 0 <= i < j < |slots[1..]| ensures slots[1..][i].frame != slots[1..][j].frame {
        assert slots[i + 1].frame != slots[j + 1].frame;
      }
      ReleaseClears(bitmap, slots[1..]);
      var r := Released(bitmap, slots[1..]);
      forall i | 0 <= i < |slots[1..]| ensures slots[1..][i].frame != slots[0].frame {
        assert slots[0].frame != slots[i + 1].frame;
      }
      FreeCountUpdate(r, slots[0].frame, false);
      forall f | 0 <= f < |bitmap|
        ensures Released(bitmap, slots)[f] <==> bitmap[f] && forall i :: 0 <= i < |slots| ==> slots[i].frame != f
      {
        if forall i :: 0 <= i < |slots| ==> slots[i].frame != f {
          forall i | 0 <= i < |slots[1..]| ensures slots[1..][i].frame != f { assert slots[i + 1].frame != f; }
        }
        if r[f] && slots[0].frame != f {
          forall i | 0 <= i < |slots| ensures slots[i].frame != f { if i > 0 { assert slots[1..][i - 1].frame != f; } }
        }
      }
    }
  }

  /** What a process gets and gives back. */
  lemma ReleaseUndoesAssign(bitmap: seq<bool>, n: nat)
    ensures var r := Assign(bitmap, n); Released(r.bitmap, EmptySlots(r.frames)) == bitmap
  {
    AssignGrants(bitmap, n);
    var r := Assign(bitmap, n);
    var slots := EmptySlots(r.frames);
    forall i | 0 <= i < |slots| ensures 0 <= slots[i].frame < |r.bitmap| && r.bitmap[slots[i].frame] {
      assert r.frames[i] in r.frames;
    }
    ReleaseClears(r.bitmap, slots);
    forall f | 0 <= f < |bitmap| ensures Released(r.bitmap, slots)[f] == bitmap[f] {
      if f in r.frames {
        var i :| 0 <= i < |r.frames| && r.frames[i] == f;
        assert slots[i].frame == f;
      }
      forall i | 0 <= i < |slots| ensures slots[i].frame == f ==> f in r.frames { }
    }
  }

  /** One round of the allocation loop. */
  lemma AssignOnce(bitmap: seq<bool>, n: nat)
    requires n > 0
    ensures var i := LowestFree(bitmap, 0);
            if i < |bitmap| then
              var r := Assign(bitmap[i := true], n - 1); Assign(bitmap, n) == Grant([i] + r.frames, r.bitmap)
            else Assign(bitmap, n) == Assign(bitmap, n - 1)
  {
  }

  lemma NoFrames(bitmap: seq<bool>)
    ensures Assign(bitmap, 0) == Grant([], bitmap)
  {
  }
}
