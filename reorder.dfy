/**
  The min-first reordering strategy: a `scan` over a double-ended iterator
  keeps the current front and back values, emits the smaller one (the front
  on a tie) and advances only that end, and stops as soon as either end is
  exhausted. The emitted sequence is folded once with the running-maximum
  stair fold.

  This is the two-pointer sweep in another form: the scan state
  (Some(t[l]), Some(t[r])) with the iterator holding t[l+1..r] is the sweep
  state (l, r), and the fold's step is the sweep's pool height. For n >= 1
  the scan emits n - 1 values; the value left in its state is a maximum of
  the terrain and is never folded.
 */
module Reorder {
  import opened Terrain
  import opened Sweep
  import opened StairFold

  datatype Option = None | Some(value: int)

  /** A double-ended iterator over a terrain: t[lo..hi] is not yet taken. */
  datatype Iter = Iter(lo: nat, hi: nat)

  predicate ValidIter(t: seq<int>, it: Iter) {
    it.lo <= it.hi <= |t|
  }

  /** `Iterator::next`. */
  function Next(t: seq<int>, it: Iter): (Option, Iter)
    requires ValidIter(t, it)
  {
    if it.lo < it.hi then (Some(t[it.lo]), Iter(it.lo + 1, it.hi)) else (None, it)
  }

  /** `DoubleEndedIterator::next_back`. */
  function NextBack(t: seq<int>, it: Iter): (Option, Iter)
    requires ValidIter(t, it)
  {
    if it.lo < it.hi then (Some(t[it.hi - 1]), Iter(it.lo, it.hi - 1)) else (None, it)
  }

  function Held(front: Option, back: Option): nat {
    (if front.Some? then 1 else 0) + (if back.Some? then 1 else 0)
  }

  /** The values the `scan` closure emits from `state` with `hiter` at `it`. */
  function Scan(t: seq<int>, front: Option, back: Option, it: Iter): seq<int>
    requires ValidIter(t, it)
    decreases it.hi - it.lo, Held(front, back)
  {
    if front.None? || back.None? then []
    else if front.value <= back.value then
      var next := Next(t, it);
      [front.value] + Scan(t, next.0, back, next.1)
    else
      var nextBack := NextBack(t, it);
      [back.value] + Scan(t, front, nextBack.0, nextBack.1)
  }

  /** The initial scan state `(hiter.next(), hiter.next_back())`. */
  function Start(t: seq<int>): ((Option, Option), Iter) {
    var (front, it1) := Next(t, Iter(0, |t|));
    var (back, it2) := NextBack(t, it1);
    ((front, back), it2)
  }

  /** The reordered terrain the scan emits. */
  function Reordered(t: seq<int>): seq<int> {
    var (state, hiter) := Start(t);
    assert ValidIter(t, hiter);
    Scan(t, state.0, state.1, hiter)
  }

  /** Rust `compute_rain_collected`: fold the reordered terrain from the
      left, the step starting at i64::MIN. */
  function ComputeRainCollected(height: seq<int>): nat {
    Fold(Reordered(height), Stair(I64Min, 0)).water
  }

  /** The scan in sweep state (l, r). */
  function ScanFrom(t: seq<int>, l: nat, r: nat): seq<int>
    requires l < r < |t|
  {
    Scan(t, Some(t[l]), Some(t[r]), Iter(l + 1, r))
  }

  /** One step of the scan when the front is not above the back: the front
      is emitted and moves inwards; once it meets the back the iterator is
      empty, `next()` gives None and the scan stops. */
  lemma ScanStepLeft(t: seq<int>, l: nat, r: nat)
    requires l < r < |t| && t[l] <= t[r]
    ensures l + 1 < r ==> ScanFrom(t, l, r) == [t[l]] + ScanFrom(t, l + 1, r)
    ensures l + 1 == r ==> ScanFrom(t, l, r) == [t[l]]
  {
    var next := Next(t, Iter(l + 1, r));
    assert ScanFrom(t, l, r) == [t[l]] + Scan(t, next.0, Some(t[r]), next.1);
  }

  /** One step of the scan when the back is below the front. */
  lemma ScanStepRight(t: seq<int>, l: nat, r: nat)
    requires l < r < |t| && t[r] < t[l]
    ensures l + 1 < r ==> ScanFrom(t, l, r) == [t[r]] + ScanFrom(t, l, r - 1)
    ensures l + 1 == r ==> ScanFrom(t, l, r) == [t[r]]
  {
    var nextBack := NextBack(t, Iter(l + 1, r));
    assert ScanFrom(t, l, r) == [t[r]] + Scan(t, Some(t[l]), nextBack.0, nextBack.1);
  }

  /** From sweep state (l, r), folding what the scan emits adds exactly the
      water of the spots t[l..r+1]. */
  lemma {:induction false} ScanFoldWater(t: seq<int>, l: nat, r: nat, w: nat)
    requires SweepInv(t, l, r) && l < r
    ensures Fold(ScanFrom(t, l, r), Stair(Consumed(t, l, r), w)).water
            + PrefixWater(t, l) + SuffixWater(t, r + 1) == w + Water(t)
    decreases r - l, 1
  {
    if t[l] <= t[r] {
      ScanFoldWaterLeft(t, l, r, w);
    } else {
      ScanFoldWaterRight(t, l, r, w);
    }
  }

  lemma {:induction false} ScanFoldWaterLeft(t: seq<int>, l: nat, r: nat, w: nat)
    requires SweepInv(t, l, r) && l < r && t[l] <= t[r]
    ensures Fold(ScanFrom(t, l, r), Stair(Consumed(t, l, r), w)).water
            + PrefixWater(t, l) + SuffixWater(t, r + 1) == w + Water(t)
    decreases r - l, 0
  {
    var acc := Stair(Consumed(t, l, r), w);
    var acc' := Stair(Consumed(t, l + 1, r), w + Spot(t, l));
    ScanStepLeft(t, l, r);
    ClimbLeft(t, l, r, w);
    if l + 1 < r {
      var rest := ScanFrom(t, l + 1, r);
      FoldCons(t[l], rest, acc);
      assert Fold(ScanFrom(t, l, r), acc) == Fold(rest, acc');
      ScanFoldWater(t, l + 1, r, w + Spot(t, l));
      ChargeSpot(Fold(rest, acc').water, PrefixWater(t, l), SuffixWater(t, r + 1),
                 PrefixWater(t, l + 1), SuffixWater(t, r + 1), Spot(t, l), w, Water(t));
    } else {
      FoldCons(t[l], [], acc);
      assert Fold(ScanFrom(t, l, r), acc) == acc';
    }
  }

  lemma {:induction false} ScanFoldWaterRight(t: seq<int>, l: nat, r: nat, w: nat)
    requires SweepInv(t, l, r) && l < r && t[r] < t[l]
    ensures Fold(ScanFrom(t, l, r), Stair(Consumed(t, l, r), w)).water
            + PrefixWater(t, l) + SuffixWater(t, r + 1) == w + Water(t)
    decreases r - l, 0
  {
    var acc := Stair(Consumed(t, l, r), w);
    var acc' := Stair(Consumed(t, l, r - 1), w + Spot(t, r));
    ScanStepRight(t, l, r);
    ClimbRight(t, l, r, w);
    if l + 1 < r {
      var rest := ScanFrom(t, l, r - 1);
      FoldCons(t[r], rest, acc);
      assert Fold(ScanFrom(t, l, r), acc) == Fold(rest, acc');
      ScanFoldWater(t, l, r - 1, w + Spot(t, r));
      ChargeSpot(Fold(rest, acc').water, PrefixWater(t, l), SuffixWater(t, r + 1),
                 PrefixWater(t, l), SuffixWater(t, r), Spot(t, r), w, Water(t));
    } else {
      FoldCons(t[r], [], acc);
      assert Fold(ScanFrom(t, l, r), acc) == acc';
    }
  }

  /** The bookkeeping of one scan step: the spot charged to the fold is the
      spot moved from the unconsumed window into the consumed water. */
  lemma ChargeSpot(fold: nat, pw: nat, sw: nat, pw': nat, sw': nat, spot: nat, w: nat, total: nat)
    requires pw' + sw' == pw + sw + spot
    requires fold + pw' + sw' == w + spot + total
    ensures fold + pw + sw == w + total
  {
  }

  /** Folding the left end in sweep state (l, r) charges its water and
      leaves the fold in sweep state (l + 1, r). */
  lemma ClimbLeft(t: seq<int>, l: nat, r: nat, w: nat)
    requires SweepInv(t, l, r) && l < r && t[l] <= t[r]
    ensures SweepInv(t, l + 1, r)
    ensures Climb(Stair(Consumed(t, l, r), w), t[l]) == Stair(Consumed(t, l + 1, r), w + Spot(t, l))
    ensures PrefixWater(t, l + 1) == PrefixWater(t, l) + Spot(t, l)
    ensures l + 1 == r ==> PrefixWater(t, l + 1) + SuffixWater(t, r + 1) == Water(t)
  {
    SweepLeft(t, l, r);
    if l + 1 == r {
      SweepTotal(t, r);
    }
  }

  /** Folding the right end in sweep state (l, r). */
  lemma ClimbRight(t: seq<int>, l: nat, r: nat, w: nat)
    requires SweepInv(t, l, r) && l < r && t[r] < t[l]
    ensures SweepInv(t, l, r - 1)
    ensures Climb(Stair(Consumed(t, l, r), w), t[r]) == Stair(Consumed(t, l, r - 1), w + Spot(t, r))
    ensures SuffixWater(t, r) == Spot(t, r) + SuffixWater(t, r + 1)
    ensures l + 1 == r ==> PrefixWater(t, l) + SuffixWater(t, r) == Water(t)
  {
    SweepRight(t, l, r);
    if l + 1 == r {
      SweepTotal(t, l);
    }
  }

  /** The scan starts in sweep state (0, n - 1) for n >= 2 and emits nothing
      for n <= 1, since `(Some(a), None)` ends it at once. */
  lemma ReorderedStart(t: seq<int>)
    ensures |t| <= 1 ==> Reordered(t) == []
    ensures |t| >= 2 ==> Reordered(t) == ScanFrom(t, 0, |t| - 1)
  {
  }

  /** `compute_rain_collected` is the water of the terrain; in particular it
      is 0 for length 0 or 1. */
  lemma ComputeRainCollectedIsWater(height: seq<int>)
    requires IsI64Terrain(height)
    ensures ComputeRainCollected(height) == Water(height)
    ensures |height| <= 1 ==> ComputeRainCollected(height) == 0
  {
    ReorderedStart(height);
    if |height| <= 1 {
      ShortTerrainHoldsNothing(height);
    } else {
      SweepStart(height);
      ScanFoldWater(height, 0, |height| - 1, 0);
    }
  }

  /** Through `Water`, scanning the terrain from the other side gives the
      same amount, and a terrain that only rises or only falls gives 0. */
  lemma ComputeRainCollectedSymmetric(height: seq<int>)
    requires IsI64Terrain(height)
    ensures ComputeRainCollected(Reverse(height)) == ComputeRainCollected(height)
    ensures NonDecreasing(height) || NonIncreasing(height) ==> ComputeRainCollected(height) == 0
  {
    ReverseI64(height);
    ComputeRainCollectedIsWater(height);
    ComputeRainCollectedIsWater(Reverse(height));
    WaterReverse(height);
    if NonDecreasing(height) || NonIncreasing(height) {
      MonotoneHoldsNothing(height);
    }
  }

  /** The index of the value left in the scan state when the scan started
      in sweep state (l, r) ends. */
  ghost function Kept(t: seq<int>, l: nat, r: nat): (m: nat)
    requires l < r < |t|
    ensures l <= m <= r
    decreases r - l
  {
    if t[l] <= t[r] then (if l + 1 < r then Kept(t, l + 1, r) else r)
    else (if l + 1 < r then Kept(t, l, r - 1) else l)
  }

  /** From sweep state (l, r) the scan emits r - l values; they and the value
      it keeps are exactly the values t[l..r+1]. */
  lemma {:induction false} ScanKeeps(t: seq<int>, l: nat, r: nat)
    requires l < r < |t|
    ensures |ScanFrom(t, l, r)| == r - l
    ensures multiset(ScanFrom(t, l, r)) + multiset{t[Kept(t, l, r)]} == multiset(t[l..r + 1])
    decreases r - l, 1
  {
    if t[l] <= t[r] {
      ScanKeepsLeft(t, l, r);
    } else {
      ScanKeepsRight(t, l, r);
    }
  }

  lemma {:induction false} ScanKeepsLeft(t: seq<int>, l: nat, r: nat)
    requires l < r < |t| && t[l] <= t[r]
    ensures |ScanFrom(t, l, r)| == r - l
    ensures multiset(ScanFrom(t, l, r)) + multiset{t[Kept(t, l, r)]} == multiset(t[l..r + 1])
    decreases r - l, 0
  {
    ScanStepLeft(t, l, r);
    SliceFront(t, l, r);
    if l + 1 < r {
      ScanKeeps(t, l + 1, r);
      assert Kept(t, l, r) == Kept(t, l + 1, r);
      EmitOne(t[l], ScanFrom(t, l + 1, r), t[Kept(t, l, r)], multiset(t[l + 1..r + 1]));
    } else {
      assert t[l + 1..r + 1] == [t[r]];
    }
  }

  lemma {:induction false} ScanKeepsRight(t: seq<int>, l: nat, r: nat)
    requires l < r < |t| && t[r] < t[l]
    ensures |ScanFrom(t, l, r)| == r - l
    ensures multiset(ScanFrom(t, l, r)) + multiset{t[Kept(t, l, r)]} == multiset(t[l..r + 1])
    decreases r - l, 0
  {
    ScanStepRight(t, l, r);
    SliceBack(t, l, r);
    if l + 1 < r {
      var r' := r - 1;
      ScanKeeps(t, l, r');
      assert Kept(t, l, r) == Kept(t, l, r');
      assert t[l..r' + 1] == t[l..r];
      EmitOne(t[r], ScanFrom(t, l, r'), t[Kept(t, l, r')], multiset(t[l..r' + 1]));
    } else {
      assert t[l..r] == [t[l]];
    }
  }

  /** Emitting one more value x keeps the emitted values and the kept one a
      permutation of the window, now grown by x. */
  lemma EmitOne(x: int, xs: seq<int>, kept: int, window: multiset<int>)
    requires multiset(xs) + multiset{kept} == window
    ensures |[x] + xs| == |xs| + 1
    ensures multiset([x] + xs) + multiset{kept} == multiset{x} + window
  {
  }

  lemma SliceFront(t: seq<int>, l: nat, r: nat)
    requires l <= r < |t|
    ensures multiset(t[l..r + 1]) == multiset{t[l]} + multiset(t[l + 1..r + 1])
  {
    assert t[l..r + 1] == [t[l]] + t[l + 1..r + 1];
  }

  lemma SliceBack(t: seq<int>, l: nat, r: nat)
    requires l <= r < |t|
    ensures multiset(t[l..r + 1]) == multiset(t[l..r]) + multiset{t[r]}
  {
    assert t[l..r + 1] == t[l..r] + [t[r]];
  }

  /** Under the sweep invariant the kept value is a maximum of the terrain. */
  lemma {:induction false} KeptIsPeak(t: seq<int>, l: nat, r: nat)
    requires SweepInv(t, l, r) && l < r
    ensures IsPeak(t, Kept(t, l, r))
    decreases r - l
  {
    if t[l] <= t[r] {
      SweepLeft(t, l, r);
      if l + 1 < r {
        KeptIsPeak(t, l + 1, r);
      } else {
        SweepMeet(t, r);
      }
    } else {
      SweepRight(t, l, r);
      if l + 1 < r {
        KeptIsPeak(t, l, r - 1);
      } else {
        SweepMeet(t, l);
      }
    }
  }

  /** A fold never raises its step above a bound of its start and of every
      element. */
  lemma {:induction false} FoldStepBelow(xs: seq<int>, acc: Stair, b: int)
    requires acc.step <= b
    requires forall i :: 0 <= i < |xs| ==> xs[i] <= b
    ensures Fold(xs, acc).step <= b
    decreases |xs|
  {
    if xs != [] {
      FoldStepBelow(xs[1..], Climb(acc, xs[0]), b);
    }
  }

  /** A sequence that ends with its maximum traps what the plain fold over
      the rest collects: the last climb charges nothing. */
  lemma PeakLastWater(xs: seq<int>, x: int)
    requires IsI64Terrain(xs + [x])
    requires forall i :: 0 <= i < |xs| ==> xs[i] <= x
    ensures IsPeak(xs + [x], |xs|)
    ensures Water(xs + [x]) == Fold(xs, Stair(I64Min, 0)).water
  {
    var s := xs + [x];
    assert forall i :: 0 <= i < |xs| ==> s[i] == xs[i];
    FoldPeakLast(s);
    FoldSnoc(xs, x, Stair(I64Min, 0));
    FoldStepBelow(xs, Stair(I64Min, 0), x);
  }

  /** The index of the value the scan keeps (the only one, for n == 1). */
  ghost function KeptIndex(t: seq<int>): (p: nat)
    requires |t| > 0
    ensures p < |t|
  {
    if |t| == 1 then 0 else Kept(t, 0, |t| - 1)
  }

  /** The scan emits n - 1 values, and they and the kept value are a
      permutation of the terrain. */
  lemma ReorderedPermutes(t: seq<int>)
    requires |t| > 0
    ensures |Reordered(t)| == |t| - 1
    ensures multiset(Reordered(t) + [t[KeptIndex(t)]]) == multiset(t)
  {
    ReorderedStart(t);
    if |t| == 1 {
      assert Reordered(t) + [t[0]] == t;
    } else {
      ScanKeeps(t, 0, |t| - 1);
      assert t[0..|t|] == t;
    }
  }

  /** The kept value is a maximum of the terrain. */
  lemma KeptIndexIsPeak(t: seq<int>)
    requires IsI64Terrain(t) && |t| > 0
    ensures IsPeak(t, KeptIndex(t))
  {
    if |t| > 1 {
      SweepStart(t);
      KeptIsPeak(t, 0, |t| - 1);
    }
  }

  /** The claim the source leaves unproved: reordering keeps the water and
      moves a maximum to the end. The n - 1 emitted values followed by the
      kept maximum are a permutation of the terrain, end with a maximum, and
      trap the terrain's water. */
  lemma ReorderKeepsWater(t: seq<int>)
    requires IsI64Terrain(t) && |t| > 0
    ensures |Reordered(t)| == |t| - 1
    ensures exists p :: 0 <= p < |t| && IsPeak(t, p)
                     && multiset(Reordered(t) + [t[p]]) == multiset(t)
                     && IsPeak(Reordered(t) + [t[p]], |t| - 1)
                     && Water(Reordered(t) + [t[p]]) == Water(t)
  {
    var p := KeptIndex(t);
    ReorderedPermutes(t);
    KeptIndexIsPeak(t);
    var xs := Reordered(t);
    var s := xs + [t[p]];
    forall i | 0 <= i < |s|
      ensures I64Min <= s[i] <= t[p]
    {
      assert s[i] in multiset(t);
    }
    assert forall i :: 0 <= i < |xs| ==> xs[i] == s[i];
    PeakLastWater(xs, t[p]);
    ComputeRainCollectedIsWater(t);
  }
}
