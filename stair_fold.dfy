/**
  The "stair" fold shared by the max-split and the reordering strategies.

  Walking towards the highest spot, the water surface climbs like a stair:
  its step is the highest elevation seen so far, and each spot holds the step
  minus its own elevation. The accumulator is a pair (stepsize, water); the
  step is raised before the subtraction, so each charge is non-negative before
  it is cast to the unsigned accumulator.
 */
module StairFold {
  import opened Terrain

  datatype Stair = Stair(step: int, water: nat)

  /** One step of the stair fold: the step rises to x when x is higher, and
      the spot is charged the new step less x. */
  function Climb(acc: Stair, x: int): (r: Stair)
    ensures r.step >= x && r.step >= acc.step
    ensures r.water >= acc.water
  {
    var stepsize := Max(x, acc.step);
    Stair(stepsize, acc.water + (stepsize - x) as nat)
  }

  /** `Iterator::fold`: the elements from first to last. */
  function Fold(xs: seq<int>, acc: Stair): Stair {
    if xs == [] then acc else Fold(xs[1..], Climb(acc, xs[0]))
  }

  /** `DoubleEndedIterator::rfold`: the elements from last to first. */
  function RFold(xs: seq<int>, acc: Stair): Stair {
    if xs == [] then acc else RFold(xs[..|xs| - 1], Climb(acc, xs[|xs| - 1]))
  }

  /** A fold whose first element is x. */
  lemma FoldCons(x: int, xs: seq<int>, acc: Stair)
    ensures Fold([x] + xs, acc) == Fold(xs, Climb(acc, x))
  {
    assert ([x] + xs)[1..] == xs;
  }

  /** A fold that has consumed xs and then x. */
  lemma {:induction false} FoldSnoc(xs: seq<int>, x: int, acc: Stair)
    ensures Fold(xs + [x], acc) == Climb(Fold(xs, acc), x)
    decreases |xs|
  {
    if xs == [] {
      assert [x][1..] == [];
    } else {
      assert (xs + [x])[1..] == xs[1..] + [x];
      FoldSnoc(xs[1..], x, Climb(acc, xs[0]));
    }
  }

  /** A reverse fold that has consumed xs (from its back) and then x. */
  lemma {:induction false} RFoldCons(x: int, xs: seq<int>, acc: Stair)
    ensures RFold([x] + xs, acc) == Climb(RFold(xs, acc), x)
    decreases |xs|
  {
    if xs == [] {
      assert ([x] + xs)[..0] == [];
    } else {
      assert ([x] + xs)[..|xs|] == [x] + xs[..|xs| - 1];
      RFoldCons(x, xs[..|xs| - 1], Climb(acc, xs[|xs| - 1]));
    }
  }

  /** The fold over t[..i + 1] climbs t[i] after the fold over t[..i]. */
  lemma FoldPrefixNext(t: seq<int>, i: nat, acc: Stair)
    requires i < |t|
    ensures Fold(t[..i + 1], acc) == Climb(Fold(t[..i], acc), t[i])
  {
    FoldSnoc(t[..i], t[i], acc);
    assert t[..i + 1] == t[..i] + [t[i]];
  }

  /** The reverse fold over t[i..] climbs t[i] after the one over t[i + 1..]. */
  lemma RFoldSuffixNext(t: seq<int>, i: nat, acc: Stair)
    requires i < |t|
    ensures RFold(t[i..], acc) == Climb(RFold(t[i + 1..], acc), t[i])
  {
    RFoldCons(t[i], t[i + 1..], acc);
    assert t[i..] == [t[i]] + t[i + 1..];
  }

  /** The fold over a non-empty slice takes its first element first. */
  lemma FoldSliceFirst(t: seq<int>, k: nat, p: nat, acc: Stair)
    requires k < p <= |t|
    ensures Fold(t[k..p], acc) == Fold(t[k + 1..p], Climb(acc, t[k]))
  {
    assert t[k..p][1..] == t[k + 1..p];
  }

  /** `rfold` over a non-empty slice takes its last element first. */
  lemma RFoldSliceLast(t: seq<int>, p: nat, k: nat, acc: Stair)
    requires p < k <= |t|
    ensures RFold(t[p..k], acc) == RFold(t[p..k - 1], Climb(acc, t[k - 1]))
  {
    assert t[p..k][..k - 1 - p] == t[p..k - 1];
  }

  /** Left of a peak the fold from the left charges every spot exactly its
      water: after t[k..p] it holds the running maximum and the water of t[..p]. */
  lemma {:induction false} FoldLeftOfPeak(t: seq<int>, k: nat, p: nat)
    requires IsI64Terrain(t) && IsPeak(t, p) && k <= p
    ensures Fold(t[k..p], Stair(MaxOfPrefix(t, k), PrefixWater(t, k)))
         == Stair(MaxOfPrefix(t, p), PrefixWater(t, p))
    decreases p - k
  {
    if k < p {
      var acc := Stair(MaxOfPrefix(t, k), PrefixWater(t, k));
      MaxOfPrefixNext(t, k);
      PeakLevel(t, p, k);
      assert Climb(acc, t[k]) == Stair(MaxOfPrefix(t, k + 1), PrefixWater(t, k + 1));
      FoldSliceFirst(t, k, p, acc);
      FoldLeftOfPeak(t, k + 1, p);
    } else {
      assert t[k..p] == [];
    }
  }

  /** Right of a peak (the peak included) the fold from the right charges
      every spot exactly its water. */
  lemma {:induction false} RFoldRightOfPeak(t: seq<int>, p: nat, k: nat)
    requires IsI64Terrain(t) && IsPeak(t, p) && p <= k <= |t|
    ensures RFold(t[p..k], Stair(MaxOfSuffix(t, k), SuffixWater(t, k)))
         == Stair(MaxOfSuffix(t, p), SuffixWater(t, p))
    decreases k - p
  {
    if p < k {
      var acc := Stair(MaxOfSuffix(t, k), SuffixWater(t, k));
      MaxOfSuffixNext(t, k - 1);
      PeakLevel(t, p, k - 1);
      assert Climb(acc, t[k - 1]) == Stair(MaxOfSuffix(t, k - 1), SuffixWater(t, k - 1));
      RFoldSliceLast(t, p, k, acc);
      RFoldRightOfPeak(t, p, k - 1);
    } else {
      assert t[p..k] == [];
    }
  }

  /** A start step no higher than the first element folded is as good as
      I64Min: the first climb replaces it. Otherwise the first climb charges
      the difference. */
  lemma FoldStartBelow(xs: seq<int>, s: int, s': int)
    requires xs != [] && s <= xs[0] && s' <= xs[0]
    ensures Fold(xs, Stair(s, 0)) == Fold(xs, Stair(s', 0))
  {
    assert Climb(Stair(s, 0), xs[0]) == Climb(Stair(s', 0), xs[0]);
  }

  lemma RFoldStartBelow(xs: seq<int>, s: int, s': int)
    requires xs != [] && s <= xs[|xs| - 1] && s' <= xs[|xs| - 1]
    ensures RFold(xs, Stair(s, 0)) == RFold(xs, Stair(s', 0))
  {
    assert Climb(Stair(s, 0), xs[|xs| - 1]) == Climb(Stair(s', 0), xs[|xs| - 1]);
  }

  /** A terrain whose last spot is a peak: the plain fold from the left is
      its water (the "maximum is last" case of the stair argument). */
  lemma FoldPeakLast(t: seq<int>)
    requires IsI64Terrain(t) && |t| > 0 && IsPeak(t, |t| - 1)
    ensures Fold(t, Stair(I64Min, 0)).water == Water(t)
  {
    var n := |t|;
    FoldLeftOfPeak(t, 0, n - 1);
    assert t[0..n - 1] == t[..n - 1];
    EndsHoldNothing(t);
    FoldSnoc(t[..n - 1], t[n - 1], Stair(I64Min, 0));
    assert t[..n - 1] + [t[n - 1]] == t;
    MaxOfPrefixNext(t, n - 1);
    MaxUpToAttained(t, n - 1);
    assert MaxUpTo(t, n - 1) == t[n - 1];
  }
}
