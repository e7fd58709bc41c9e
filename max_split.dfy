/**
  The max-split strategy: find a highest spot, fold the spots left of it
  from the left and the spots from it to the end from the right, and add
  the two amounts. A highest spot bounds the water on both of its sides, so
  each side is a one-sided running-maximum problem.
 */
module MaxSplit {
  import opened Terrain
  import opened StairFold
  import opened Peaks

  /** The two folds around the split position p, each starting its step at
      `start`: `fold` over t[..p] plus `rfold` over t[p..]. */
  function SplitFolds(t: seq<int>, start: int, p: nat): nat
    requires p <= |t|
  {
    Fold(t[..p], Stair(start, 0)).water + RFold(t[p..], Stair(start, 0)).water
  }

  /** Splitting at any peak gives the water, provided the start step is not
      above the first spot folded from each side. */
  lemma SplitFoldsAtPeak(t: seq<int>, start: int, p: nat)
    requires IsI64Terrain(t) && IsPeak(t, p)
    requires p > 0 ==> start <= t[0]
    requires start <= t[|t| - 1]
    ensures SplitFolds(t, start, p) == Water(t)
  {
    var n := |t|;
    if p > 0 {
      FoldStartBelow(t[..p], start, I64Min);
    }
    FoldLeftOfPeak(t, 0, p);
    assert t[0..p] == t[..p];
    RFoldStartBelow(t[p..], start, I64Min);
    RFoldRightOfPeak(t, p, n);
    assert t[p..n] == t[p..];
    WaterSplit(t, p);
  }

  /** Rust `compute_rain_collected3`: split at the last maximum, start both
      folds at i64::MIN. */
  function ComputeRainCollected3(terrain: seq<int>): nat {
    var n := |terrain|;
    if n < 3 then 0
    else
      var indexMaximum := LastMaxIndex(terrain, n);
      SplitFolds(terrain, I64Min, indexMaximum)
  }

  /** `compute_rain_collected3` is the water of the terrain; in particular it
      is 0 for fewer than three spots. */
  lemma ComputeRainCollected3IsWater(terrain: seq<int>)
    requires IsI64Terrain(terrain)
    ensures ComputeRainCollected3(terrain) == Water(terrain)
    ensures |terrain| < 3 ==> ComputeRainCollected3(terrain) == 0
  {
    if |terrain| < 3 {
      ShortTerrainHoldsNothing(terrain);
    } else {
      SplitFoldsAtPeak(terrain, I64Min, LastMaxIndex(terrain, |terrain|));
    }
  }

  /** Reversing the terrain moves the last maximum to a first one, yet the
      result is the same; a terrain that only rises or only falls gives 0. */
  lemma ComputeRainCollected3Symmetric(terrain: seq<int>)
    requires IsI64Terrain(terrain)
    ensures ComputeRainCollected3(Reverse(terrain)) == ComputeRainCollected3(terrain)
    ensures NonDecreasing(terrain) || NonIncreasing(terrain) ==> ComputeRainCollected3(terrain) == 0
  {
    ReverseI64(terrain);
    ComputeRainCollected3IsWater(terrain);
    ComputeRainCollected3IsWater(Reverse(terrain));
    WaterReverse(terrain);
    if NonDecreasing(terrain) || NonIncreasing(terrain) {
      MonotoneHoldsNothing(terrain);
    }
  }

  /** The loops of C++ `compute_rain_collected`, with the running maximum
      `acc` reset to `start` before each loop: `[0, index_maximum)` upwards,
      then `n - 1` down to `index_maximum`. */
  method FoldsAroundFirstPeak(terrain: seq<int>, start: int) returns (r: nat)
    ensures |terrain| < 3 ==> r == 0
    ensures |terrain| >= 3 ==> r == SplitFolds(terrain, start, FirstMaxIndex(terrain, |terrain|))
  {
    var n := |terrain|;
    if n < 3 {
      return 0;
    }
    var indexMaximum := MaxElement(terrain);

    var acc := start;
    var r1: nat := 0;
    var i := 0;
    while i < indexMaximum
      invariant 0 <= i <= indexMaximum
      invariant Stair(acc, r1) == Fold(terrain[..i], Stair(start, 0))
    {
      FoldPrefixNext(terrain, i, Stair(start, 0));
      acc := Max(acc, terrain[i]);
      r1 := r1 + (acc - terrain[i]) as nat;
      i := i + 1;
    }

    var r2: nat := 0;
    acc := start;
    i := n - 1;
    while i >= indexMaximum
      invariant indexMaximum - 1 <= i <= n - 1
      invariant Stair(acc, r2) == RFold(terrain[i + 1..], Stair(start, 0))
    {
      RFoldSuffixNext(terrain, i, Stair(start, 0));
      acc := Max(acc, terrain[i]);
      r2 := r2 + (acc - terrain[i]) as nat;
      i := i - 1;
    }
    r := r1 + r2;
  }

  /** C++ `compute_rain_collected` as written: `acc` starts at 0. It returns
      the water when no spot is below 0, but not in general; see
      `AccZeroDivergence`. */
  method ComputeRainCollectedCpp(terrain: seq<int>) returns (r: nat)
    requires IsI64Terrain(terrain)
    ensures |terrain| < 3 ==> r == 0
    ensures |terrain| >= 3 ==> r == SplitFolds(terrain, 0, FirstMaxIndex(terrain, |terrain|))
    ensures (forall i :: 0 <= i < |terrain| ==> terrain[i] >= 0) ==> r == Water(terrain)
  {
    r := FoldsAroundFirstPeak(terrain, 0);
    if forall i :: 0 <= i < |terrain| ==> terrain[i] >= 0 {
      if |terrain| < 3 {
        ShortTerrainHoldsNothing(terrain);
      } else {
        SplitFoldsAtPeak(terrain, 0, FirstMaxIndex(terrain, |terrain|));
      }
    }
  }

  /** With `acc = 0` a terrain below 0 gets water it cannot hold:
      [-1, -2, -1] holds 1 unit, the loops report 4. */
  lemma AccZeroDivergence()
    ensures FirstMaxIndex([-1, -2, -1], 3) == 0
    ensures SplitFolds([-1, -2, -1], 0, 0) == 4
    ensures Water([-1, -2, -1]) == 1
  {
    assert [-1, -2, -1][..0] == [];
    assert [-1, -2, -1][0..] == [-1, -2, -1];
    assert [-1, -2, -1][..2] == [-1, -2];
    assert [-1, -2][..1] == [-1];
    assert [-1][..0] == [];
    assert RFold([-1, -2, -1], Stair(0, 0)) == RFold([-1, -2], Stair(0, 1));
    assert RFold([-1, -2], Stair(0, 1)) == RFold([-1], Stair(0, 3));
    assert RFold([-1], Stair(0, 3)) == Stair(0, 4);
    assert Water([-1, -2, -1]) == PrefixWater([-1, -2, -1], 3);
  }

  /** C++ `compute_rain_collected` with `acc` starting at LONG_MIN, as every
      other running maximum in the repository does: the water of the terrain. */
  method ComputeRainCollectedCppFixed(terrain: seq<int>) returns (r: nat)
    requires IsI64Terrain(terrain)
    ensures r == Water(terrain)
  {
    r := FoldsAroundFirstPeak(terrain, I64Min);
    if |terrain| < 3 {
      ShortTerrainHoldsNothing(terrain);
    } else {
      SplitFoldsAtPeak(terrain, I64Min, FirstMaxIndex(terrain, |terrain|));
    }
  }
}
