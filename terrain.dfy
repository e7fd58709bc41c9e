/**
  The reference definition of the rain water trapped in a terrain.

  A terrain is a sequence of elevations. The water standing on spot i reaches
  the lower of the tallest spot at or left of i and the tallest spot at or
  right of i; the spot holds that level minus its own elevation. Every
  strategy of the system is proved equal to `Water` below.
 */
module Terrain {

  function Max(a: int, b: int): int { if a < b then b else a }
  function Min(a: int, b: int): int { if a < b then a else b }

  /** i64::MIN, LONG_MIN and Int64.min: the start value of every running maximum. */
  const I64Min: int := -0x8000_0000_0000_0000
  const I64Max: int := 0x7fff_ffff_ffff_ffff

  /** The elevations fit the source's element type (i64, long, Int64). */
  predicate IsI64Terrain(t: seq<int>) {
    forall i :: 0 <= i < |t| ==> I64Min <= t[i] <= I64Max
  }

  /** The tallest elevation in t[0..i], both ends included. */
  function MaxUpTo(t: seq<int>, i: nat): (m: int)
    requires i < |t|
    ensures m >= t[i]
  {
    if i == 0 then t[0] else Max(MaxUpTo(t, i - 1), t[i])
  }

  /** The tallest elevation in t[i..|t|-1], both ends included. */
  function MaxFrom(t: seq<int>, i: nat): (m: int)
    requires i < |t|
    ensures m >= t[i]
    decreases |t| - i
  {
    if i == |t| - 1 then t[i] else Max(t[i], MaxFrom(t, i + 1))
  }

  /** No spot of t[0..i] rises above the running maximum from the left. */
  lemma {:induction false} MaxUpToBound(t: seq<int>, i: nat)
    requires i < |t|
    ensures forall j :: 0 <= j <= i ==> t[j] <= MaxUpTo(t, i)
  {
    if i > 0 {
      MaxUpToBound(t, i - 1);
    }
  }

  /** No spot of t[i..] rises above the running maximum from the right. */
  lemma {:induction false} MaxFromBound(t: seq<int>, i: nat)
    requires i < |t|
    ensures forall j :: i <= j < |t| ==> t[j] <= MaxFrom(t, i)
    decreases |t| - i
  {
    if i < |t| - 1 {
      MaxFromBound(t, i + 1);
    }
  }

  /** The running maximum from the left is the elevation of some spot. */
  lemma {:induction false} MaxUpToAttained(t: seq<int>, i: nat)
    requires i < |t|
    ensures exists j :: 0 <= j <= i && t[j] == MaxUpTo(t, i)
  {
    if i > 0 && MaxUpTo(t, i) != t[i] {
      MaxUpToAttained(t, i - 1);
      var j :| 0 <= j <= i - 1 && t[j] == MaxUpTo(t, i - 1);
      assert t[j] == MaxUpTo(t, i);
    } else {
      assert t[i] == MaxUpTo(t, i);
    }
  }

  /** The running maximum from the right is the elevation of some spot. */
  lemma {:induction false} MaxFromAttained(t: seq<int>, i: nat)
    requires i < |t|
    ensures exists j :: i <= j < |t| && t[j] == MaxFrom(t, i)
    decreases |t| - i
  {
    if i < |t| - 1 && MaxFrom(t, i) != t[i] {
      MaxFromAttained(t, i + 1);
      var j :| i + 1 <= j < |t| && t[j] == MaxFrom(t, i + 1);
      assert t[j] == MaxFrom(t, i);
    } else {
      assert t[i] == MaxFrom(t, i);
    }
  }

  /** Looking at more spots never lowers a running maximum. */
  lemma MaxUpToMonotone(t: seq<int>, i: nat, j: nat)
    requires i <= j < |t|
    ensures MaxUpTo(t, i) <= MaxUpTo(t, j)
  {
    MaxUpToAttained(t, i);
    MaxUpToBound(t, j);
  }

  lemma MaxFromMonotone(t: seq<int>, i: nat, j: nat)
    requires i <= j < |t|
    ensures MaxFrom(t, j) <= MaxFrom(t, i)
  {
    MaxFromAttained(t, j);
    MaxFromBound(t, i);
  }

  /** The water surface over spot i: never below the spot itself. */
  function Level(t: seq<int>, i: nat): (h: int)
    requires i < |t|
    ensures h >= t[i]
    ensures h <= MaxUpTo(t, i) && h <= MaxFrom(t, i)
  {
    Min(MaxUpTo(t, i), MaxFrom(t, i))
  }

  /** The water held by spot i. */
  function Spot(t: seq<int>, i: nat): nat
    requires i < |t|
  {
    Level(t, i) - t[i]
  }

  /** The water held by the spots t[0..k). */
  function PrefixWater(t: seq<int>, k: nat): nat
    requires k <= |t|
  {
    if k == 0 then 0 else PrefixWater(t, k - 1) + Spot(t, k - 1)
  }

  /** The water held by the spots t[k..|t|). */
  function SuffixWater(t: seq<int>, k: nat): nat
    requires k <= |t|
    decreases |t| - k
  {
    if k == |t| then 0 else Spot(t, k) + SuffixWater(t, k + 1)
  }

  /** The total rain water trapped in the terrain. */
  function Water(t: seq<int>): nat {
    PrefixWater(t, |t|)
  }

  /** Splitting the terrain at any position splits its water. */
  lemma {:induction false} WaterSplit(t: seq<int>, k: nat)
    requires k <= |t|
    ensures Water(t) == PrefixWater(t, k) + SuffixWater(t, k)
    decreases |t| - k
  {
    if k < |t| {
      WaterSplit(t, k + 1);
      assert PrefixWater(t, k + 1) == PrefixWater(t, k) + Spot(t, k);
      assert SuffixWater(t, k) == Spot(t, k) + SuffixWater(t, k + 1);
    }
  }

  /** The first and the last spot never hold water. */
  lemma EndsHoldNothing(t: seq<int>)
    requires |t| > 0
    ensures Spot(t, 0) == 0 && Spot(t, |t| - 1) == 0
  {
    assert Level(t, 0) == t[0];
    assert Level(t, |t| - 1) == t[|t| - 1];
  }

  /** Fewer than three spots hold no water: every spot is an end. */
  lemma ShortTerrainHoldsNothing(t: seq<int>)
    requires |t| < 3
    ensures Water(t) == 0
  {
    if |t| > 0 {
      EndsHoldNothing(t);
      assert PrefixWater(t, 1) == Spot(t, 0);
    }
  }

  /** A spot p no lower than any other: the wall that bounds both sides. */
  predicate IsPeak(t: seq<int>, p: nat) {
    p < |t| && forall j :: 0 <= j < |t| ==> t[j] <= t[p]
  }

  /** Left of a peak the level is the running maximum from the left,
      right of it the running maximum from the right. */
  lemma PeakLevel(t: seq<int>, p: nat, i: nat)
    requires IsPeak(t, p) && i < |t|
    ensures i <= p ==> Level(t, i) == MaxUpTo(t, i)
    ensures p <= i ==> Level(t, i) == MaxFrom(t, i)
  {
    MaxUpToAttained(t, i);
    MaxFromAttained(t, i);
    MaxUpToBound(t, i);
    MaxFromBound(t, i);
  }

  /** The running maximum of the prefix t[..k], I64Min while it is empty:
      the value a fold from the left holds after k elements. */
  function MaxOfPrefix(t: seq<int>, k: nat): int
    requires k <= |t|
  {
    if k == 0 then I64Min else MaxUpTo(t, k - 1)
  }

  /** The running maximum of the suffix t[k..], I64Min while it is empty. */
  function MaxOfSuffix(t: seq<int>, k: nat): int
    requires k <= |t|
  {
    if k == |t| then I64Min else MaxFrom(t, k)
  }

  /** Taking one more element from the left raises the running maximum to it. */
  lemma MaxOfPrefixNext(t: seq<int>, k: nat)
    requires IsI64Terrain(t) && k < |t|
    ensures MaxOfPrefix(t, k + 1) == Max(MaxOfPrefix(t, k), t[k]) == MaxUpTo(t, k)
  {
  }

  /** Taking one more element from the right raises the running maximum to it. */
  lemma MaxOfSuffixNext(t: seq<int>, k: nat)
    requires IsI64Terrain(t) && k < |t|
    ensures MaxOfSuffix(t, k) == Max(t[k], MaxOfSuffix(t, k + 1)) == MaxFrom(t, k)
  {
  }

  /** The terrain seen from the other side. */
  function Reverse(t: seq<int>): (r: seq<int>)
    ensures |r| == |t|
    ensures forall i :: 0 <= i < |t| ==> r[i] == t[|t| - 1 - i]
  {
    seq(|t|, i requires 0 <= i < |t| => t[|t| - 1 - i])
  }

  /** The mirror image of an i64 terrain is an i64 terrain. */
  lemma ReverseI64(t: seq<int>)
    requires IsI64Terrain(t)
    ensures IsI64Terrain(Reverse(t))
  {
    var r := Reverse(t);
    forall i | 0 <= i < |r|
      ensures I64Min <= r[i] <= I64Max
    {
      assert r[i] == t[|t| - 1 - i];
    }
  }

  /** Reversing swaps the running maximum from the left with the one from
      the right. */
  lemma {:induction false} MaxUpToReverse(t: seq<int>, i: nat)
    requires i < |t|
    ensures MaxUpTo(Reverse(t), i) == MaxFrom(t, |t| - 1 - i)
  {
    if i > 0 {
      MaxUpToReverse(t, i - 1);
    }
  }

  lemma {:induction false} MaxFromReverse(t: seq<int>, i: nat)
    requires i < |t|
    ensures MaxFrom(Reverse(t), i) == MaxUpTo(t, |t| - 1 - i)
    decreases |t| - i
  {
    if i < |t| - 1 {
      MaxFromReverse(t, i + 1);
    }
  }

  /** The water standing on a spot does not depend on the side it is seen from. */
  lemma SpotReverse(t: seq<int>, i: nat)
    requires i < |t|
    ensures Spot(Reverse(t), i) == Spot(t, |t| - 1 - i)
  {
    MaxUpToReverse(t, i);
    MaxFromReverse(t, i);
  }

  /** Spot k - 1 of the reversed terrain is spot |t| - k of the terrain. */
  lemma ReverseStep(t: seq<int>, k: nat)
    requires 0 < k <= |t|
    ensures PrefixWater(Reverse(t), k) - PrefixWater(Reverse(t), k - 1)
         == SuffixWater(t, |t| - k) - SuffixWater(t, |t| - k + 1)
  {
    SpotReverse(t, k - 1);
  }

  /** The first k spots of the reversed terrain are the last k of the terrain. */
  lemma {:induction false} PrefixWaterReverse(t: seq<int>, k: nat)
    requires k <= |t|
    ensures PrefixWater(Reverse(t), k) == SuffixWater(t, |t| - k)
  {
    if k > 0 {
      PrefixWaterReverse(t, k - 1);
      ReverseStep(t, k);
    }
  }

  /** A terrain and its mirror image hold the same water. */
  lemma WaterReverse(t: seq<int>)
    ensures Water(Reverse(t)) == Water(t)
  {
    PrefixWaterReverse(t, |t|);
    WaterSplit(t, 0);
  }

  predicate NonDecreasing(t: seq<int>) {
    forall i, j :: 0 <= i <= j < |t| ==> t[i] <= t[j]
  }

  predicate NonIncreasing(t: seq<int>) {
    forall i, j :: 0 <= i <= j < |t| ==> t[j] <= t[i]
  }

  /** The spots before k, when each holds nothing, hold nothing together. */
  lemma {:induction false} DrySpotsNoWater(t: seq<int>, k: nat)
    requires k <= |t|
    requires forall i :: 0 <= i < k ==> Spot(t, i) == 0
    ensures PrefixWater(t, k) == 0
  {
    if k > 0 {
      DrySpotsNoWater(t, k - 1);
    }
  }

  /** A terrain that only rises has no wall on the left of any spot. */
  lemma RisingHoldsNothing(t: seq<int>)
    requires NonDecreasing(t)
    ensures Water(t) == 0
  {
    forall i | 0 <= i < |t|
      ensures Spot(t, i) == 0
    {
      MaxUpToAttained(t, i);
      var j :| 0 <= j <= i && t[j] == MaxUpTo(t, i);
      assert t[j] <= t[i];
    }
    DrySpotsNoWater(t, |t|);
  }

  /** A terrain that rises or falls all the way holds no water. */
  lemma MonotoneHoldsNothing(t: seq<int>)
    requires NonDecreasing(t) || NonIncreasing(t)
    ensures Water(t) == 0
  {
    if NonDecreasing(t) {
      RisingHoldsNothing(t);
    } else {
      var r := Reverse(t);
      forall i, j | 0 <= i <= j < |r|
        ensures r[i] <= r[j]
      {
        assert r[i] == t[|t| - 1 - i] && r[j] == t[|t| - 1 - j];
      }
      RisingHoldsNothing(r);
      WaterReverse(t);
    }
  }
}
