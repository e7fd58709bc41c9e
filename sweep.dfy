/**
  The state of a two-ended sweep over a terrain, shared by the two-pointer
  loops and by the min-first reordering scan.

  The sweep holds two positions l <= r. The spots t[..l] and t[r+1..] are
  consumed; t[l] and t[r] are the current ends. Each step consumes the lower
  end (either one on a tie). `SweepInv` is what every such step keeps; under
  it the running maximum of what was consumed, joined with the consumed end,
  is exactly the water level over that end.
 */
module Sweep {
  import opened Terrain

  /** The highest spot consumed so far from either side (I64Min if none):
      the pool height of the two-pointer loop and the stepsize of the scan. */
  function Consumed(t: seq<int>, l: nat, r: nat): int
    requires l <= r < |t|
  {
    Max(MaxOfPrefix(t, l), MaxOfSuffix(t, r + 1))
  }

  predicate SweepInv(t: seq<int>, l: nat, r: nat) {
    && IsI64Terrain(t)
    && l <= r < |t|
    // nothing consumed on one side rises above the other side's wall
    && MaxOfPrefix(t, l) <= MaxFrom(t, r)
    && MaxOfSuffix(t, r + 1) <= MaxUpTo(t, l)
    // nothing consumed rises above the higher current end
    && MaxOfPrefix(t, l) <= Max(t[l], t[r])
    && MaxOfSuffix(t, r + 1) <= Max(t[l], t[r])
  }

  /** The sweep starts at both ends of a non-empty terrain with nothing consumed. */
  lemma SweepStart(t: seq<int>)
    requires IsI64Terrain(t) && |t| > 0
    ensures SweepInv(t, 0, |t| - 1)
    ensures Consumed(t, 0, |t| - 1) == I64Min
  {
  }

  /** Consuming the left end when it is not above the right end: the new pool
      height is the running maximum from the left, which is the water level
      over t[l], so the amount charged is exactly the water of spot l. */
  lemma SweepLeft(t: seq<int>, l: nat, r: nat)
    requires SweepInv(t, l, r) && l < r && t[l] <= t[r]
    ensures Max(Consumed(t, l, r), t[l]) == Consumed(t, l + 1, r) == MaxOfPrefix(t, l + 1)
    ensures Max(Consumed(t, l, r), Min(t[l], t[r])) == Consumed(t, l + 1, r)
    ensures Consumed(t, l + 1, r) >= t[l]
    ensures Spot(t, l) == Consumed(t, l + 1, r) - t[l]
    ensures PrefixWater(t, l + 1) == PrefixWater(t, l) + Spot(t, l)
    ensures SweepInv(t, l + 1, r)
  {
    MaxOfPrefixNext(t, l);
    MaxFromMonotone(t, l, r);
  }

  /** Consuming the right end when it is not above the left end. */
  lemma SweepRight(t: seq<int>, l: nat, r: nat)
    requires SweepInv(t, l, r) && l < r && t[r] <= t[l]
    ensures Max(Consumed(t, l, r), t[r]) == Consumed(t, l, r - 1) == MaxOfSuffix(t, r)
    ensures Max(Consumed(t, l, r), Min(t[l], t[r])) == Consumed(t, l, r - 1)
    ensures Consumed(t, l, r - 1) >= t[r]
    ensures Spot(t, r) == Consumed(t, l, r - 1) - t[r]
    ensures SuffixWater(t, r) == Spot(t, r) + SuffixWater(t, r + 1)
    ensures SweepInv(t, l, r - 1)
  {
    MaxOfSuffixNext(t, r);
    MaxUpToMonotone(t, l, r);
    assert MaxFrom(t, r - 1) == Max(t[r - 1], MaxFrom(t, r));
  }

  /** When the ends meet, the spot between them is a peak of the whole
      terrain and holds no water. */
  lemma SweepMeet(t: seq<int>, m: nat)
    requires SweepInv(t, m, m)
    ensures IsPeak(t, m)
    ensures Spot(t, m) == 0
  {
    MaxOfPrefixNext(t, m);
    MaxOfSuffixNext(t, m);
    MaxUpToBound(t, m);
    MaxFromBound(t, m);
    forall j | 0 <= j < |t|
      ensures t[j] <= t[m]
    {
      if j < m {
        assert t[j] <= MaxUpTo(t, m);
      } else {
        assert t[j] <= MaxFrom(t, m);
      }
    }
  }

  /** Once the ends meet, the water charged on both sides is all the water. */
  lemma SweepTotal(t: seq<int>, m: nat)
    requires SweepInv(t, m, m)
    ensures PrefixWater(t, m) + SuffixWater(t, m + 1) == Water(t)
  {
    SweepMeet(t, m);
    WaterSplit(t, m);
  }
}
