/**
  The two-pointer sweep, in the three forms the repository carries.

  All three walk `left` up and `right` down until they meet, moving exactly
  one of them per iteration, and charge the moved spot against a running
  height. They differ in the tie-break (Rust moves left on `<=`, C++ and
  Swift move right unless strictly `<`) and in what they track (one pool
  height, or a left and a right maximum). Each is proved to return `Water`.

  An empty terrain is excluded by `requires |height| > 0`: every form
  computes `len - 1` on an unsigned length first. That panics in a Rust
  debug build and traps in Swift. In a Rust release build it wraps, and the
  bounds-checked `height[0]` of `trap`, `trap_v` and `trap2` then panics;
  only `trap_unsafe` and the C++ forms read out of bounds.
 */
module TwoPointer {
  import opened Terrain
  import opened Sweep

  /** The state of a one-pool sweep after consuming t[..l] and t[r+1..]:
      the pool height is the highest consumed spot and `acc` the water of
      the consumed spots. */
  predicate PoolState(t: seq<int>, l: nat, r: nat, pool: int, acc: int) {
    && SweepInv(t, l, r)
    && pool == Consumed(t, l, r)
    && acc == PrefixWater(t, l) + SuffixWater(t, r + 1)
  }

  /** A left move of a one-pool sweep: with the pool height raised to the
      lower end, the left end (the lower one, or either on a tie) is
      charged `pool - height`, which is its water and not negative. */
  lemma PoolLeft(t: seq<int>, l: nat, r: nat, pool: int, acc: int)
    requires PoolState(t, l, r, pool, acc) && l < r && t[l] <= t[r]
    ensures var pool' := Max(pool, Min(t[l], t[r]));
            pool' >= t[l] && PoolState(t, l + 1, r, pool', acc + (pool' - t[l]))
  {
    SweepLeft(t, l, r);
  }

  /** A right move of a one-pool sweep. */
  lemma PoolRight(t: seq<int>, l: nat, r: nat, pool: int, acc: int)
    requires PoolState(t, l, r, pool, acc) && l < r && t[r] <= t[l]
    ensures var pool' := Max(pool, Min(t[l], t[r]));
            pool' >= t[r] && PoolState(t, l, r - 1, pool', acc + (pool' - t[r]))
  {
    SweepRight(t, l, r);
  }

  /** The state of a two-maxima sweep: `leftMax` and `rightMax` are the
      highest consumed spots on each side (I64Min for none) and `acc` the
      water of the consumed spots. */
  predicate SidesState(t: seq<int>, l: nat, r: nat, leftMax: int, rightMax: int, acc: int) {
    && SweepInv(t, l, r)
    && leftMax == MaxOfPrefix(t, l)
    && rightMax == MaxOfSuffix(t, r + 1)
    && acc == PrefixWater(t, l) + SuffixWater(t, r + 1)
  }

  /** A left move of the two-maxima sweep: a spot above `leftMax` raises it
      and holds nothing, any other spot holds `leftMax - height`. */
  lemma LeftSideStep(t: seq<int>, l: nat, r: nat, leftMax: int, rightMax: int, acc: int)
    requires SidesState(t, l, r, leftMax, rightMax, acc) && l < r && t[l] <= t[r]
    ensures t[l] > leftMax ==> SidesState(t, l + 1, r, t[l], rightMax, acc)
    ensures t[l] <= leftMax ==> SidesState(t, l + 1, r, leftMax, rightMax, acc + (leftMax - t[l]))
  {
    SweepLeft(t, l, r);
    MaxOfPrefixNext(t, l);
  }

  /** A right move of the two-maxima sweep. */
  lemma RightSideStep(t: seq<int>, l: nat, r: nat, leftMax: int, rightMax: int, acc: int)
    requires SidesState(t, l, r, leftMax, rightMax, acc) && l < r && t[r] <= t[l]
    ensures t[r] > rightMax ==> SidesState(t, l, r - 1, leftMax, t[r], acc)
    ensures t[r] <= rightMax ==> SidesState(t, l, r - 1, leftMax, rightMax, acc + (rightMax - t[r]))
  {
    SweepRight(t, l, r);
    MaxOfSuffixNext(t, r);
  }

  /** Rust `trap`: one pool height, ties move the left pointer.
      `iterations` counts the loop's iterations. */
  method Trap(height: seq<int>) returns (trapped: nat, ghost iterations: nat)
    requires |height| > 0
    requires IsI64Terrain(height)
    ensures trapped == Water(height)
    ensures iterations == |height| - 1
  {
    var left: nat, right: nat := 0, |height| - 1;
    var poolHeight := I64Min;
    trapped, iterations := 0, 0;
    SweepStart(height);
    while left < right
      invariant PoolState(height, left, right, poolHeight, trapped)
      invariant iterations + (right - left) == |height| - 1
      decreases right - left
    {
      if height[left] <= height[right] {
        PoolLeft(height, left, right, poolHeight, trapped);
      } else {
        PoolRight(height, left, right, poolHeight, trapped);
      }
      poolHeight := Max(poolHeight, Min(height[left], height[right]));
      if height[left] <= height[right] {
        trapped := trapped + Max(0, poolHeight - height[left]) as nat;
        left := left + 1;
      } else {
        trapped := trapped + Max(0, poolHeight - height[right]) as nat;
        right := right - 1;
      }
      iterations := iterations + 1;
    }
    assert SweepInv(height, left, right);
    SweepTotal(height, left);
  }

  /** C++ `trap_cpp_dp`: one level, ties move the right pointer, and the
      charge `level - height[.]` goes into an unsigned accumulator without a
      clamp, so each charge must be non-negative on its own. */
  method TrapCppDp(height: seq<int>) returns (water: nat, ghost iterations: nat)
    requires |height| > 0
    requires IsI64Terrain(height)
    ensures water == Water(height)
    ensures iterations == |height| - 1
  {
    var l: nat, r: nat := 0, |height| - 1;
    var level := I64Min;
    water, iterations := 0, 0;
    SweepStart(height);
    while l < r
      invariant PoolState(height, l, r, level, water)
      invariant iterations + (r - l) == |height| - 1
      decreases r - l
    {
      if height[l] < height[r] {
        PoolLeft(height, l, r, level, water);
      } else {
        PoolRight(height, l, r, level, water);
      }
      level := Max(level, Min(height[l], height[r]));
      if height[l] < height[r] {
        water := water + (level - height[l]) as nat;
        l := l + 1;
      } else {
        water := water + (level - height[r]) as nat;
        r := r - 1;
      }
      iterations := iterations + 1;
    }
    assert SweepInv(height, l, r);
    SweepTotal(height, l);
  }

  /** Swift `rainCollected`: separate running maxima of the consumed left and
      right spots; a spot above its side's maximum raises it, any other spot
      is charged `max - height`, converted with `UInt64(...)`. */
  method RainCollected(heights: seq<int>) returns (collected: nat, ghost iterations: nat)
    requires |heights| > 0
    requires IsI64Terrain(heights)
    ensures collected == Water(heights)
    ensures iterations == |heights| - 1
  {
    var leftMax, rightMax := I64Min, I64Min;
    var left: nat, right: nat := 0, |heights| - 1;
    collected, iterations := 0, 0;
    SweepStart(heights);
    while left < right
      invariant SidesState(heights, left, right, leftMax, rightMax, collected)
      invariant iterations + (right - left) == |heights| - 1
      decreases right - left
    {
      if heights[left] < heights[right] {
        LeftSideStep(heights, left, right, leftMax, rightMax, collected);
        if heights[left] > leftMax {
          leftMax := heights[left];
        } else {
          collected := collected + (leftMax - heights[left]) as nat;
        }
        left := left + 1;
      } else {
        RightSideStep(heights, left, right, leftMax, rightMax, collected);
        if heights[right] > rightMax {
          rightMax := heights[right];
        } else {
          collected := collected + (rightMax - heights[right]) as nat;
        }
        right := right - 1;
      }
      iterations := iterations + 1;
    }
    assert SweepInv(heights, left, right);
    SweepTotal(heights, left);
  }
}
