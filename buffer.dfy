/**
  The prefix/suffix-maximum buffer strategy of the C++ `trap` / `trap_cpp`.

  A buffer `u` of the terrain's length is filled in place by two
  `inclusive_scan`s with `max`: from the left over v[0..idx] and from the
  right over v[idx..n-1], idx being the first maximum `max_element` finds.
  Each u[i] is then the water level over spot i, and the answer is the sum of
  u[i] - v[i] computed by `transform_reduce`.
 */
module PrefixSuffixBuffer {
  import opened Terrain
  import opened Peaks

  /** `inclusive_scan(begin(v), begin(v) + last + 1, begin(u), max)`: u[j]
      becomes the running maximum of v[0..j] for j <= last; the rest of u is
      untouched. */
  method ScanMaxForward(v: seq<int>, last: nat, u: array<int>)
    requires last < |v| == u.Length
    modifies u
    ensures forall j :: 0 <= j <= last ==> u[j] == MaxUpTo(v, j)
    ensures forall j :: last < j < u.Length ==> u[j] == old(u[j])
  {
    var acc := v[0];
    u[0] := acc;
    var i := 1;
    while i <= last
      invariant 1 <= i <= last + 1
      invariant acc == MaxUpTo(v, i - 1)
      invariant forall j :: 0 <= j < i ==> u[j] == MaxUpTo(v, j)
      invariant forall j :: last < j < u.Length ==> u[j] == old(u[j])
    {
      acc := Max(acc, v[i]);
      u[i] := acc;
      i := i + 1;
    }
  }

  /** `inclusive_scan(rbegin(v), reverse_iterator(begin(v) + first),
      rbegin(u), max)`: u[j] becomes the running maximum of v[j..n-1] for
      j >= first; the rest of u is untouched. */
  method ScanMaxBackward(v: seq<int>, first: nat, u: array<int>)
    requires first < |v| == u.Length
    modifies u
    ensures forall j :: first <= j < u.Length ==> u[j] == MaxFrom(v, j)
    ensures forall j :: 0 <= j < first ==> u[j] == old(u[j])
  {
    var n := |v|;
    var acc := v[n - 1];
    u[n - 1] := acc;
    var k := n - 2;
    while k >= first
      invariant first - 1 <= k <= n - 2
      invariant acc == MaxFrom(v, k + 1)
      invariant forall j :: k < j < n ==> u[j] == MaxFrom(v, j)
      invariant forall j :: 0 <= j < first ==> u[j] == old(u[j])
    {
      acc := Max(acc, v[k]);
      u[k] := acc;
      k := k - 1;
    }
  }

  /** The sum of us[i] - v[i] over i < k. */
  function SumOfDifferences(us: seq<int>, v: seq<int>, k: nat): int
    requires k <= |us| == |v|
  {
    if k == 0 then 0 else SumOfDifferences(us, v, k - 1) + (us[k - 1] - v[k - 1])
  }

  /** `transform_reduce(cbegin(u), cend(u), cbegin(v), 0, plus<>(), minus<>())`. */
  method TransformReduce(u: array<int>, v: seq<int>) returns (sum: int)
    requires u.Length == |v|
    ensures sum == SumOfDifferences(u[..], v, |v|)
  {
    sum := 0;
    var m := 0;
    while m < u.Length
      invariant 0 <= m <= u.Length
      invariant sum == SumOfDifferences(u[..], v, m)
    {
      sum := sum + (u[m] - v[m]);
      m := m + 1;
    }
  }

  /** A buffer holding the level over every spot sums to the water. */
  lemma {:induction false} LevelsSumToWater(us: seq<int>, v: seq<int>, k: nat)
    requires k <= |us| == |v|
    requires forall j :: 0 <= j < |v| ==> us[j] == Level(v, j)
    ensures SumOfDifferences(us, v, k) == PrefixWater(v, k)
  {
    if k > 0 {
      LevelsSumToWater(us, v, k - 1);
    }
  }

  /** C++ `trap_cpp` (and the identical `trap` copies): 0 for fewer than three
      spots, otherwise the sum of the buffer's levels minus the elevations.
      After both scans every u[i] is the level over spot i, so u[i] >= v[i]
      and no term of the sum is negative. */
  method TrapCpp(v: seq<int>) returns (water: nat)
    ensures water == Water(v)
  {
    var n := |v|;
    if n < 3 {
      ShortTerrainHoldsNothing(v);
      return 0;
    }

    var u := new int[n](_ => 0);
    var it := MaxElement(v);
    ScanMaxForward(v, it, u);
    ScanMaxBackward(v, it, u);

    forall j | 0 <= j < n
      ensures u[j] == Level(v, j) >= v[j]
    {
      PeakLevel(v, it, j);
    }

    var sum := TransformReduce(u, v);
    LevelsSumToWater(u[..], v, n);
    water := sum;
  }
}
