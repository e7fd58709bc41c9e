/**
  The literal fixtures every implementation in the repository is tested
  against, stated on the reference `Water` and read through the strategies.
 */
module Fixtures {
  import opened Terrain
  import opened Reorder
  import opened MaxSplit
  import opened StairFold
  import opened Peaks

  /** Shared fixture `terrain1`. */
  lemma Terrain1()
    ensures Water([0, 0, 0, 0, 0]) == 0
  {
    var t := [0, 0, 0, 0, 0];
    assert MaxUpTo(t, 0) == 0 && MaxUpTo(t, 1) == 0 && MaxUpTo(t, 2) == 0 && MaxUpTo(t, 3) == 0
        && MaxUpTo(t, 4) == 0;
    assert MaxFrom(t, 4) == 0 && MaxFrom(t, 3) == 0 && MaxFrom(t, 2) == 0 && MaxFrom(t, 1) == 0
        && MaxFrom(t, 0) == 0;
    assert PrefixWater(t, 1) == 0 && PrefixWater(t, 2) == 0 && PrefixWater(t, 3) == 0 && PrefixWater(t, 4) == 0
        && PrefixWater(t, 5) == 0;
    assert Water(t) == PrefixWater(t, 5);
  }

  /** Shared fixture `terrain2`. */
  lemma Terrain2()
    ensures Water([1, 2, 3, 4, 5]) == 0
  {
    var t := [1, 2, 3, 4, 5];
    assert MaxUpTo(t, 0) == 1 && MaxUpTo(t, 1) == 2 && MaxUpTo(t, 2) == 3 && MaxUpTo(t, 3) == 4
        && MaxUpTo(t, 4) == 5;
    assert MaxFrom(t, 4) == 5 && MaxFrom(t, 3) == 5 && MaxFrom(t, 2) == 5 && MaxFrom(t, 1) == 5
        && MaxFrom(t, 0) == 5;
    assert PrefixWater(t, 1) == 0 && PrefixWater(t, 2) == 0 && PrefixWater(t, 3) == 0 && PrefixWater(t, 4) == 0
        && PrefixWater(t, 5) == 0;
    assert Water(t) == PrefixWater(t, 5);
  }

  /** Shared fixture `terrain3`. */
  lemma Terrain3()
    ensures Water([5, 4, 3, 2, 1]) == 0
  {
    var t := [5, 4, 3, 2, 1];
    assert MaxUpTo(t, 0) == 5 && MaxUpTo(t, 1) == 5 && MaxUpTo(t, 2) == 5 && MaxUpTo(t, 3) == 5
        && MaxUpTo(t, 4) == 5;
    assert MaxFrom(t, 4) == 1 && MaxFrom(t, 3) == 2 && MaxFrom(t, 2) == 3 && MaxFrom(t, 1) == 4
        && MaxFrom(t, 0) == 5;
    assert PrefixWater(t, 1) == 0 && PrefixWater(t, 2) == 0 && PrefixWater(t, 3) == 0 && PrefixWater(t, 4) == 0
        && PrefixWater(t, 5) == 0;
    assert Water(t) == PrefixWater(t, 5);
  }

  /** Shared fixture `terrain4`. */
  lemma Terrain4()
    ensures Water([1, 2, 3, 2, 1]) == 0
  {
    var t := [1, 2, 3, 2, 1];
    assert MaxUpTo(t, 0) == 1 && MaxUpTo(t, 1) == 2 && MaxUpTo(t, 2) == 3 && MaxUpTo(t, 3) == 3
        && MaxUpTo(t, 4) == 3;
    assert MaxFrom(t, 4) == 1 && MaxFrom(t, 3) == 2 && MaxFrom(t, 2) == 3 && MaxFrom(t, 1) == 3
        && MaxFrom(t, 0) == 3;
    assert PrefixWater(t, 1) == 0 && PrefixWater(t, 2) == 0 && PrefixWater(t, 3) == 0 && PrefixWater(t, 4) == 0
        && PrefixWater(t, 5) == 0;
    assert Water(t) == PrefixWater(t, 5);
  }

  /** Shared fixture `terrain5`. */
  lemma Terrain5()
    ensures Water([1, 2, 3, 2, 4, 1]) == 1
  {
    var t := [1, 2, 3, 2, 4, 1];
    assert MaxUpTo(t, 0) == 1 && MaxUpTo(t, 1) == 2 && MaxUpTo(t, 2) == 3 && MaxUpTo(t, 3) == 3
        && MaxUpTo(t, 4) == 4 && MaxUpTo(t, 5) == 4;
    assert MaxFrom(t, 5) == 1 && MaxFrom(t, 4) == 4 && MaxFrom(t, 3) == 4 && MaxFrom(t, 2) == 4
        && MaxFrom(t, 1) == 4 && MaxFrom(t, 0) == 4;
    assert PrefixWater(t, 1) == 0 && PrefixWater(t, 2) == 0 && PrefixWater(t, 3) == 0 && PrefixWater(t, 4) == 1
        && PrefixWater(t, 5) == 1 && PrefixWater(t, 6) == 1;
    assert Water(t) == PrefixWater(t, 6);
  }

  /** Shared fixture `terrain6`. */
  lemma Terrain6()
    ensures Water([1, 4, 2, 5, 3, 6, 4, 7]) == 6
  {
    var t := [1, 4, 2, 5, 3, 6, 4, 7];
    assert MaxUpTo(t, 0) == 1 && MaxUpTo(t, 1) == 4 && MaxUpTo(t, 2) == 4 && MaxUpTo(t, 3) == 5
        && MaxUpTo(t, 4) == 5 && MaxUpTo(t, 5) == 6 && MaxUpTo(t, 6) == 6 && MaxUpTo(t, 7) == 7;
    assert MaxFrom(t, 7) == 7 && MaxFrom(t, 6) == 7 && MaxFrom(t, 5) == 7 && MaxFrom(t, 4) == 7
        && MaxFrom(t, 3) == 7 && MaxFrom(t, 2) == 7 && MaxFrom(t, 1) == 7 && MaxFrom(t, 0) == 7;
    assert PrefixWater(t, 1) == 0 && PrefixWater(t, 2) == 0 && PrefixWater(t, 3) == 2 && PrefixWater(t, 4) == 2
        && PrefixWater(t, 5) == 4 && PrefixWater(t, 6) == 4 && PrefixWater(t, 7) == 6 && PrefixWater(t, 8) == 6;
    assert Water(t) == PrefixWater(t, 8);
  }

  /** Shared fixture `terrain7`. */
  lemma Terrain7()
    ensures Water([2, 1, 2]) == 1
  {
    var t := [2, 1, 2];
    assert MaxUpTo(t, 0) == 2 && MaxUpTo(t, 1) == 2 && MaxUpTo(t, 2) == 2;
    assert MaxFrom(t, 2) == 2 && MaxFrom(t, 1) == 2 && MaxFrom(t, 0) == 2;
    assert PrefixWater(t, 1) == 0 && PrefixWater(t, 2) == 1 && PrefixWater(t, 3) == 1;
    assert Water(t) == PrefixWater(t, 3);
  }

  /** Shared fixture `terrain8`. */
  lemma Terrain8()
    ensures Water([5, 4, 2, 6, 6, 6, 4, 5]) == 5
  {
    var t := [5, 4, 2, 6, 6, 6, 4, 5];
    assert MaxUpTo(t, 0) == 5 && MaxUpTo(t, 1) == 5 && MaxUpTo(t, 2) == 5 && MaxUpTo(t, 3) == 6
        && MaxUpTo(t, 4) == 6 && MaxUpTo(t, 5) == 6 && MaxUpTo(t, 6) == 6 && MaxUpTo(t, 7) == 6;
    assert MaxFrom(t, 7) == 5 && MaxFrom(t, 6) == 5 && MaxFrom(t, 5) == 6 && MaxFrom(t, 4) == 6
        && MaxFrom(t, 3) == 6 && MaxFrom(t, 2) == 6 && MaxFrom(t, 1) == 6 && MaxFrom(t, 0) == 6;
    assert PrefixWater(t, 1) == 0 && PrefixWater(t, 2) == 1 && PrefixWater(t, 3) == 4 && PrefixWater(t, 4) == 4
        && PrefixWater(t, 5) == 4 && PrefixWater(t, 6) == 4 && PrefixWater(t, 7) == 5 && PrefixWater(t, 8) == 5;
    assert Water(t) == PrefixWater(t, 8);
  }

  /** Shared fixture `terrain9`. */
  lemma Terrain9()
    ensures Water([0, 1, -1, 2, 1, 0, 1, 3, 2, 1, 2, 1]) == 7
  {
    var t := [0, 1, -1, 2, 1, 0, 1, 3, 2, 1, 2, 1];
    assert MaxUpTo(t, 0) == 0 && MaxUpTo(t, 1) == 1 && MaxUpTo(t, 2) == 1 && MaxUpTo(t, 3) == 2
        && MaxUpTo(t, 4) == 2 && MaxUpTo(t, 5) == 2 && MaxUpTo(t, 6) == 2 && MaxUpTo(t, 7) == 3
        && MaxUpTo(t, 8) == 3 && MaxUpTo(t, 9) == 3 && MaxUpTo(t, 10) == 3 && MaxUpTo(t, 11) == 3;
    assert MaxFrom(t, 11) == 1 && MaxFrom(t, 10) == 2 && MaxFrom(t, 9) == 2 && MaxFrom(t, 8) == 2
        && MaxFrom(t, 7) == 3 && MaxFrom(t, 6) == 3 && MaxFrom(t, 5) == 3 && MaxFrom(t, 4) == 3
        && MaxFrom(t, 3) == 3 && MaxFrom(t, 2) == 3 && MaxFrom(t, 1) == 3 && MaxFrom(t, 0) == 3;
    assert PrefixWater(t, 1) == 0 && PrefixWater(t, 2) == 0 && PrefixWater(t, 3) == 2 && PrefixWater(t, 4) == 2
        && PrefixWater(t, 5) == 3 && PrefixWater(t, 6) == 5 && PrefixWater(t, 7) == 6 && PrefixWater(t, 8) == 6
        && PrefixWater(t, 9) == 6 && PrefixWater(t, 10) == 7 && PrefixWater(t, 11) == 7 && PrefixWater(t, 12) == 7;
    assert Water(t) == PrefixWater(t, 12);
  }

  /** Shared fixture `terrain10`. */
  lemma Terrain10()
    ensures Water([4, 2, 0, 3, 2, 5]) == 9
  {
    var t := [4, 2, 0, 3, 2, 5];
    assert MaxUpTo(t, 0) == 4 && MaxUpTo(t, 1) == 4 && MaxUpTo(t, 2) == 4 && MaxUpTo(t, 3) == 4
        && MaxUpTo(t, 4) == 4 && MaxUpTo(t, 5) == 5;
    assert MaxFrom(t, 5) == 5 && MaxFrom(t, 4) == 5 && MaxFrom(t, 3) == 5 && MaxFrom(t, 2) == 5
        && MaxFrom(t, 1) == 5 && MaxFrom(t, 0) == 5;
    assert PrefixWater(t, 1) == 0 && PrefixWater(t, 2) == 2 && PrefixWater(t, 3) == 6 && PrefixWater(t, 4) == 7
        && PrefixWater(t, 5) == 9 && PrefixWater(t, 6) == 9;
    assert Water(t) == PrefixWater(t, 6);
  }

  /** Shared fixture `terrain11`. */
  lemma Terrain11()
    ensures Water([0, -6, 0, -2, 8, -9, 0, 8, 9, -5]) == 33
  {
    var t := [0, -6, 0, -2, 8, -9, 0, 8, 9, -5];
    assert MaxUpTo(t, 0) == 0 && MaxUpTo(t, 1) == 0 && MaxUpTo(t, 2) == 0 && MaxUpTo(t, 3) == 0
        && MaxUpTo(t, 4) == 8 && MaxUpTo(t, 5) == 8 && MaxUpTo(t, 6) == 8 && MaxUpTo(t, 7) == 8
        && MaxUpTo(t, 8) == 9 && MaxUpTo(t, 9) == 9;
    assert MaxFrom(t, 9) == -5 && MaxFrom(t, 8) == 9 && MaxFrom(t, 7) == 9 && MaxFrom(t, 6) == 9
        && MaxFrom(t, 5) == 9 && MaxFrom(t, 4) == 9 && MaxFrom(t, 3) == 9 && MaxFrom(t, 2) == 9
        && MaxFrom(t, 1) == 9 && MaxFrom(t, 0) == 9;
    assert PrefixWater(t, 1) == 0 && PrefixWater(t, 2) == 6 && PrefixWater(t, 3) == 6 && PrefixWater(t, 4) == 8
        && PrefixWater(t, 5) == 8 && PrefixWater(t, 6) == 25 && PrefixWater(t, 7) == 33 && PrefixWater(t, 8) == 33
        && PrefixWater(t, 9) == 33 && PrefixWater(t, 10) == 33;
    assert Water(t) == PrefixWater(t, 10);
  }


  /** `max_element` on `terrain11` finds the 9 at index 8. */
  lemma Terrain11FirstMax()
    ensures FirstMaxIndex([0, -6, 0, -2, 8, -9, 0, 8, 9, -5], 10) == 8
  {
    var t := [0, -6, 0, -2, 8, -9, 0, 8, 9, -5];
    assert FirstMaxIndex(t, 1) == 0 && FirstMaxIndex(t, 2) == 0 && FirstMaxIndex(t, 3) == 0 && FirstMaxIndex(t, 4) == 0 && FirstMaxIndex(t, 5) == 4
        && FirstMaxIndex(t, 6) == 4 && FirstMaxIndex(t, 7) == 4 && FirstMaxIndex(t, 8) == 4 && FirstMaxIndex(t, 9) == 8 && FirstMaxIndex(t, 10) == 8;
  }

  /** The upward loop with `acc` starting at 0 over the spots left of index 8. */
  lemma Terrain11LeftLoop()
    ensures Fold([0, -6, 0, -2, 8, -9, 0, 8], Stair(0, 0)) == Stair(8, 33)
  {
  }

  /** The downward loop with `acc` starting at 0 over indices 9 and 8: the
      last spot, at -5, is charged against 0. */
  lemma Terrain11RightLoop()
    ensures RFold([9, -5], Stair(0, 0)) == Stair(9, 5)
  {
  }

  /** The two loops of the C++ `compute_rain_collected` as written on
      `terrain11`, with `acc` starting at 0 and the split at index 8. */
  lemma Terrain11Split()
    ensures SplitFolds([0, -6, 0, -2, 8, -9, 0, 8, 9, -5], 0, 8) == 38
  {
    Terrain11LeftLoop();
    Terrain11RightLoop();
    var t := [0, -6, 0, -2, 8, -9, 0, 8, 9, -5];
    assert t[..8] == [0, -6, 0, -2, 8, -9, 0, 8];
    assert t[8..] == [9, -5];
  }

  /** The shared fixture `terrain11` through the C++ `compute_rain_collected`
      as written: `max_element` splits at index 8 and the loops, with `acc`
      starting at 0, give 38 where the terrain holds 33. */
  lemma Terrain11AccZero()
    ensures FirstMaxIndex([0, -6, 0, -2, 8, -9, 0, 8, 9, -5], 10) == 8
    ensures SplitFolds([0, -6, 0, -2, 8, -9, 0, 8, 9, -5], 0, 8) == 38
    ensures Water([0, -6, 0, -2, 8, -9, 0, 8, 9, -5]) == 33
  {
    Terrain11FirstMax();
    Terrain11Split();
    Terrain11();
  }

  /** C++ driver fixture. */
  lemma CppFlat()
    ensures Water([3, 3, 3, 3, 3]) == 0
  {
    var t := [3, 3, 3, 3, 3];
    assert MaxUpTo(t, 0) == 3 && MaxUpTo(t, 1) == 3 && MaxUpTo(t, 2) == 3 && MaxUpTo(t, 3) == 3
        && MaxUpTo(t, 4) == 3;
    assert MaxFrom(t, 4) == 3 && MaxFrom(t, 3) == 3 && MaxFrom(t, 2) == 3 && MaxFrom(t, 1) == 3
        && MaxFrom(t, 0) == 3;
    assert PrefixWater(t, 1) == 0 && PrefixWater(t, 2) == 0 && PrefixWater(t, 3) == 0 && PrefixWater(t, 4) == 0
        && PrefixWater(t, 5) == 0;
    assert Water(t) == PrefixWater(t, 5);
  }

  /** C++ driver fixture. */
  lemma CppBasin()
    ensures Water([3, 0, 1, 0, 3]) == 8
  {
    var t := [3, 0, 1, 0, 3];
    assert MaxUpTo(t, 0) == 3 && MaxUpTo(t, 1) == 3 && MaxUpTo(t, 2) == 3 && MaxUpTo(t, 3) == 3
        && MaxUpTo(t, 4) == 3;
    assert MaxFrom(t, 4) == 3 && MaxFrom(t, 3) == 3 && MaxFrom(t, 2) == 3 && MaxFrom(t, 1) == 3
        && MaxFrom(t, 0) == 3;
    assert PrefixWater(t, 1) == 0 && PrefixWater(t, 2) == 3 && PrefixWater(t, 3) == 5 && PrefixWater(t, 4) == 8
        && PrefixWater(t, 5) == 8;
    assert Water(t) == PrefixWater(t, 5);
  }

  /** C++ driver fixture. */
  lemma CppTwoBasins()
    ensures Water([1, 0, 2, 0, 1]) == 2
  {
    var t := [1, 0, 2, 0, 1];
    assert MaxUpTo(t, 0) == 1 && MaxUpTo(t, 1) == 1 && MaxUpTo(t, 2) == 2 && MaxUpTo(t, 3) == 2
        && MaxUpTo(t, 4) == 2;
    assert MaxFrom(t, 4) == 1 && MaxFrom(t, 3) == 1 && MaxFrom(t, 2) == 2 && MaxFrom(t, 1) == 2
        && MaxFrom(t, 0) == 2;
    assert PrefixWater(t, 1) == 0 && PrefixWater(t, 2) == 1 && PrefixWater(t, 3) == 1 && PrefixWater(t, 4) == 2
        && PrefixWater(t, 5) == 2;
    assert Water(t) == PrefixWater(t, 5);
  }

  /** The C++ driver also checks the empty terrain. */
  lemma CppEmpty()
    ensures Water([]) == 0
  {
    ShortTerrainHoldsNothing([]);
  }

  /** The documentation example: `compute_rain_collected` and
      `compute_rain_collected3` give 6 for [1, 4, 2, 5, 3, 6, 4, 7]. */
  lemma DocExample()
    ensures ComputeRainCollected([1, 4, 2, 5, 3, 6, 4, 7]) == 6
    ensures ComputeRainCollected3([1, 4, 2, 5, 3, 6, 4, 7]) == 6
  {
    Terrain6();
    ComputeRainCollectedIsWater([1, 4, 2, 5, 3, 6, 4, 7]);
    ComputeRainCollected3IsWater([1, 4, 2, 5, 3, 6, 4, 7]);
  }
}
