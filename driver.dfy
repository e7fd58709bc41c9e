/**
  The comparison the Rust driver makes between its two local solutions on a
  generated terrain. The generation, timing and printing are not modelled;
  the terrain is a parameter.
 */
module Driver {
  import opened Terrain
  import opened Reorder
  import opened TwoPointer

  /** `main` computes `t1 = trap(&terrain)` (reorder and fold) and
      `t2 = trap2(&terrain)` (two pointers) and reports when they differ.
      On every non-empty terrain they are equal, so the report is never
      made. */
  method CompareTraps(terrain: seq<int>) returns (t1: nat, t2: nat, different: bool)
    requires |terrain| > 0 && IsI64Terrain(terrain)
    ensures t1 == Water(terrain) && t2 == Water(terrain)
    ensures !different
  {
    t1 := ComputeRainCollected(terrain);
    ComputeRainCollectedIsWater(terrain);
    ghost var iterations;
    t2, iterations := Trap(terrain);
    different := t1 != t2;
  }
}
