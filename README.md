# rain_collected in Dafny

This project models rain_collected, a repository that computes one quantity many times over, in Rust, C++ and Swift. The quantity is the rain water trapped by a terrain, which is a sequence of signed 64-bit elevations. Spot `i` holds `min(max t[0..i], max t[i..n-1]) - t[i]` units. The terrain's water is the sum over all spots.

The model states this once, as the reference function `Terrain.Water`. It then models each of the repository's four strategies in the form its source takes, and proves that each one computes `Water`:

- **Two-pointer sweep** (`TwoPointer`). This covers Rust `trap`, `trap_v`, `trap_unsafe` and src/main.rs `trap2`, C++ `trap_cpp_dp`, and Swift `rainCollected`.
  - These are imperative `while left < right` loops. Each one is a Dafny method whose loop invariant ties the running maximum or maxima and the accumulator to the reference.
  - A ghost out-parameter counts the iterations, which are exactly `n - 1`.
  - Rust moves the left pointer on ties (`<=`), while C++ and Swift move the right one (`<`). Both are proved to give the same result.
- **Reorder and fold** (`Reorder`, over `StairFold`). This covers Rust `compute_rain_collected`, `compute_rain_collected2`/`_v` and src/main.rs `trap`.
  - The double-ended iterator and its `scan` state are a recursive function over the iterator's `(lo, hi)` window and the two held values.
  - The fold over the emitted values is the stair fold `StairFold.Fold`.
  - `Reorder.ReorderKeepsWater` proves two facts about the reordering. First, it emits `n - 1` values. Second, those values plus the one left in the scan state are a permutation of the terrain, with a maximum last, and that permutation traps the same water as the terrain.
- **Max split** (`MaxSplit`, over `StairFold` and `Peaks`). This covers Rust `compute_rain_collected3` and C++ `compute_rain_collected`.
  - The Rust version is a pure function: `max_by_key` picks the last maximum, followed by `fold` and `rfold`.
  - The C++ version is two `for` loops around the first maximum `max_element` finds.
- **Prefix/suffix-maximum buffer** (`PrefixSuffixBuffer`). This covers the four C++ copies of `trap`/`trap_cpp`.
  - An `array` is filled in place by two `inclusive_scan`s with `max`, which meet at the first maximum. Then `transform_reduce` sums `u[i] - v[i]`.

Around these modules:

- `Driver` models the comparison `main` in src/main.rs makes between `trap` and `trap2`.
- `Fixtures` states the literal test terrains of every source file on `Water`, so they hold for every strategy proved equal to `Water`. The C++ `compute_rain_collected` as written is not one of them: on the shared fixture `terrain11` its loops give 38 where the terrain holds 33 (`Fixtures.Terrain11AccZero`).

Duplicated code is modelled once:

| source function | modelled by |
|---|---|
| `trap`, `trap_v`, `trap_unsafe` (src/lib.rs, trap_rust/src/lib.rs), src/main.rs `trap2` | `TwoPointer.Trap` |
| `compute_rain_collected`, `compute_rain_collected2`, `compute_rain_collected_v`, src/main.rs `trap` | `Reorder.ComputeRainCollected` |
| `compute_rain_collected3` (both Rust files) | `MaxSplit.ComputeRainCollected3` |
| `trap_cpp_dp` (trap_cpp/trap.cpp, src/trap.cpp) | `TwoPointer.TrapCppDp` |
| `trap` (trap.cpp, trap/trap.cpp), `trap_cpp` (trap_cpp/trap.cpp, src/trap.cpp) | `PrefixSuffixBuffer.TrapCpp` |
| `compute_rain_collected` (trap_cpp/trap.cpp) | `MaxSplit.ComputeRainCollectedCpp` |
| `rainCollected` (trap_swift/rain_collected.swift) | `TwoPointer.RainCollected` |

Some variants differ only in ownership. `trap_v` consumes a `Vec` where `trap` borrows a slice, `trap_unsafe` uses unchecked indexing, and src/main.rs copies values with `.copied()`. These variants have the same bodies, so each pair is modelled by one member.

Elevations are mathematical integers. Every variant that starts a running maximum at `i64::MIN`, `LONG_MIN` or `Int64.min` requires `Terrain.IsI64Terrain`, which says the elevations fit the element type. The casts `as u64` and `UInt64(...)` are modelled as `as nat`, so the verifier proves that every amount added is non-negative.

## Model

| member | source | states |
|---|---|---|
| Terrain.Water | src/lib.rs:19-33 | no contract of its own: the sum over all spots of the level less the elevation; specified by `Terrain.Level`, `Terrain.WaterSplit` and `Terrain.WaterReverse` |
| Terrain.MaxUpTo | src/lib.rs:19-33 | the highest elevation of spots 0..i is at least t[i] |
| Terrain.MaxFrom | src/lib.rs:19-33 | the highest elevation of spots i..n-1 is at least t[i] |
| Terrain.MaxUpToBound | src/lib.rs:19-33 | every spot 0..i is at or below MaxUpTo(t, i) |
| Terrain.MaxFromBound | src/lib.rs:19-33 | every spot i..n-1 is at or below MaxFrom(t, i) |
| Terrain.MaxUpToAttained | src/lib.rs:19-33 | MaxUpTo(t, i) is the elevation of some spot 0..i |
| Terrain.MaxFromAttained | src/lib.rs:19-33 | MaxFrom(t, i) is the elevation of some spot i..n-1 |
| Terrain.MaxUpToMonotone | src/lib.rs:19-33 | the left maximum never falls from left to right |
| Terrain.MaxFromMonotone | src/lib.rs:19-33 | the right maximum never rises from left to right |
| Terrain.Level | src/lib.rs:19-33 | the water level over a spot is at least its elevation and at most both its left and right maxima, so no spot holds a negative amount |
| Terrain.WaterSplit | src/lib.rs:19-33 | the water of a terrain is the water of spots before k plus the water of spots from k on, for every split k |
| Terrain.EndsHoldNothing | src/lib.rs:19-33 | the first and last spots hold no water |
| Terrain.ShortTerrainHoldsNothing | trap.cpp:13-16 | a terrain of fewer than three spots holds no water |
| Terrain.PeakLevel | trap.cpp:20-33 | left of a highest spot the level is the left maximum; right of it, the right maximum |
| Terrain.MaxOfPrefixNext | trap_swift/rain_collected.swift:6-7 | a running maximum started at Int64.min and extended by t[k] is the maximum of spots 0..k |
| Terrain.MaxOfSuffixNext | trap_swift/rain_collected.swift:6-7 | a running maximum started at Int64.min and extended from the right by t[k] is the maximum of spots k..n-1 |
| Terrain.Reverse | src/lib.rs:19-33 | the reversed terrain has the same length and holds spot n-1-i at spot i |
| Terrain.ReverseI64 | src/lib.rs:19-33 | reversing keeps every elevation in the i64 range |
| Terrain.MaxUpToReverse | src/lib.rs:19-33 | the left maximum at spot i of the reversed terrain is the right maximum at spot n-1-i of the terrain |
| Terrain.MaxFromReverse | src/lib.rs:19-33 | the right maximum at spot i of the reversed terrain is the left maximum at spot n-1-i of the terrain |
| Terrain.SpotReverse | src/lib.rs:19-33 | spot i of the reversed terrain holds what spot n-1-i of the terrain holds |
| Terrain.PrefixWaterReverse | src/lib.rs:19-33 | the first k spots of the reversed terrain hold what the last k spots of the terrain hold |
| Terrain.WaterReverse | src/lib.rs:19-33 | a terrain and its mirror image hold the same water |
| Terrain.DrySpotsNoWater | src/lib.rs:19-33 | when no spot before k holds water, the spots before k hold 0 in total |
| Terrain.RisingHoldsNothing | src/lib.rs:285-286 | a non-decreasing terrain holds no water |
| Terrain.MonotoneHoldsNothing | src/lib.rs:285-290 | a non-decreasing or non-increasing terrain holds no water |
| Sweep.SweepStart | src/lib.rs:185-187 | with both pointers at the ends and nothing consumed, the sweep invariant holds and the consumed maximum is i64::MIN |
| Sweep.SweepLeft | src/lib.rs:190-193 | when h[left] <= h[right], the consumed maximum raised by min(h[left], h[right]) is the level over spot left, so the amount charged is that spot's water, and the invariant holds for left + 1 |
| Sweep.SweepRight | src/lib.rs:190-197 | when h[right] <= h[left], the consumed maximum raised by min(h[left], h[right]) is the level over spot right, so the amount charged is that spot's water, and the invariant holds for right - 1 |
| Sweep.SweepMeet | src/lib.rs:189 | where the pointers meet stands a highest spot, which holds no water |
| Sweep.SweepTotal | src/lib.rs:189-200 | when the pointers meet, the water charged to the left part and to the right part is the terrain's water |
| TwoPointer.PoolLeft | src/lib.rs:190-193 | a left step of `trap` charges a non-negative amount and keeps the pool height equal to the consumed maximum and the total equal to the water of the consumed spots |
| TwoPointer.PoolRight | src/lib.rs:190-197 | a right step of `trap` does the same for the right pointer |
| TwoPointer.Trap | src/lib.rs:184-201 | on a non-empty i64 terrain, `trap` returns the water after exactly n - 1 iterations (ties move the left pointer) |
| TwoPointer.TrapCppDp | trap_cpp/trap.cpp:46-61 | on a non-empty terrain, `trap_cpp_dp` returns the water after exactly n - 1 iterations, although ties move the right pointer |
| TwoPointer.LeftSideStep | trap_swift/rain_collected.swift:13-19 | a left step of `rainCollected` either raises leftMax to the new highest elevation and adds nothing, or adds leftMax - heights[left] >= 0; either way leftMax stays the maximum of the consumed prefix and the total stays the water of the consumed spots |
| TwoPointer.RightSideStep | trap_swift/rain_collected.swift:20-26 | the same for a right step with rightMax |
| TwoPointer.RainCollected | trap_swift/rain_collected.swift:5-31 | on a non-empty terrain, `rainCollected` returns the water after exactly n - 1 iterations |
| StairFold.Climb | src/lib.rs:83-86 | a fold step's stepsize is at least both the spot and the previous stepsize, and the water never decreases |
| StairFold.Fold | src/lib.rs:78-87 | no contract of its own: `Iterator::fold` with the stair step, first element first; specified by `StairFold.FoldCons`, `StairFold.FoldSnoc`, `StairFold.FoldLeftOfPeak` and `StairFold.FoldPeakLast` |
| StairFold.RFold | src/lib.rs:172-178 | no contract of its own: `rfold` with the stair step, last element first; specified by `StairFold.RFoldCons` and `StairFold.RFoldRightOfPeak` |
| StairFold.FoldCons | src/lib.rs:78-87 | folding x before xs is folding xs from the stair after x |
| StairFold.FoldSnoc | src/lib.rs:78-87 | folding xs then x is one more step after folding xs |
| StairFold.RFoldCons | src/lib.rs:174-177 | `rfold` over x before xs takes the step for x after folding xs |
| StairFold.FoldPrefixNext | trap_cpp/trap.cpp:86-89 | extending the upward loop by spot i is one fold step |
| StairFold.RFoldSuffixNext | trap_cpp/trap.cpp:93-96 | extending the downward loop by spot i is one fold step |
| StairFold.FoldLeftOfPeak | src/lib.rs:155-168 | left of a highest spot, the forward fold tracks the running maximum and collects the water of the spots it passes |
| StairFold.RFoldRightOfPeak | src/lib.rs:172-178 | from a highest spot on, the `rfold` tracks the running maximum from the right and collects the water of the spots it passes |
| StairFold.FoldStartBelow | trap_cpp/trap.cpp:84 | the start stepsize of a fold does not matter as long as it is not above the first spot |
| StairFold.RFoldStartBelow | trap_cpp/trap.cpp:92 | the same for `rfold` and the last spot |
| StairFold.FoldPeakLast | src/lib.rs:71-77 | on a terrain whose last spot is a maximum, the forward fold from i64::MIN collects the terrain's water |
| Peaks.FirstMaxIndex | trap_cpp/trap.cpp:18 | the index is of a maximum, and every earlier spot is strictly lower (the first maximum, as `max_element` finds) |
| Peaks.LastMaxIndex | src/lib.rs:144-149 | the index is of a maximum, and every later spot is strictly lower (the last maximum, as `max_by_key` finds) |
| Peaks.MaxElement | trap_cpp/trap.cpp:18 | `max_element` returns the end position of an empty range and otherwise the first maximum, which is a highest spot |
| MaxSplit.SplitFolds | src/lib.rs:151-180 | no contract of its own: the fold of the spots before p plus the `rfold` of the rest, both from the given start stepsize; specified by `MaxSplit.SplitFoldsAtPeak` |
| MaxSplit.ComputeRainCollected3 | src/lib.rs:134-181 | no contract of its own; specified by `MaxSplit.ComputeRainCollected3IsWater` and `MaxSplit.ComputeRainCollected3Symmetric` |
| MaxSplit.SplitFoldsAtPeak | src/lib.rs:144-180 | splitting at any highest spot, the fold of the part before it plus the `rfold` of the rest is the water, for any start stepsize not above the two end spots |
| MaxSplit.ComputeRainCollected3IsWater | src/lib.rs:134-181 | `compute_rain_collected3` is the terrain's water, and 0 for fewer than three spots |
| MaxSplit.FoldsAroundFirstPeak | trap_cpp/trap.cpp:75-99 | the two loops of C++ `compute_rain_collected` compute the fold over [0, idx) plus the `rfold` over [idx, n), each starting from `acc`, at the first maximum idx; 0 for fewer than three spots |
| MaxSplit.ComputeRainCollectedCpp | trap_cpp/trap.cpp:75-99 | as written, with `acc = 0`: the two folds split at the first maximum with start stepsize 0, which is the water when no elevation is negative |
| MaxSplit.AccZeroDivergence | trap_cpp/trap.cpp:84 | on [-1, -2, -1] the as-written loops give 4, while the terrain holds 1 |
| MaxSplit.ComputeRainCollected3Symmetric | src/lib.rs:134-181 | `compute_rain_collected3` gives the same result on a terrain and its mirror image, although the mirror turns the last maximum into the first, and 0 on every non-decreasing or non-increasing terrain |
| MaxSplit.ComputeRainCollectedCppFixed | trap_cpp/trap.cpp:75-99 | with `acc` starting at LONG_MIN, the loops return the water of every terrain |
| Reorder.Start | src/lib.rs:58 | no contract of its own: the initial scan state `(hiter.next(), hiter.next_back())`; specified by `Reorder.ReorderedStart` |
| Reorder.Scan | src/lib.rs:58-70 | no contract of its own: the values the scan emits from a state; specified by `Reorder.ScanStepLeft`, `Reorder.ScanStepRight`, `Reorder.ScanKeeps` and `Reorder.ScanFoldWater` |
| Reorder.Reordered | src/lib.rs:36-70 | no contract of its own: the sequence the scan emits from the whole terrain; specified by `Reorder.ReorderedPermutes` and `Reorder.ReorderKeepsWater` |
| Reorder.ComputeRainCollected | src/lib.rs:35-89 | no contract of its own; specified by `Reorder.ComputeRainCollectedIsWater` and `Reorder.ComputeRainCollectedSymmetric` |
| Reorder.ScanStepLeft | src/lib.rs:60-62 | when front <= back, the scan emits the front value and advances the front; it stops when the iterator is exhausted there |
| Reorder.ScanStepRight | src/lib.rs:63-66 | when front > back, the scan emits the back value and advances the back |
| Reorder.ScanFoldWater | src/lib.rs:58-87 | folding what the scan emits from a window, with the consumed maximum as stepsize, adds exactly the water the window's spots hold |
| Reorder.ScanFoldWaterLeft | src/lib.rs:60-62 | the same, when the scan emits the front value first |
| Reorder.ScanFoldWaterRight | src/lib.rs:63-66 | the same, when the scan emits the back value first |
| Reorder.ClimbLeft | src/lib.rs:60-62 | a fold step on an emitted front value charges that spot's water and keeps the sweep invariant |
| Reorder.ClimbRight | src/lib.rs:63-66 | a fold step on an emitted back value charges that spot's water and keeps the sweep invariant |
| Reorder.ReorderedStart | src/lib.rs:58-69 | an empty or one-spot terrain emits nothing, because `(Some(a), None)` ends the scan; otherwise the scan starts on the whole terrain |
| Reorder.ComputeRainCollectedIsWater | src/lib.rs:35-89 | `compute_rain_collected` is the water of every i64 terrain, and 0 for fewer than two spots |
| Reorder.ComputeRainCollectedSymmetric | src/lib.rs:35-89 | `compute_rain_collected` gives the same result on a terrain and its mirror image, although the mirror swaps which end the scan takes on ties, and 0 on every non-decreasing or non-increasing terrain |
| Reorder.Kept | src/lib.rs:58-70 | the value left in the scan state when it stops is a spot of the window |
| Reorder.ScanKeeps | src/lib.rs:58-70 | the scan emits one value fewer than the window has, and the emitted values plus the one left in the state are a permutation of the window |
| Reorder.ScanKeepsLeft | src/lib.rs:60-62 | the same, after a front step |
| Reorder.ScanKeepsRight | src/lib.rs:63-66 | the same, after a back step |
| Reorder.KeptIsPeak | src/lib.rs:71-77 | the value left in the scan state is a maximum of the terrain |
| Reorder.FoldStepBelow | src/lib.rs:78-87 | the stepsize of a fold stays below any bound over its values and its start |
| Reorder.PeakLastWater | src/lib.rs:71-77 | appending a maximum to a sequence gives a terrain whose water is the forward fold of the sequence |
| Reorder.KeptIndex | src/lib.rs:58-70 | the spot left in the scan state of the whole terrain is a spot of the terrain |
| Reorder.ReorderedPermutes | src/lib.rs:58-70 | the scan emits n - 1 values, which with the one left over are a permutation of the terrain |
| Reorder.KeptIndexIsPeak | src/lib.rs:71-77 | the left-over spot is a maximum |
| Reorder.ReorderKeepsWater | trap_rust/src/lib.rs:62-83 | the reordering emits n - 1 values; with the left-over maximum appended they are a permutation of the terrain with the maximum as the last spot, and trap the same water as the terrain |
| PrefixSuffixBuffer.ScanMaxForward | trap_cpp/trap.cpp:20-24 | the forward `inclusive_scan` writes the running maximum of v[0..j] into u[j] for j up to the maximum's position and leaves the rest of u alone |
| PrefixSuffixBuffer.ScanMaxBackward | trap_cpp/trap.cpp:26-31 | the backward `inclusive_scan` writes the running maximum of v[j..n-1] into u[j] from the maximum's position on and leaves the rest of u alone |
| PrefixSuffixBuffer.TransformReduce | trap_cpp/trap.cpp:33-35 | `transform_reduce` returns the sum of u[i] - v[i] over the whole buffer |
| PrefixSuffixBuffer.LevelsSumToWater | trap_cpp/trap.cpp:33-35 | a buffer holding the level over every spot sums, less the elevations, to the water |
| PrefixSuffixBuffer.TrapCpp | trap_cpp/trap.cpp:10-36 | `trap_cpp` returns the water of every terrain: 0 below three spots, otherwise the buffer sum; that every u[i] is the level over spot i, so u[i] >= v[i], is proved in the body, not stated in the contract |
| Driver.CompareTraps | src/main.rs:26-32 | `trap` and `trap2` both return the water of every non-empty terrain, so `main` never reports a difference |
| Fixtures.Terrain1 | src/lib.rs:282-284 | [0, 0, 0, 0, 0] holds 0 |
| Fixtures.Terrain2 | src/lib.rs:285-287 | [1, 2, 3, 4, 5] holds 0 |
| Fixtures.Terrain3 | src/lib.rs:288-290 | [5, 4, 3, 2, 1] holds 0 |
| Fixtures.Terrain4 | src/lib.rs:291-293 | [1, 2, 3, 2, 1] holds 0 |
| Fixtures.Terrain5 | src/lib.rs:294-296 | [1, 2, 3, 2, 4, 1] holds 1 |
| Fixtures.Terrain6 | src/lib.rs:297-299 | [1, 4, 2, 5, 3, 6, 4, 7] holds 6 |
| Fixtures.Terrain7 | src/lib.rs:300-302 | [2, 1, 2] holds 1 |
| Fixtures.Terrain8 | src/lib.rs:303-305 | [5, 4, 2, 6, 6, 6, 4, 5] holds 5 |
| Fixtures.Terrain9 | src/lib.rs:306-308 | [0, 1, -1, 2, 1, 0, 1, 3, 2, 1, 2, 1] holds 7 |
| Fixtures.Terrain10 | src/lib.rs:309-311 | [4, 2, 0, 3, 2, 5] holds 9 |
| Fixtures.Terrain11 | src/lib.rs:312-313 | [0, -6, 0, -2, 8, -9, 0, 8, 9, -5] holds 33 |
| Fixtures.Terrain11FirstMax | trap_cpp/trap.cpp:81-82 | `max_element` on [0, -6, 0, -2, 8, -9, 0, 8, 9, -5] finds index 8 |
| Fixtures.Terrain11Split | trap_cpp/trap.cpp:84-96 | the two loops as written, from `acc = 0` and split at index 8, give 33 + 5 = 38 on that terrain |
| Fixtures.Terrain11AccZero | trap_cpp/trap.cpp:81-98 | on `terrain11` the as-written C++ `compute_rain_collected` splits at index 8 and gives 38, while the terrain holds 33 |
| Fixtures.CppFlat | trap.cpp:58-64 | [3, 3, 3, 3, 3] holds 0 |
| Fixtures.CppBasin | trap.cpp:66-72 | [3, 0, 1, 0, 3] holds 8 |
| Fixtures.CppTwoBasins | trap.cpp:74-80 | [1, 0, 2, 0, 1] holds 2 |
| Fixtures.CppEmpty | trap.cpp:42-48 | the empty terrain holds 0 |
| Fixtures.DocExample | trap_rust/src/lib.rs:42-47 | `compute_rain_collected` and `compute_rain_collected3` give 6 for [1, 4, 2, 5, 3, 6, 4, 7] |

## Left out

- FFI wrappers and binding crates are foreign calls and are not modelled. These are `trap_cpp`/`trap_cpp_dp` in src/lib.rs, `compute_rain_collected_ffi`, the `extern "C"` shims in the C++ files, trap_cpp/src/lib.rs, trap_swift/src/lib.rs and trap_zig/src/lib.rs. The algorithms behind them are modelled from their own source files. The Zig source is not part of this model.
- Benchmarks, build scripts and drivers are not modelled, because they consist of random input generation, timing and printing. Only the comparison src/main.rs makes between `trap` and `trap2` is modelled, as `Driver.CompareTraps`, with the terrain as a parameter.
- Machine-width arithmetic is not reproduced. Elevations are unbounded integers, restricted to the i64 range where a variant needs `i64::MIN` as a sentinel. Nothing models:
  - wrap-around of the i64 subtraction `stepsize - x`
  - wrap-around of the u64 accumulators
  - the `long` to `int` narrowing in C++
- PrefixSuffixBuffer.TrapCpp: the C++ sources use a `vector<int>` buffer (trap.cpp also takes a `vector<int>`), an `int` reduce start and an `int heightSize` parameter. The real result agrees with the model only while the values and the sum fit in `int`; the model does not capture this bound.
- TwoPointer.Trap, TwoPointer.TrapCppDp and TwoPointer.RainCollected require a non-empty terrain. On empty input, the source's `len() - 1`, `size() - 1` or `count - 1` underflows. That gives a panic in Rust (in a release build the wrapped index fails the bounds check, except in `trap_unsafe`, which reads out of bounds), undefined behaviour in C++ or a trap in Swift. The model does not reproduce that failure.
- Checked and unchecked indexing are not distinguished. The verifier checks every index in the model, which is what `trap_unsafe`'s `get_unchecked` relies on.
- Ownership is not modelled: borrowing versus consuming, and `.copied()`.
- The double-ended iterator of `compute_rain_collected` is modelled as a window `(lo, hi)` over the terrain plus the two held values, not as an iterator object.
- Reorder.ComputeRainCollected and MaxSplit.ComputeRainCollected3 are functions without an `ensures` of their own. What they compute is stated by `Reorder.ComputeRainCollectedIsWater` and `MaxSplit.ComputeRainCollected3IsWater`.
- Range of values: every variant agrees with the model only while each difference between two elevations fits in i64 and the total fits in u64; a terrain such as [i64::MAX, i64::MIN, i64::MAX] overflows `stepsize - x`, and the model, on unbounded integers, gives the mathematical answer instead.

## Findings

| source | as written | input that shows it | evidently intended | confidence | as-written member | corrected member |
|---|---|---|---|---|---|---|
| trap_cpp/trap.cpp:84 | `acc` starts both loops of `compute_rain_collected` at 0 (lines 84 and 92), so on a terrain below 0 each spot is charged against 0 rather than against the real running maximum | [-1, -2, -1]: the loops give 4, the terrain holds 1; the shared fixture `terrain11` (src/lib.rs:312): the loops give 38, the terrain holds 33 | start `acc` at LONG_MIN, as every other running maximum in the repository does | not executed | MaxSplit.ComputeRainCollectedCpp, MaxSplit.AccZeroDivergence, Fixtures.Terrain11AccZero | MaxSplit.ComputeRainCollectedCppFixed |
