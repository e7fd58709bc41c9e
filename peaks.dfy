/**
  Locating a highest spot. C++ `std::max_element` returns the first of
  several equal maxima; Rust's `max_by_key` returns the last.
 */
module Peaks {
  import opened Terrain

  /** The index `std::max_element` finds in v[..k]: the first maximum. */
  function FirstMaxIndex(v: seq<int>, k: nat): (i: nat)
    requires 0 < k <= |v|
    ensures i < k
    ensures forall j :: 0 <= j < k ==> v[j] <= v[i]
    ensures forall j :: 0 <= j < i ==> v[j] < v[i]
  {
    if k == 1 then 0
    else
      var i := FirstMaxIndex(v, k - 1);
      if v[i] < v[k - 1] then k - 1 else i
  }

  /** The index `enumerate().max_by_key(|&(_, v)| v)` finds in v[..k]:
      the last maximum. */
  function LastMaxIndex(v: seq<int>, k: nat): (i: nat)
    requires 0 < k <= |v|
    ensures i < k
    ensures forall j :: 0 <= j < k ==> v[j] <= v[i]
    ensures forall j :: i < j < k ==> v[j] < v[i]
  {
    if k == 1 then 0
    else
      var i := LastMaxIndex(v, k - 1);
      if v[i] <= v[k - 1] then k - 1 else i
  }

  /** `std::max_element(begin(v), end(v))` as an index; `|v|` (the end
      iterator) when v is empty. */
  method MaxElement(v: seq<int>) returns (it: nat)
    ensures |v| == 0 ==> it == 0
    ensures |v| > 0 ==> it == FirstMaxIndex(v, |v|) && IsPeak(v, it)
  {
    if |v| == 0 {
      return 0;
    }
    it := 0;
    var first := 1;
    while first < |v|
      invariant 1 <= first <= |v|
      invariant it == FirstMaxIndex(v, first)
    {
      if v[it] < v[first] {
        it := first;
      }
      first := first + 1;
    }
  }
}
