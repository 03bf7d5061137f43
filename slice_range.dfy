/**
 * The integer slice cursor shared by the slice-scrubbing interactor styles of viewer.cpp,
 * ome_tiff.cpp, mask.cpp, blend.cpp and overlay.cpp: a slice number kept between a cached
 * minimum and maximum, started at their midpoint (C++ `int` division, truncating toward zero)
 * and stepped by one per mouse-wheel notch, but never past a bound.
 *
 * These are the pure rules; the styler classes state their new fields in terms of them.
 */
module SliceRange {
  /** `(lo + hi) / 2` with C++ integer division, which truncates toward zero. */
  function Midpoint(lo: int, hi: int): (m: int)
    ensures lo + hi >= 0 ==> 0 <= (lo + hi) - 2 * m <= 1
    ensures lo + hi < 0 ==> -1 <= (lo + hi) - 2 * m <= 0
  {
    var sum := lo + hi;
    if sum >= 0 then sum / 2 else -((-sum) / 2)
  }

  /** The starting slice: the midpoint when `slice_no <= 0`, otherwise `slice_no` unchecked. */
  function InitialSlice(lo: int, hi: int, sliceNo: int): int {
    if sliceNo <= 0 then Midpoint(lo, hi) else sliceNo
  }

  /** One wheel notch forward: up by one while below the maximum. */
  function Forward(slice: int, hi: int): int {
    if slice < hi then slice + 1 else slice
  }

  /** One wheel notch backward: down by one while above the minimum. */
  function Backward(slice: int, lo: int): int {
    if slice > lo then slice - 1 else slice
  }

  /** The cursor is within the cached bounds. */
  predicate InRange(slice: int, lo: int, hi: int) {
    lo <= slice <= hi
  }

  /** The midpoint of a non-empty range lies in it. */
  lemma MidpointInRange(lo: int, hi: int)
    requires lo <= hi
    ensures InRange(Midpoint(lo, hi), lo, hi)
  {
  }

  /** A requested slice is taken as is: a positive request outside the range is not corrected. */
  lemma InitialSliceUnchecked(lo: int, hi: int, sliceNo: int)
    requires sliceNo > 0
    ensures InitialSlice(lo, hi, sliceNo) == sliceNo
    ensures sliceNo > hi ==> !InRange(InitialSlice(lo, hi, sliceNo), lo, hi)
  {
  }

  /** Both steps keep the cursor in range, and each moves it exactly when it is off its bound. */
  lemma StepsKeepRange(slice: int, lo: int, hi: int)
    requires InRange(slice, lo, hi)
    ensures InRange(Forward(slice, hi), lo, hi) && InRange(Backward(slice, lo), lo, hi)
    ensures Forward(slice, hi) != slice <==> slice < hi
    ensures Backward(slice, lo) != slice <==> slice > lo
  {
  }

  /** A forward notch undone by a backward notch, from any slice below the maximum and at or above the minimum. */
  lemma ForwardThenBackward(slice: int, lo: int, hi: int)
    requires lo <= slice < hi
    ensures Backward(Forward(slice, hi), lo) == slice
  {
  }

  /** A backward notch undone by a forward notch, from any slice above the minimum and at or below the maximum. */
  lemma BackwardThenForward(slice: int, lo: int, hi: int)
    requires lo < slice <= hi
    ensures Forward(Backward(slice, lo), hi) == slice
  {
  }

  /** `k` forward notches. */
  function ForwardN(slice: int, hi: int, k: nat): int
    decreases k
  {
    if k == 0 then slice else ForwardN(Forward(slice, hi), hi, k - 1)
  }

  /** `k` forward notches from at or below the maximum reach `min(slice + k, hi)`. */
  lemma {:induction false} ForwardNReaches(slice: int, hi: int, k: nat)
    requires slice <= hi
    decreases k
    ensures ForwardN(slice, hi, k) == if slice + k <= hi then slice + k else hi
  {
    if k > 0 {
      ForwardNReaches(Forward(slice, hi), hi, k - 1);
    }
  }

  /** `k` backward notches. */
  function BackwardN(slice: int, lo: int, k: nat): int
    decreases k
  {
    if k == 0 then slice else BackwardN(Backward(slice, lo), lo, k - 1)
  }

  /** `k` backward notches from at or above the minimum reach `max(slice - k, lo)`. */
  lemma {:induction false} BackwardNReaches(slice: int, lo: int, k: nat)
    requires slice >= lo
    decreases k
    ensures BackwardN(slice, lo, k) == if slice - k >= lo then slice - k else lo
  {
    if k > 0 {
      BackwardNReaches(Backward(slice, lo), lo, k - 1);
    }
  }
}
