/**
 * The path-index stepping of `myCameraMotionInteractorStyle`, written identically in
 * viewer_3d.cpp and viewer_four_planes.cpp. A camera walks along a polyline of `n` points: at
 * index `k` it stands at point `k-1` and looks at point `k+1`. The index starts at 0 (the
 * camera placed at point 0 looking at point 1); a forward notch advances it, a backward notch
 * moves it back but never below 1.
 *
 * As written, the forward guard `index < n - 1` lets the index reach `n - 1`, whose focal
 * point `n` is one past the last point. `StepForwardAsWritten` keeps that guard and
 * `ForwardAsWrittenOverruns` exhibits the overrun; `StepForward`, with the guard
 * `index < n - 2`, is the corrected step the camera styles use.
 */
module CameraPath {
  /** The forward notch as written: advance while `index < n - 1`. */
  function StepForwardAsWritten(index: int, n: int): int {
    if index < n - 1 then index + 1 else index
  }

  /** The forward notch with the guard that keeps the focal point on the path. */
  function StepForward(index: int, n: int): int {
    if index < n - 2 then index + 1 else index
  }

  /** The backward notch: move back while `index > 1`. */
  function StepBackward(index: int): int {
    if index > 1 then index - 1 else index
  }

  /** At index `k` the camera stands at point `k - 1` and looks at point `k + 1`; both must exist. */
  predicate CameraOnPath(k: int, n: int) {
    0 <= k - 1 && k + 1 < n
  }

  /** The indices a style can hold: the start, or one whose camera points lie on the path. */
  predicate Reachable(index: int, n: int) {
    index == 0 || CameraOnPath(index, n)
  }

  /**
   * The guard as written overruns: on any path of two or more points, a forward notch from
   * `n - 2` moves to `n - 1`, whose focal point `n` does not exist.
   */
  lemma ForwardAsWrittenOverruns(n: int)
    requires n >= 2
    ensures StepForwardAsWritten(n - 2, n) == n - 1
    ensures Reachable(n - 2, n)
    ensures !CameraOnPath(StepForwardAsWritten(n - 2, n), n)
  {
  }

  /** A concrete instance: on a three-point path, two forward notches from the start ask for point 3. */
  lemma ForwardAsWrittenExample()
    ensures StepForwardAsWritten(StepForwardAsWritten(0, 3), 3) == 2
    ensures StepForwardAsWritten(StepForwardAsWritten(0, 3), 3) + 1 == 3
  {
  }

  /**
   * With the corrected guard every reachable index stays reachable, and every notch that moves
   * lands on an index whose camera points exist.
   */
  lemma StepsKeepCameraOnPath(index: int, n: int)
    requires Reachable(index, n)
    ensures Reachable(StepForward(index, n), n) && Reachable(StepBackward(index), n)
    ensures StepForward(index, n) != index ==> CameraOnPath(StepForward(index, n), n)
    ensures StepBackward(index) != index ==> CameraOnPath(StepBackward(index), n)
  {
  }

  /** A notch moves exactly when it is off its bound. */
  lemma StepsMoveWhen(index: int, n: int)
    ensures StepForward(index, n) != index <==> index < n - 2
    ensures StepBackward(index) != index <==> index > 1
  {
  }

  /** Once the index has left 0 no notch brings it back. */
  lemma NeverBackToStart(index: int, n: int)
    requires index >= 1
    ensures StepForward(index, n) >= 1 && StepBackward(index) >= 1
  {
  }

  /** A forward notch is undone by a backward notch, and the other way round, away from the bounds. */
  lemma StepsUndo(index: int, n: int)
    ensures 1 <= index < n - 2 ==> StepBackward(StepForward(index, n)) == index
    ensures 1 < index <= n - 2 ==> StepForward(StepBackward(index), n) == index
  {
  }

  /** `k` forward notches. */
  function StepForwardN(index: int, n: int, k: nat): int
    decreases k
  {
    if k == 0 then index else StepForwardN(StepForward(index, n), n, k - 1)
  }

  /** From any reachable index, `k` forward notches reach `min(index + k, n - 2)` (or stay put). */
  lemma {:induction false} StepForwardNReaches(index: int, n: int, k: nat)
    requires Reachable(index, n)
    decreases k
    ensures index <= n - 2 ==>
      StepForwardN(index, n, k) == if index + k <= n - 2 then index + k else n - 2
    ensures index > n - 2 ==> StepForwardN(index, n, k) == index
    ensures Reachable(StepForwardN(index, n, k), n)
  {
    if k > 0 {
      StepsKeepCameraOnPath(index, n);
      StepForwardNReaches(StepForward(index, n), n, k - 1);
    }
  }
}
