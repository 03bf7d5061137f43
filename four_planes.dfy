/**
 * viewer_four_planes.cpp's `myCameraMotionInteractorStyle`: the camera walks a path as in
 * viewer_3d.cpp, and at every move the point under the camera is mapped from world
 * coordinates to one slice number per axis; the sagittal (YZ), coronal (XZ) and axial (XY)
 * viewers are set to those slices, a marker sphere is centred on them, and each viewer's
 * crosshair (a horizontal and a vertical line in its overlay layer) is drawn through the two
 * in-plane slice numbers.
 */
module FourPlanes {
  import opened Optional
  import opened Geometry
  import opened Toolkit
  import opened CameraPath

  /** `static_cast<int>` of a `double`: truncation toward zero. */
  function Trunc(r: real): (t: int)
    ensures r >= 0.0 ==> 0 <= t && t as real <= r < t as real + 1.0
    ensures r < 0.0 ==> t <= 0 && t as real - 1.0 < r <= t as real
  {
    if r >= 0.0 then r.Floor else -((-r).Floor)
  }

  /** Truncation keeps whole numbers and preserves order. */
  lemma TruncFacts(a: real, b: real, n: int)
    ensures Trunc(n as real) == n
    ensures a <= b ==> Trunc(a) <= Trunc(b)
  {
  }

  /**
   * One axis of `point_to_slice`: the world coordinate `p`, taken as a fraction of the world
   * range `[lo, hi]`, scaled to the slice range and truncated, then offset by `smin`.
   */
  function AxisToSlice(p: real, lo: real, hi: real, smin: int, smax: int): int
    requires hi != lo
  {
    Trunc((p - lo) / (hi - lo) * (smax - smin) as real) + smin
  }

  lemma DivSelf(d: real)
    requires d != 0.0
    ensures d / d == 1.0
  {
  }

  /** The ends of the world range map to the ends of the slice range. */
  lemma AxisToSliceEndpoints(lo: real, hi: real, smin: int, smax: int)
    requires hi != lo
    ensures AxisToSlice(lo, lo, hi, smin, smax) == smin
    ensures AxisToSlice(hi, lo, hi, smin, smax) == smax
  {
    DivSelf(hi - lo);
    TruncFacts(0.0, 0.0, smax - smin);
  }

  /** Division by a positive number keeps order. */
  lemma DivMonotone(a: real, b: real, d: real)
    requires d > 0.0 && a <= b
    ensures a / d <= b / d
  {
    assert b / d - a / d == (b - a) / d;
  }

  /** Multiplication by a non-negative number keeps order. */
  lemma MulMonotone(a: real, b: real, c: real)
    requires c >= 0.0 && a <= b
    ensures a * c <= b * c
  {
    assert b * c - a * c == (b - a) * c;
  }

  /** A multiple of `d` divided by `d`. */
  lemma DivMultiple(k: real, d: real)
    requires d != 0.0
    ensures (k * d) / d == k
  {
  }

  /** The map is monotone on an increasing world range with an ordered slice range. */
  lemma AxisToSliceMonotone(p: real, q: real, lo: real, hi: real, smin: int, smax: int)
    requires lo < hi && smin <= smax && p <= q
    ensures AxisToSlice(p, lo, hi, smin, smax) <= AxisToSlice(q, lo, hi, smin, smax)
  {
    var d := (smax - smin) as real;
    var fp := (p - lo) / (hi - lo);
    var fq := (q - lo) / (hi - lo);
    DivMonotone(p - lo, q - lo, hi - lo);
    MulMonotone(fp, fq, d);
    TruncFacts(fp * d, fq * d, 0);
  }

  /** A coordinate inside the world range lands inside the slice range. */
  lemma AxisToSliceInRange(p: real, lo: real, hi: real, smin: int, smax: int)
    requires lo < hi && smin <= smax && lo <= p <= hi
    ensures smin <= AxisToSlice(p, lo, hi, smin, smax) <= smax
  {
    AxisToSliceEndpoints(lo, hi, smin, smax);
    AxisToSliceMonotone(lo, p, lo, hi, smin, smax);
    AxisToSliceMonotone(p, hi, lo, hi, smin, smax);
  }

  /** Nothing clamps: one world range beyond either end lands one slice range beyond it. */
  lemma AxisToSliceUnclamped(lo: real, hi: real, smin: int, smax: int)
    requires hi != lo
    ensures AxisToSlice(2.0 * hi - lo, lo, hi, smin, smax) == 2 * smax - smin
    ensures AxisToSlice(2.0 * lo - hi, lo, hi, smin, smax) == 2 * smin - smax
    ensures smin < smax ==>
      AxisToSlice(2.0 * hi - lo, lo, hi, smin, smax) > smax
      && AxisToSlice(2.0 * lo - hi, lo, hi, smin, smax) < smin
  {
    var d := (smax - smin) as real;
    assert 2.0 * hi - lo - lo == 2.0 * (hi - lo);
    DivMultiple(2.0, hi - lo);
    assert 2.0 * lo - hi - lo == -1.0 * (hi - lo);
    DivMultiple(-1.0, hi - lo);
    assert 2.0 * d == (2 * (smax - smin)) as real;
    assert -1.0 * d == (-(smax - smin)) as real;
    TruncFacts(0.0, 0.0, 2 * (smax - smin));
    TruncFacts(0.0, 0.0, -(smax - smin));
  }

  /** The three world ranges `m_xyz_rng` (min, max per axis) each have two distinct ends. */
  predicate NonDegenerate(xyz: seq<real>) {
    |xyz| == 6 && xyz[0] != xyz[1] && xyz[2] != xyz[3] && xyz[4] != xyz[5]
  }

  /** Axis `a` of `point_to_slice`, with world ranges `xyz` and slice ranges `rng` laid out min, max per axis. */
  function SliceOnAxis(p: Vec3, xyz: seq<real>, rng: seq<int>, a: nat): int
    requires NonDegenerate(xyz) && |rng| == 6 && a < 3
  {
    AxisToSlice(Component(p, a), xyz[2 * a], xyz[2 * a + 1], rng[2 * a], rng[2 * a + 1])
  }

  /** `point_to_slice`. */
  function PointToSlice(p: Vec3, xyz: seq<real>, rng: seq<int>): seq<int>
    requires NonDegenerate(xyz) && |rng| == 6
  {
    [SliceOnAxis(p, xyz, rng, 0), SliceOnAxis(p, xyz, rng, 1), SliceOnAxis(p, xyz, rng, 2)]
  }

  /** Where the marker sphere sits for the slice numbers `point`: the numbers taken as coordinates. */
  function SliceCenter(point: seq<int>): Vec3
    requires |point| == 3
  {
    Vec3(point[0] as real, point[1] as real, point[2] as real)
  }

  /** A point inside the world box maps to slices inside each viewer's range, and the box's low corner to the minima. */
  lemma PointToSliceInBox(p: Vec3, xyz: seq<real>, rng: seq<int>)
    requires NonDegenerate(xyz) && |rng| == 6
    requires forall a :: 0 <= a < 3 ==> xyz[2 * a] < xyz[2 * a + 1] && rng[2 * a] <= rng[2 * a + 1]
    requires forall a :: 0 <= a < 3 ==> xyz[2 * a] <= Component(p, a) <= xyz[2 * a + 1]
    ensures |PointToSlice(p, xyz, rng)| == 3
    ensures forall a :: 0 <= a < 3 ==> rng[2 * a] <= PointToSlice(p, xyz, rng)[a] <= rng[2 * a + 1]
    ensures PointToSlice(Vec3(xyz[0], xyz[2], xyz[4]), xyz, rng) == [rng[0], rng[2], rng[4]]
  {
    forall a | 0 <= a < 3
      ensures rng[2 * a] <= PointToSlice(p, xyz, rng)[a] <= rng[2 * a + 1]
    {
      AxisToSliceInRange(Component(p, a), xyz[2 * a], xyz[2 * a + 1], rng[2 * a], rng[2 * a + 1]);
    }
    AxisToSliceEndpoints(xyz[0], xyz[1], rng[0], rng[1]);
    AxisToSliceEndpoints(xyz[2], xyz[3], rng[2], rng[3]);
    AxisToSliceEndpoints(xyz[4], xyz[5], rng[4], rng[5]);
  }

  /**
   * The two slice numbers a viewer's crosshair is drawn through, as (x, y) in its view:
   * viewer 0 (YZ) uses y and z, viewer 1 (XZ) x and z, viewer 2 (XY) x and y.
   */
  function CrossAxes(i: nat): (nat, nat)
    requires i < 3
  {
    if i == 0 then (1, 2) else if i == 1 then (0, 2) else (0, 1)
  }

  /** The viewers in `m_image_viewers` order: sagittal, coronal, axial. */
  const VIEW_ORIENTATIONS: seq<SliceOrientation> := [YZ, XZ, XY]

  /** The crosshair axes are the two in-plane axes of the viewer's plane, in increasing order. */
  lemma CrossAxesSpanPlane(i: nat)
    requires i < 3
    ensures NormalAxis(VIEW_ORIENTATIONS[i]) == i
    ensures CrossAxes(i).0 < CrossAxes(i).1 < 3
    ensures CrossAxes(i).0 != i && CrossAxes(i).1 != i
  {
  }

  /** A line segment of a crosshair, as `vtkLineSource` point 1 and point 2. */
  datatype Segment = Segment(p1: Vec3, p2: Vec3)

  /** The depth of the crosshair lines in the overlay layer. */
  const CROSS_Z: real := 0.01

  /** The horizontal crosshair line at height `y`, across the window width `w` on both sides. */
  function HorizontalLine(y: int, w: int): Segment {
    Segment(Vec3(-w as real, y as real, CROSS_Z), Vec3(w as real, y as real, CROSS_Z))
  }

  /** The vertical crosshair line at `x`, across the window height `h` on both sides. */
  function VerticalLine(x: int, h: int): Segment {
    Segment(Vec3(x as real, -h as real, CROSS_Z), Vec3(x as real, h as real, CROSS_Z))
  }

  /** The point at parameter `t` from `a` toward `b`. */
  function Lerp(a: Vec3, b: Vec3, t: real): Vec3 {
    Vec3(a.x + t * (b.x - a.x), a.y + t * (b.y - a.y), a.z + t * (b.z - a.z))
  }

  /** `q` lies on the segment `s`. */
  ghost predicate OnSegment(q: Vec3, s: Segment) {
    exists t: real :: 0.0 <= t <= 1.0 && q == Lerp(s.p1, s.p2, t)
  }

  /** Crosshair line `k` (0..5) for slice numbers `point`: line `2i` is viewer i's horizontal, `2i + 1` its vertical. */
  function CrossLine(point: seq<int>, k: nat, w: int, h: int): Segment
    requires |point| == 3 && k < 6
  {
    var axes := CrossAxes(k / 2);
    if k % 2 == 0 then HorizontalLine(point[axes.1], w) else VerticalLine(point[axes.0], h)
  }

  /** A segment from `-r` to `r` along one coordinate passes through every `c` with `|c| <= r`. */
  lemma CoordinateOnSpan(c: real, r: real) returns (t: real)
    requires -r <= c <= r
    ensures 0.0 <= t <= 1.0 && -r + t * (r - -r) == c
  {
    if r == 0.0 {
      t := 0.5;
    } else {
      t := (c + r) / (2.0 * r);
      assert t * (2.0 * r) == c + r;
    }
  }

  /**
   * When the slices fall inside the window, viewer i's two crosshair lines meet at its pair of
   * in-plane slice numbers.
   */
  lemma CrossLinesMeet(point: seq<int>, i: nat, w: int, h: int)
    requires |point| == 3 && i < 3
    requires -w <= point[CrossAxes(i).0] <= w && -h <= point[CrossAxes(i).1] <= h
    ensures var q := Vec3(point[CrossAxes(i).0] as real, point[CrossAxes(i).1] as real, CROSS_Z);
      OnSegment(q, CrossLine(point, 2 * i, w, h)) && OnSegment(q, CrossLine(point, 2 * i + 1, w, h))
  {
    var x := point[CrossAxes(i).0] as real;
    var y := point[CrossAxes(i).1] as real;
    var q := Vec3(x, y, CROSS_Z);
    var tx := CoordinateOnSpan(x, w as real);
    assert q == Lerp(CrossLine(point, 2 * i, w, h).p1, CrossLine(point, 2 * i, w, h).p2, tx);
    var ty := CoordinateOnSpan(y, h as real);
    assert q == Lerp(CrossLine(point, 2 * i + 1, w, h).p1, CrossLine(point, 2 * i + 1, w, h).p2, ty);
  }

  class FourPlanesStyle {
    /** The 3D renderer's active camera. */
    const camera: Camera
    var path: seq<Vec3>
    var index: int
    /** `m_image_viewers`: sagittal, coronal, axial. */
    var viewers: seq<ImageViewer>
    /** `m_xyz_rng`: world min and max per axis. */
    const xyzRng: array<real>
    /** `m_slice_rng`: viewer i's slice min and max at 2i and 2i + 1. */
    const sliceRng: array<int>
    /** `m_crossline_sources`: viewer i's horizontal line at 2i, vertical at 2i + 1; absent until set. */
    const crossLines: array<Option<Segment>>
    /** `m_sphere`, the marker, created on first use. */
    var hasSphere: bool
    var sphereCenter: Vec3
    /** Marker actors added to the viewers' renderers. */
    ghost var markerActors: nat
    /** `Interactor->Render()` calls. */
    ghost var renders: nat

    constructor (camera: Camera)
      ensures this.camera == camera && path == [] && index == 0 && viewers == []
      ensures fresh(xyzRng) && fresh(sliceRng) && fresh(crossLines)
      ensures xyzRng[..] == [0.0, 0.0, 0.0, 0.0, 0.0, 0.0] && sliceRng[..] == [0, 0, 0, 0, 0, 0]
      ensures crossLines[..] == [None, None, None, None, None, None]
      ensures !hasSphere && markerActors == 0 && renders == 0
    {
      this.camera := camera;
      path := [];
      index := 0;
      viewers := [];
      xyzRng := new real[6](_ => 0.0);
      sliceRng := new int[6](_ => 0);
      crossLines := new Option<Segment>[6](_ => None);
      hasSphere := false;
      sphereCenter := Vec3(0.0, 0.0, 0.0);
      markerActors := 0;
      renders := 0;
    }

    /** The fixed-size buffers have their sizes and three viewers are attached. */
    predicate Ready()
      reads this
    {
      xyzRng.Length == 6 && sliceRng.Length == 6 && crossLines.Length == 6 && |viewers| == 3
    }

    /** Ready, with a path the index can walk and world ranges `point_to_slice` can divide by. */
    predicate Valid()
      reads this, xyzRng
    {
      Ready() && |path| >= 2 && Reachable(index, |path|) && NonDegenerate(xyzRng[..])
    }

    /** `point_to_slice` over the stored ranges. */
    function PointToSliceOf(p: Vec3): seq<int>
      requires xyzRng.Length == 6 && sliceRng.Length == 6 && NonDegenerate(xyzRng[..])
      reads xyzRng, sliceRng
    {
      PointToSlice(p, xyzRng[..], sliceRng[..])
    }

    /** Every crosshair line is drawn through the slice numbers `point`, sized to its viewer's window. */
    predicate LinesShow(point: seq<int>)
      requires Ready() && |point| == 3
      reads this, crossLines
    {
      forall k :: 0 <= k < 6 ==>
        crossLines[k] == Some(CrossLine(point, k, viewers[k / 2].width, viewers[k / 2].height))
    }

    /** `setPathPoints`: keep the path, put the camera at point 0 looking at point 1, reset the clipping range. */
    method SetPathPoints(points: seq<Vec3>)
      requires |points| >= 2
      modifies this`path, camera
      ensures path == points
      ensures camera.position == points[0] && camera.focalPoint == points[1]
      ensures camera.events == old(camera.events) + [ClippingRangeReset]
    {
      path := points;
      camera.SetPosition(path[0]);
      camera.SetFocalPoint(path[1]);
      camera.ResetClippingRange();
    }

    /** `setImageViewers`: keep the viewers and record each one's slice range. */
    method SetImageViewers(sagittal: ImageViewer, coronal: ImageViewer, axial: ImageViewer)
      requires sliceRng.Length == 6
      modifies this`viewers, sliceRng
      ensures viewers == [sagittal, coronal, axial]
      ensures forall i :: 0 <= i < 3 ==>
        sliceRng[2 * i] == viewers[i].SliceMin() && sliceRng[2 * i + 1] == viewers[i].SliceMax()
    {
      viewers := [sagittal, coronal, axial];
      for i := 0 to 3
        modifies sliceRng
        invariant forall j :: 0 <= j < i ==>
          sliceRng[2 * j] == viewers[j].SliceMin() && sliceRng[2 * j + 1] == viewers[j].SliceMax()
      {
        sliceRng[2 * i] := viewers[i].SliceMin();
        sliceRng[2 * i + 1] := viewers[i].SliceMax();
      }
    }

    /** `setXYZRng`: record the world box and draw every crosshair through slice 0 of each axis. */
    method SetXYZRng(xmin: real, xmax: real, ymin: real, ymax: real, zmin: real, zmax: real)
      requires Ready()
      modifies xyzRng, crossLines
      ensures xyzRng[..] == [xmin, xmax, ymin, ymax, zmin, zmax]
      ensures LinesShow([0, 0, 0])
    {
      xyzRng[0], xyzRng[1] := xmin, xmax;
      xyzRng[2], xyzRng[3] := ymin, ymax;
      xyzRng[4], xyzRng[5] := zmin, zmax;
      for i := 0 to 3
        modifies crossLines
        invariant forall k :: 0 <= k < 2 * i ==>
          crossLines[k] == Some(CrossLine([0, 0, 0], k, viewers[k / 2].width, viewers[k / 2].height))
      {
        crossLines[2 * i] := Some(HorizontalLine(0, viewers[i].width));
        crossLines[2 * i + 1] := Some(VerticalLine(0, viewers[i].height));
      }
    }

    /**
     * `draw_cross_line(point, viewer_idx)`: create the marker on first use, centre it on
     * `point`, and redraw all three viewers' crosshairs; `viewer_idx` is not used.
     */
    method DrawCrossLine(point: seq<int>, viewerIdx: int)
      requires Ready() && |point| == 3
      modifies this`hasSphere, this`sphereCenter, this`markerActors, crossLines
      ensures hasSphere && sphereCenter == SliceCenter(point)
      ensures markerActors == if old(hasSphere) then old(markerActors) else old(markerActors) + 3
      ensures LinesShow(point)
    {
      if !hasSphere {
        hasSphere := true;
        markerActors := markerActors + 3;
      }
      sphereCenter := SliceCenter(point);
      for i := 0 to 3
        modifies crossLines
        invariant forall k :: 0 <= k < 2 * i ==>
          crossLines[k] == Some(CrossLine(point, k, viewers[k / 2].width, viewers[k / 2].height))
      {
        var axes := CrossAxes(i);
        crossLines[2 * i] := Some(HorizontalLine(point[axes.1], viewers[i].width));
        crossLines[2 * i + 1] := Some(VerticalLine(point[axes.0], viewers[i].height));
      }
    }

    /** The three viewers are three different objects. */
    predicate DistinctViewers()
      reads this
    {
      |viewers| == 3 && viewers[0] != viewers[1] && viewers[0] != viewers[2] && viewers[1] != viewers[2]
    }

    /**
     * The loop of `moveCameraToNthPos`: for each viewer in turn, draw the crosshairs through
     * `sliceNo`, set the viewer's slice and render it. With a viewer attached twice the later
     * slot's slice is the one that stays.
     */
    method ShowSlices(sliceNo: seq<int>)
      requires Ready() && |sliceNo| == 3
      modifies this`hasSphere, this`sphereCenter, this`markerActors, crossLines, viewers
      ensures LinesShow(sliceNo)
      ensures hasSphere && markerActors == if old(hasSphere) then old(markerActors) else old(markerActors) + 3
      ensures sphereCenter == SliceCenter(sliceNo)
      ensures viewers[2].slice == sliceNo[2]
      ensures DistinctViewers() ==> forall i :: 0 <= i < 3 ==>
        viewers[i].slice == sliceNo[i] && viewers[i].renders == old(viewers[i].renders) + 1
    {
      ghost var marked := if hasSphere then markerActors else markerActors + 3;
      for i := 0 to 3
        invariant i == 0 ==> hasSphere == old(hasSphere) && markerActors == old(markerActors)
        invariant i > 0 ==> LinesShow(sliceNo) && hasSphere && markerActors == marked
        invariant i > 0 ==> sphereCenter == SliceCenter(sliceNo)
        invariant i > 0 ==> viewers[i - 1].slice == sliceNo[i - 1]
        invariant DistinctViewers() ==> forall j :: 0 <= j < i ==>
          viewers[j].slice == sliceNo[j] && viewers[j].renders == old(viewers[j].renders) + 1
        invariant DistinctViewers() ==> forall j :: i <= j < 3 ==> viewers[j].renders == old(viewers[j].renders)
      {
        DrawCrossLine(sliceNo, i);
        viewers[i].SetSlice(sliceNo[i]);
        viewers[i].Render();
      }
    }

    /**
     * `moveCameraToNthPos(k)`: stand at point `k - 1` looking at point `k + 1`, map point `k`
     * to slices, show them in the three viewers, render the scene.
     */
    method MoveCameraToNthPos(k: int)
      requires Ready() && NonDegenerate(xyzRng[..]) && CameraOnPath(k, |path|)
      modifies this`hasSphere, this`sphereCenter, this`markerActors, this`renders, crossLines, camera, viewers
      ensures camera.position == path[k - 1] && camera.focalPoint == path[k + 1]
      ensures camera.events == old(camera.events) && renders == old(renders) + 1
      ensures LinesShow(PointToSliceOf(path[k]))
      ensures hasSphere && markerActors == if old(hasSphere) then old(markerActors) else old(markerActors) + 3
      ensures sphereCenter == SliceCenter(PointToSliceOf(path[k]))
      ensures viewers[2].slice == PointToSliceOf(path[k])[2]
      ensures DistinctViewers() ==> forall i :: 0 <= i < 3 ==>
        viewers[i].slice == PointToSliceOf(path[k])[i] && viewers[i].renders == old(viewers[i].renders) + 1
    {
      camera.SetPosition(path[k - 1]);
      camera.SetFocalPoint(path[k + 1]);
      var sliceNo := PointToSliceOf(path[k]);
      ShowSlices(sliceNo);
      renders := renders + 1;
    }

    /** `OnMouseWheelForward`: advance and move the camera, unless at the last usable index. */
    method WheelForward()
      requires Valid()
      modifies this, crossLines, camera, viewers
      ensures path == old(path) && viewers == old(viewers) && Valid()
      ensures index == StepForward(old(index), |path|)
      ensures index != old(index) ==>
        camera.position == path[index - 1] && camera.focalPoint == path[index + 1]
        && LinesShow(PointToSliceOf(path[index])) && renders == old(renders) + 1
        && viewers[2].slice == PointToSliceOf(path[index])[2]
        && sphereCenter == SliceCenter(PointToSliceOf(path[index]))
      ensures index != old(index) && DistinctViewers() ==> forall i :: 0 <= i < 3 ==>
        viewers[i].slice == PointToSliceOf(path[index])[i] && viewers[i].renders == old(viewers[i].renders) + 1
      ensures index == old(index) ==> unchanged(camera, crossLines) && renders == old(renders)
      ensures index == old(index) ==>
        unchanged(viewers[0], viewers[1], viewers[2])
        && hasSphere == old(hasSphere) && markerActors == old(markerActors)
        && sphereCenter == old(sphereCenter) && unchanged(this)
    {
      StepsKeepCameraOnPath(index, |path|);
      if index < |path| - 2 {
        index := index + 1;
        MoveCameraToNthPos(index);
      }
    }

    /** `OnMouseWheelBackward`: step back and move the camera, unless at index 1 or the start. */
    method WheelBackward()
      requires Valid()
      modifies this, crossLines, camera, viewers
      ensures path == old(path) && viewers == old(viewers) && Valid()
      ensures index == StepBackward(old(index))
      ensures index != old(index) ==>
        camera.position == path[index - 1] && camera.focalPoint == path[index + 1]
        && LinesShow(PointToSliceOf(path[index])) && renders == old(renders) + 1
        && viewers[2].slice == PointToSliceOf(path[index])[2]
        && sphereCenter == SliceCenter(PointToSliceOf(path[index]))
      ensures index != old(index) && DistinctViewers() ==> forall i :: 0 <= i < 3 ==>
        viewers[i].slice == PointToSliceOf(path[index])[i] && viewers[i].renders == old(viewers[i].renders) + 1
      ensures index == old(index) ==> unchanged(camera, crossLines) && renders == old(renders)
      ensures index == old(index) ==>
        unchanged(viewers[0], viewers[1], viewers[2])
        && hasSphere == old(hasSphere) && markerActors == old(markerActors)
        && sphereCenter == old(sphereCenter) && unchanged(this)
    {
      StepsKeepCameraOnPath(index, |path|);
      if index > 1 {
        index := index - 1;
        MoveCameraToNthPos(index);
      }
    }
  }
}
