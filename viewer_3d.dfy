/**
 * viewer_3d.cpp's `myCameraMotionInteractorStyle`: the renderer's camera follows a path of
 * points, one index per mouse-wheel notch, standing at point `k - 1` and looking at point
 * `k + 1`. The forward notch uses the corrected guard of `CameraPath.StepForward`.
 */
module Viewer3D {
  import opened Geometry
  import opened Toolkit
  import opened CameraPath

  class CameraMotionStyle {
    /** The first renderer's active camera. */
    const camera: Camera
    var path: seq<Vec3>
    var index: int
    /** `Interactor->Render()` calls. */
    ghost var renders: nat

    constructor (camera: Camera)
      ensures this.camera == camera && path == [] && index == 0 && renders == 0
    {
      this.camera := camera;
      path := [];
      index := 0;
      renders := 0;
    }

    /** A path is attached and the index is one the style can hold on it. */
    predicate Valid()
      reads this
    {
      |path| >= 2 && Reachable(index, |path|)
    }

    /** `setPathPoints`: keep the path, put the camera at point 0 looking at point 1, reset the clipping range. */
    method SetPathPoints(points: seq<Vec3>)
      requires |points| >= 2
      modifies this, camera
      ensures path == points && index == old(index) && renders == old(renders)
      ensures camera.position == points[0] && camera.focalPoint == points[1]
      ensures camera.events == old(camera.events) + [ClippingRangeReset]
      ensures old(index) == 0 ==> Valid()
    {
      path := points;
      camera.SetPosition(path[0]);
      camera.SetFocalPoint(path[1]);
      camera.ResetClippingRange();
    }

    /** `moveCameraToNthPos(k)`: stand at point `k - 1`, look at point `k + 1`, render. */
    method MoveCameraToNthPos(k: int)
      requires CameraOnPath(k, |path|)
      modifies camera, this`renders
      ensures camera.position == path[k - 1] && camera.focalPoint == path[k + 1]
      ensures camera.events == old(camera.events)
      ensures renders == old(renders) + 1
    {
      camera.SetPosition(path[k - 1]);
      camera.SetFocalPoint(path[k + 1]);
      renders := renders + 1;
    }

    /** `OnMouseWheelForward`: advance and move the camera, unless at the last usable index. */
    method WheelForward()
      requires Valid()
      modifies this, camera
      ensures path == old(path) && Valid()
      ensures index == StepForward(old(index), |path|)
      ensures index != old(index) ==>
        camera.position == path[index - 1] && camera.focalPoint == path[index + 1]
        && renders == old(renders) + 1
      ensures index == old(index) ==> unchanged(camera) && renders == old(renders)
      ensures camera.events == old(camera.events)
    {
      StepsKeepCameraOnPath(index, |path|);
      if index < |path| - 2 {
        index := index + 1;
        MoveCameraToNthPos(index);
      }
    }

    /** `OnMouseWheelBackward`: step back and move the camera, unless at index 1 or the start. */
    method WheelBackward()
      requires Valid()
      modifies this, camera
      ensures path == old(path) && Valid()
      ensures index == StepBackward(old(index))
      ensures index != old(index) ==>
        camera.position == path[index - 1] && camera.focalPoint == path[index + 1]
        && renders == old(renders) + 1
      ensures index == old(index) ==> unchanged(camera) && renders == old(renders)
      ensures camera.events == old(camera.events)
    {
      StepsKeepCameraOnPath(index, |path|);
      if index > 1 {
        index := index - 1;
        MoveCameraToNthPos(index);
      }
    }
  }

  /** On a path of at least three points the first notch forward frames points 0 and 2. */
  method FirstNotch(s: CameraMotionStyle, points: seq<Vec3>)
    requires s.index == 0 && |points| >= 3
    modifies s, s.camera
    ensures s.index == 1 && s.Valid()
    ensures s.camera.position == points[0] && s.camera.focalPoint == points[2]
  {
    s.SetPathPoints(points);
    s.WheelForward();
  }
}
