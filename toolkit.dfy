/**
 * The parts of the visualization toolkit that the interactor styles drive, reduced to the
 * state they read and write: an image viewer (`vtkImageViewer2`) showing one slice of a volume
 * along one of three orientations, and a camera (`vtkCamera`).
 *
 * The toolkit's own code is not part of this model. A viewer's `SetSlice` is taken to store
 * the slice, `Render` is recorded as a count, and `SetSliceOrientation` is taken to set the
 * orientation and leave everything else to the toolkit (unconstrained here).
 */
module Toolkit {
  import opened Optional
  import opened Geometry

  /** The three slice orientations, named by the plane shown. */
  datatype SliceOrientation = YZ | XZ | XY

  /** The key bindings of the slice viewers: 'x' shows YZ, 'y' XZ, 'z' XY; other keys nothing. */
  function OrientationForKey(key: char): Option<SliceOrientation> {
    if key == 'x' then Some(YZ)
    else if key == 'y' then Some(XZ)
    else if key == 'z' then Some(XY)
    else None
  }

  /** The axis perpendicular to the shown plane, along which slices are counted. */
  function NormalAxis(o: SliceOrientation): (a: nat)
    ensures a < 3
  {
    match o
    case YZ => 0
    case XZ => 1
    case XY => 2
  }

  /** Exactly 'x', 'y' and 'z' select an orientation, and the key names the normal axis. */
  lemma OrientationKeys(key: char)
    ensures OrientationForKey(key).Some? <==> key in "xyz"
    ensures OrientationForKey(key).Some? ==> "xyz"[NormalAxis(OrientationForKey(key).value)] == key
  {
  }

  /** The whole extent of the input volume: index bounds `lo[a]..hi[a]` along axis `a`. */
  datatype Extent = Extent(lo: seq<int>, hi: seq<int>) {
    predicate Valid() {
      |lo| == 3 && |hi| == 3
    }
  }

  /**
   * `vtkImageViewer2` as the stylers see it. `GetSliceMin`/`GetSliceMax` come from the slice
   * range along the current normal axis, or are 0 when the viewer has no input.
   */
  class ImageViewer {
    var slice: int
    var orientation: SliceOrientation
    const extent: Extent
    const hasInput: bool
    /** `GetSize`: the render window's width and height in pixels. */
    const width: int
    const height: int
    ghost var renders: nat

    constructor (extent: Extent, hasInput: bool, orientation: SliceOrientation, width: int, height: int)
      requires extent.Valid()
      ensures this.extent == extent && this.hasInput == hasInput && this.orientation == orientation
      ensures this.width == width && this.height == height && renders == 0
    {
      this.extent := extent;
      this.hasInput := hasInput;
      this.width := width;
      this.height := height;
      this.orientation := orientation;
      slice := 0;
      renders := 0;
    }

    function SliceMin(): int
      reads this
    {
      if hasInput && extent.Valid() then extent.lo[NormalAxis(orientation)] else 0
    }

    function SliceMax(): int
      reads this
    {
      if hasInput && extent.Valid() then extent.hi[NormalAxis(orientation)] else 0
    }

    method SetSlice(s: int)
      modifies this
      ensures slice == s
      ensures orientation == old(orientation) && renders == old(renders)
    {
      slice := s;
    }

    method Render()
      modifies this
      ensures renders == old(renders) + 1
      ensures slice == old(slice) && orientation == old(orientation)
    {
      renders := renders + 1;
    }

    method SetSliceOrientation(o: SliceOrientation)
      modifies this
      ensures orientation == o
    {
      orientation := o;
    }
  }

  /** What was done to a camera besides moving it. */
  datatype CameraEvent = Rolled(degrees: real) | ViewUpOrthogonalized | ClippingRangeReset

  /**
   * `vtkCamera`: position, focal point, view-up, and the first row of the view transform
   * (the camera's right direction), which the toolkit keeps in step with the others.
   */
  class Camera {
    var position: Vec3
    var focalPoint: Vec3
    var viewUp: Vec3
    var viewRight: Vec3
    ghost var events: seq<CameraEvent>

    constructor ()
      ensures events == []
    {
      position := Vec3(0.0, 0.0, 1.0);
      focalPoint := Vec3(0.0, 0.0, 0.0);
      viewUp := Vec3(0.0, 1.0, 0.0);
      viewRight := Vec3(1.0, 0.0, 0.0);
      events := [];
    }

    method SetPosition(p: Vec3)
      modifies this
      ensures position == p && focalPoint == old(focalPoint) && events == old(events)
    {
      position := p;
    }

    method SetFocalPoint(f: Vec3)
      modifies this
      ensures focalPoint == f && position == old(position) && events == old(events)
    {
      focalPoint := f;
    }

    /** Rotates the view-up about the view direction; position and focal point stay. */
    method Roll(degrees: real)
      modifies this
      ensures position == old(position) && focalPoint == old(focalPoint)
      ensures events == old(events) + [Rolled(degrees)]
    {
      events := events + [Rolled(degrees)];
    }

    /** Makes the view-up perpendicular to the view direction; position and focal point stay. */
    method OrthogonalizeViewUp()
      modifies this
      ensures position == old(position) && focalPoint == old(focalPoint)
      ensures events == old(events) + [ViewUpOrthogonalized]
    {
      events := events + [ViewUpOrthogonalized];
    }

    /** The renderer's `ResetCameraClippingRange`: the camera's placement is kept. */
    method ResetClippingRange()
      modifies this
      ensures position == old(position) && focalPoint == old(focalPoint)
      ensures events == old(events) + [ClippingRangeReset]
    {
      events := events + [ClippingRangeReset];
    }
  }
}
