/**
 * The slice-scrubbing interactor style of viewer.cpp (`myInteractorStyler`): it caches the
 * viewer's slice range once, starts at a requested or middle slice, moves one slice per
 * mouse-wheel notch (pushing the slice to the viewer and rendering only when it moves), and
 * switches the viewer's orientation on 'x', 'y' and 'z'.
 */
module Viewer {
  import opened Optional
  import opened Toolkit
  import opened SliceRange

  class SliceStyler {
    var viewer: ImageViewer?
    var slice: int
    var sliceMin: int
    var sliceMax: int

    /** The C++ leaves the viewer pointer and the slice fields uninitialised until `setImageViewer`; here they start as null and 0. */
    constructor ()
      ensures viewer == null
    {
      viewer := null;
      slice := 0;
      sliceMin := 0;
      sliceMax := 0;
    }

    /** The cursor is attached and within the cached range. */
    predicate Valid()
      reads this
    {
      viewer != null && InRange(slice, sliceMin, sliceMax)
    }

    /** `setImageViewer`: cache the range, choose the starting slice and push it to the viewer. */
    method SetImageViewer(v: ImageViewer, sliceNo: int)
      modifies this, v
      ensures viewer == v
      ensures sliceMin == old(v.SliceMin()) && sliceMax == old(v.SliceMax())
      ensures slice == InitialSlice(sliceMin, sliceMax, sliceNo)
      ensures v.slice == slice && v.orientation == old(v.orientation) && v.renders == old(v.renders)
      ensures sliceNo <= 0 && sliceMin <= sliceMax ==> Valid()
    {
      viewer := v;
      sliceMin := v.SliceMin();
      sliceMax := v.SliceMax();
      slice := if sliceNo <= 0 then Midpoint(sliceMin, sliceMax) else sliceNo;
      viewer.SetSlice(slice);
      if sliceNo <= 0 && sliceMin <= sliceMax {
        MidpointInRange(sliceMin, sliceMax);
      }
    }

    /** `OnMouseWheelForward`: one slice up unless at the maximum; a move is shown and rendered. */
    method MoveSliceForward()
      requires viewer != null
      modifies this, viewer
      ensures viewer == old(viewer) && sliceMin == old(sliceMin) && sliceMax == old(sliceMax)
      ensures slice == Forward(old(slice), sliceMax)
      ensures old(slice) < sliceMax ==> viewer.slice == slice && viewer.renders == old(viewer.renders) + 1
      ensures old(slice) >= sliceMax ==> unchanged(viewer)
      ensures viewer.orientation == old(viewer.orientation)
      ensures old(Valid()) ==> Valid()
    {
      if slice < sliceMax {
        slice := slice + 1;
        viewer.SetSlice(slice);
        viewer.Render();
      }
    }

    /** `OnMouseWheelBackward`: one slice down unless at the minimum; a move is shown and rendered. */
    method MoveSliceBackward()
      requires viewer != null
      modifies this, viewer
      ensures viewer == old(viewer) && sliceMin == old(sliceMin) && sliceMax == old(sliceMax)
      ensures slice == Backward(old(slice), sliceMin)
      ensures old(slice) > sliceMin ==> viewer.slice == slice && viewer.renders == old(viewer.renders) + 1
      ensures old(slice) <= sliceMin ==> unchanged(viewer)
      ensures viewer.orientation == old(viewer.orientation)
      ensures old(Valid()) ==> Valid()
    {
      if slice > sliceMin {
        slice := slice - 1;
        viewer.SetSlice(slice);
        viewer.Render();
      }
    }

    /**
     * `OnChar`: 'x', 'y', 'z' switch the viewer's orientation; other keys do nothing. The cached
     * range and cursor are not refreshed, so after a switch they may describe another axis.
     */
    method OnChar(key: char)
      requires viewer != null
      modifies viewer
      ensures OrientationForKey(key).Some? ==> viewer.orientation == OrientationForKey(key).value
      ensures OrientationForKey(key).None? ==> unchanged(viewer)
      ensures slice == old(slice) && sliceMin == old(sliceMin) && sliceMax == old(sliceMax)
    {
      if key == 'x' {
        viewer.SetSliceOrientation(YZ);
      } else if key == 'y' {
        viewer.SetSliceOrientation(XZ);
      } else if key == 'z' {
        viewer.SetSliceOrientation(XY);
      }
    }
  }

  /** A notch forward then a notch backward, below the maximum, returns the cursor and the viewer to where they were. */
  method WheelForwardThenBackward(s: SliceStyler)
    requires s.Valid() && s.slice < s.sliceMax
    modifies s, s.viewer
    ensures s.Valid() && s.slice == old(s.slice) && s.viewer.slice == old(s.slice)
    ensures s.viewer.renders == old(s.viewer.renders) + 2
  {
    ghost var start := s.slice;
    s.MoveSliceForward();
    s.MoveSliceBackward();
    ForwardThenBackward(start, s.sliceMin, s.sliceMax);
  }
}
