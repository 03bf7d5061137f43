/**
 * The slice-scrubbing interactor style of mask.cpp, repeated line for line in blend.cpp
 * (`myInteractorStyler`): the range is cached and the cursor set to its midpoint without
 * telling the viewer; wheel notches move the cursor within the range, then push and render.
 * There are no orientation keys.
 */
module MaskBlend {
  import opened Toolkit
  import opened SliceRange

  class SliceStyler {
    var viewer: ImageViewer?
    var slice: int
    var sliceMin: int
    var sliceMax: int

    /** The C++ leaves the viewer pointer and the slice fields uninitialised until `setImageViewer`; here they start as null and 0. */
    constructor ()
      ensures viewer == null
    {
      viewer := null;
      slice := 0;
      sliceMin := 0;
      sliceMax := 0;
    }

    predicate Valid()
      reads this
    {
      viewer != null && InRange(slice, sliceMin, sliceMax)
    }

    /** `setImageViewer`: cache the range and start at its midpoint; the viewer is left as it is. */
    method SetImageViewer(v: ImageViewer)
      modifies this
      ensures viewer == v
      ensures sliceMin == v.SliceMin() && sliceMax == v.SliceMax()
      ensures slice == Midpoint(sliceMin, sliceMax)
      ensures sliceMin <= sliceMax ==> Valid()
    {
      viewer := v;
      sliceMin := v.SliceMin();
      sliceMax := v.SliceMax();
      slice := Midpoint(sliceMin, sliceMax);
      if sliceMin <= sliceMax {
        MidpointInRange(sliceMin, sliceMax);
      }
    }

    /** `OnMouseWheelForward`: one slice up unless at the maximum; a move is pushed and rendered. */
    method MoveSliceForward()
      requires viewer != null
      modifies this, viewer
      ensures viewer == old(viewer) && sliceMin == old(sliceMin) && sliceMax == old(sliceMax)
      ensures slice == Forward(old(slice), sliceMax)
      ensures old(slice) < sliceMax ==> viewer.slice == slice && viewer.renders == old(viewer.renders) + 1
      ensures old(slice) >= sliceMax ==> unchanged(viewer)
      ensures viewer.orientation == old(viewer.orientation)
      ensures old(Valid()) ==> Valid()
    {
      if slice < sliceMax {
        slice := slice + 1;
        viewer.SetSlice(slice);
        viewer.Render();
      }
    }

    /** `OnMouseWheelBackward`: one slice down unless at the minimum; a move is pushed and rendered. */
    method MoveSliceBackward()
      requires viewer != null
      modifies this, viewer
      ensures viewer == old(viewer) && sliceMin == old(sliceMin) && sliceMax == old(sliceMax)
      ensures slice == Backward(old(slice), sliceMin)
      ensures old(slice) > sliceMin ==> viewer.slice == slice && viewer.renders == old(viewer.renders) + 1
      ensures old(slice) <= sliceMin ==> unchanged(viewer)
      ensures viewer.orientation == old(viewer.orientation)
      ensures old(Valid()) ==> Valid()
    {
      if slice > sliceMin {
        slice := slice - 1;
        viewer.SetSlice(slice);
        viewer.Render();
      }
    }
  }

  /**
   * Until the first notch the viewer still shows its own slice: the styler's midpoint is
   * pushed only by a step that moves.
   */
  method AttachThenStep(s: SliceStyler, v: ImageViewer)
    requires 0 <= v.SliceMin() < v.SliceMax()
    modifies s, v
    ensures s.Valid() && s.viewer == v
    ensures v.slice == s.slice == Midpoint(v.SliceMin(), v.SliceMax()) + 1
  {
    s.SetImageViewer(v);
    assert v.slice == old(v.slice);
    s.MoveSliceForward();
  }
}
