/**
 * overlay.cpp: `MImageViewer2`, an image viewer whose `SetSlice` clamps the request into the
 * slice range (when there is one), does nothing when the slice is already current, and
 * otherwise stores it, marks the viewer modified and updates the display extent, without
 * rendering; and the interactor style that scrubs two such viewers in step, with the range of
 * the first, rendering only the first.
 */
module Overlay {
  import opened Optional
  import opened Toolkit
  import opened SliceRange

  /** The part of a viewer's state that `SetSlice` touches. */
  datatype SliceState = SliceState(slice: int, modifications: nat, extentUpdates: nat)

  /** The request clamped into `[range.0, range.1]`; unchanged when there is no range. */
  function ClampToRange(range: Option<(int, int)>, requested: int): int {
    match range
    case None => requested
    case Some((lo, hi)) => if requested < lo then lo else if requested > hi then hi else requested
  }

  /** The effect of `MImageViewer2::SetSlice(requested)` on a viewer's state. */
  function SetSliceEffect(st: SliceState, range: Option<(int, int)>, requested: int): SliceState {
    var target := ClampToRange(range, requested);
    if st.slice == target then st
    else SliceState(target, st.modifications + 1, st.extentUpdates + 1)
  }

  /** With a non-empty range the stored slice lies in it; without one the request is stored as is. */
  lemma SetSliceLandsInRange(st: SliceState, range: Option<(int, int)>, requested: int)
    ensures range.Some? && range.value.0 <= range.value.1 ==>
      range.value.0 <= SetSliceEffect(st, range, requested).slice <= range.value.1
    ensures range.None? ==> SetSliceEffect(st, range, requested).slice == requested
    ensures range.Some? && range.value.0 <= requested <= range.value.1 ==>
      SetSliceEffect(st, range, requested).slice == requested
  {
  }

  /** Setting the current slice (after clamping) changes nothing; any other slice is one modification and one extent update. */
  lemma SetSliceNoOp(st: SliceState, range: Option<(int, int)>, requested: int)
    ensures SetSliceEffect(st, range, requested) == st <==> st.slice == ClampToRange(range, requested)
    ensures st.slice != ClampToRange(range, requested) ==>
      SetSliceEffect(st, range, requested).modifications == st.modifications + 1
      && SetSliceEffect(st, range, requested).extentUpdates == st.extentUpdates + 1
  {
  }

  /** `SetSlice(s); SetSlice(s)` has the effect of `SetSlice(s)`. */
  lemma SetSliceIdempotent(st: SliceState, range: Option<(int, int)>, requested: int)
    ensures SetSliceEffect(SetSliceEffect(st, range, requested), range, requested) == SetSliceEffect(st, range, requested)
  {
  }

  /** `MImageViewer2`. The slice range is the extent along the normal axis, absent without input. */
  class OverlayViewer {
    var slice: int
    var orientation: SliceOrientation
    const extent: Extent
    const hasInput: bool
    var modifications: nat
    var extentUpdates: nat
    ghost var renders: nat

    constructor (extent: Extent, hasInput: bool, orientation: SliceOrientation)
      requires extent.Valid()
      ensures this.extent == extent && this.hasInput == hasInput && this.orientation == orientation
      ensures State() == SliceState(0, 0, 0) && renders == 0
    {
      this.extent := extent;
      this.hasInput := hasInput;
      this.orientation := orientation;
      slice := 0;
      modifications := 0;
      extentUpdates := 0;
      renders := 0;
    }

    function State(): SliceState
      reads this
    {
      SliceState(slice, modifications, extentUpdates)
    }

    /** `GetSliceRange`. */
    function SliceRange(): Option<(int, int)>
      reads this
    {
      if hasInput && extent.Valid() then
        var a := NormalAxis(orientation);
        Some((extent.lo[a], extent.hi[a]))
      else None
    }

    /** `GetSliceMin`: the low end of the range, or 0. */
    function SliceMin(): int
      reads this
    {
      if SliceRange().Some? then SliceRange().value.0 else 0
    }

    /** `GetSliceMax`: the high end of the range, or 0. */
    function SliceMax(): int
      reads this
    {
      if SliceRange().Some? then SliceRange().value.1 else 0
    }

    /** `MImageViewer2::SetSlice`. */
    method SetSlice(requested: int)
      modifies this
      ensures State() == SetSliceEffect(old(State()), old(SliceRange()), requested)
      ensures orientation == old(orientation) && renders == old(renders)
    {
      var s := requested;
      var range := SliceRange();
      if range.Some? {
        if s < range.value.0 {
          s := range.value.0;
        } else if s > range.value.1 {
          s := range.value.1;
        }
      }
      if slice == s {
        return;
      }
      slice := s;
      modifications := modifications + 1;
      extentUpdates := extentUpdates + 1;
    }

    method Render()
      modifies this
      ensures renders == old(renders) + 1
      ensures State() == old(State()) && orientation == old(orientation)
    {
      renders := renders + 1;
    }
  }

  /** The two-viewer interactor style. */
  class SliceStyler {
    var viewer1: OverlayViewer?
    var viewer2: OverlayViewer?
    var slice: int
    var sliceMin: int
    var sliceMax: int

    /** The C++ leaves the viewer pointers and the slice fields uninitialised until `setImageViewers`; here they start as null and 0. */
    constructor ()
      ensures viewer1 == null && viewer2 == null
    {
      viewer1 := null;
      viewer2 := null;
      slice := 0;
      sliceMin := 0;
      sliceMax := 0;
    }

    predicate Valid()
      reads this
    {
      viewer1 != null && viewer2 != null && InRange(slice, sliceMin, sliceMax)
    }

    /** `setImageViewers`: the range is the first viewer's; the cursor starts at its midpoint. */
    method SetImageViewers(v1: OverlayViewer, v2: OverlayViewer)
      modifies this
      ensures viewer1 == v1 && viewer2 == v2
      ensures sliceMin == v1.SliceMin() && sliceMax == v1.SliceMax()
      ensures slice == Midpoint(sliceMin, sliceMax)
      ensures sliceMin <= sliceMax ==> Valid()
    {
      viewer1 := v1;
      viewer2 := v2;
      sliceMin := v1.SliceMin();
      sliceMax := v1.SliceMax();
      slice := Midpoint(sliceMin, sliceMax);
      if sliceMin <= sliceMax {
        MidpointInRange(sliceMin, sliceMax);
      }
    }

    /** Both viewers are sent the cursor; only the first is rendered. */
    method PushAndRender()
      requires viewer1 != null && viewer2 != null
      modifies viewer1, viewer2
      ensures viewer1.State() == SetSliceEffect(old(viewer1.State()), old(viewer1.SliceRange()), slice)
      ensures viewer1 != viewer2 ==>
        viewer2.State() == SetSliceEffect(old(viewer2.State()), old(viewer2.SliceRange()), slice)
      ensures viewer1.renders == old(viewer1.renders) + 1
      ensures viewer1 != viewer2 ==> viewer2.renders == old(viewer2.renders)
      ensures viewer1.orientation == old(viewer1.orientation) && viewer2.orientation == old(viewer2.orientation)
    {
      ghost var range := viewer1.SliceRange();
      viewer1.SetSlice(slice);
      viewer2.SetSlice(slice);
      if viewer1 == viewer2 {
        SetSliceIdempotent(old(viewer1.State()), range, slice);
      }
      viewer1.Render();
    }

    /** `OnMouseWheelForward`: one slice up unless at the maximum; a move goes to both viewers. */
    method MoveSliceForward()
      requires viewer1 != null && viewer2 != null
      modifies this, viewer1, viewer2
      ensures viewer1 == old(viewer1) && viewer2 == old(viewer2)
      ensures sliceMin == old(sliceMin) && sliceMax == old(sliceMax)
      ensures slice == Forward(old(slice), sliceMax)
      ensures old(slice) < sliceMax ==>
        viewer1.State() == SetSliceEffect(old(viewer1.State()), old(viewer1.SliceRange()), slice)
        && (viewer1 != viewer2 ==>
          viewer2.State() == SetSliceEffect(old(viewer2.State()), old(viewer2.SliceRange()), slice)
          && viewer2.renders == old(viewer2.renders))
        && viewer1.renders == old(viewer1.renders) + 1
      ensures old(slice) >= sliceMax ==> unchanged(viewer1) && unchanged(viewer2)
      ensures old(Valid()) ==> Valid()
    {
      if slice < sliceMax {
        slice := slice + 1;
        PushAndRender();
      }
    }

    /** `OnMouseWheelBackward`: one slice down unless at the minimum; a move goes to both viewers. */
    method MoveSliceBackward()
      requires viewer1 != null && viewer2 != null
      modifies this, viewer1, viewer2
      ensures viewer1 == old(viewer1) && viewer2 == old(viewer2)
      ensures sliceMin == old(sliceMin) && sliceMax == old(sliceMax)
      ensures slice == Backward(old(slice), sliceMin)
      ensures old(slice) > sliceMin ==>
        viewer1.State() == SetSliceEffect(old(viewer1.State()), old(viewer1.SliceRange()), slice)
        && (viewer1 != viewer2 ==>
          viewer2.State() == SetSliceEffect(old(viewer2.State()), old(viewer2.SliceRange()), slice)
          && viewer2.renders == old(viewer2.renders))
        && viewer1.renders == old(viewer1.renders) + 1
      ensures old(slice) <= sliceMin ==> unchanged(viewer1) && unchanged(viewer2)
      ensures old(Valid()) ==> Valid()
    {
      if slice > sliceMin {
        slice := slice - 1;
        PushAndRender();
      }
    }
  }
}
