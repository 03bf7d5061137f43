/**
 * The slice-scrubbing interactor style of ome_tiff.cpp (`myInteractorStyler`): the cursor of
 * viewer.cpp plus a corner annotation, created on first use, whose lower-right text reads
 * "<slice> / <max>". Wheel steps update the viewer and the text with no explicit `Render()` call.
 */
module OmeTiff {
  import opened Optional
  import opened Toolkit
  import opened SliceRange
  import opened Decimal
  import opened Tokenizer

  /** The lower-right annotation text for a slice: `ss << m_slice << " / " << m_slice_max`. */
  function SliceText(slice: int, max: int): string {
    IntToString(slice) + " / " + IntToString(max)
  }

  /** What `<<` writes for an `int` holds no blank. */
  lemma NoBlankInNumber(i: int)
    ensures ' ' !in IntToString(i)
  {
    IntToStringAlphabet(i);
  }

  /**
   * The text can be read back: split on " / " it gives the two numbers, which parse to the
   * slice and the maximum.
   */
  lemma SliceTextRoundTrip(slice: int, max: int)
    requires INT_MIN <= slice <= INT_MAX && INT_MIN <= max <= INT_MAX
    ensures Split(SliceText(slice, max), " / ") == [IntToString(slice), IntToString(max)]
    ensures ParseInt(Split(SliceText(slice, max), " / ")[0]) == slice
    ensures ParseInt(Split(SliceText(slice, max), " / ")[1]) == max
  {
    var a := IntToString(slice);
    var b := IntToString(max);
    NoBlankInNumber(slice);
    NoBlankInNumber(max);
    forall q: nat | q < |a|
      ensures !OccursAt(a + " / " + b, " / ", q)
    {
      assert (a + " / " + b)[q] == a[q];
    }
    SplitFirst(a, " / ", b);
    LacksFirstChar(b, " / ");
    SplitWithoutDelimiter(b, " / ");
    ParseIntRoundTrip(slice, []);
    ParseIntRoundTrip(max, []);
    assert a + [] == a && b + [] == b;
  }

  /** `vtkCornerAnnotation`, reduced to its lower-right text. */
  class CornerAnnotation {
    var lowerRight: string
    ghost var writes: nat

    constructor ()
      ensures lowerRight == "" && writes == 0
    {
      lowerRight := "";
      writes := 0;
    }

    method SetLowerRight(t: string)
      modifies this
      ensures lowerRight == t && writes == old(writes) + 1
    {
      lowerRight := t;
      writes := writes + 1;
    }
  }

  class SliceStyler {
    var viewer: ImageViewer?
    var text: CornerAnnotation?
    var slice: int
    var sliceMin: int
    var sliceMax: int

    constructor ()
      ensures viewer == null && text == null
    {
      viewer := null;
      text := null;
      slice := 0;
      sliceMin := 0;
      sliceMax := 0;
    }

    predicate Valid()
      reads this
    {
      viewer != null && text != null && InRange(slice, sliceMin, sliceMax)
    }

    /** The annotation shows the current cursor. */
    predicate TextShown()
      reads this, text
    {
      text != null && text.lowerRight == SliceText(slice, sliceMax)
    }

    /** `ShowSliceText`. */
    method ShowSliceText()
      requires text != null
      modifies text
      ensures TextShown() && text.writes == old(text.writes) + 1
    {
      text.SetLowerRight(IntToString(slice) + " / " + IntToString(sliceMax));
    }

    /**
     * `setImageViewer`: cache the range, choose and push the starting slice, create the
     * annotation on the first call only, and show the text.
     */
    method SetImageViewer(v: ImageViewer, sliceNo: int)
      modifies this, v, text
      ensures viewer == v
      ensures sliceMin == old(v.SliceMin()) && sliceMax == old(v.SliceMax())
      ensures slice == InitialSlice(sliceMin, sliceMax, sliceNo)
      ensures v.slice == slice && v.orientation == old(v.orientation) && v.renders == old(v.renders)
      ensures old(text) != null ==> text == old(text) && text.writes == old(text.writes) + 1
      ensures old(text) == null ==> fresh(text) && text.writes == 1
      ensures TextShown()
      ensures sliceNo <= 0 && sliceMin <= sliceMax ==> Valid()
    {
      viewer := v;
      sliceMin := v.SliceMin();
      sliceMax := v.SliceMax();
      slice := if sliceNo <= 0 then Midpoint(sliceMin, sliceMax) else sliceNo;
      viewer.SetSlice(slice);
      if text == null {
        text := new CornerAnnotation();
      }
      ShowSliceText();
      if sliceNo <= 0 && sliceMin <= sliceMax {
        MidpointInRange(sliceMin, sliceMax);
      }
    }

    /** `OnMouseWheelForward`: one slice up unless at the maximum; a move updates viewer and text, with no explicit `Render()`. */
    method MoveSliceForward()
      requires viewer != null && text != null
      modifies this, viewer, text
      ensures viewer == old(viewer) && text == old(text)
      ensures sliceMin == old(sliceMin) && sliceMax == old(sliceMax)
      ensures slice == Forward(old(slice), sliceMax)
      ensures old(slice) < sliceMax ==> viewer.slice == slice && TextShown() && text.writes == old(text.writes) + 1
      ensures old(slice) >= sliceMax ==> unchanged(viewer) && unchanged(text)
      ensures viewer.renders == old(viewer.renders) && viewer.orientation == old(viewer.orientation)
      ensures old(Valid()) ==> Valid()
      ensures old(TextShown()) ==> TextShown()
    {
      if slice < sliceMax {
        slice := slice + 1;
        viewer.SetSlice(slice);
        ShowSliceText();
      }
    }

    /** `OnMouseWheelBackward`: one slice down unless at the minimum; a move updates viewer and text, with no explicit `Render()`. */
    method MoveSliceBackward()
      requires viewer != null && text != null
      modifies this, viewer, text
      ensures viewer == old(viewer) && text == old(text)
      ensures sliceMin == old(sliceMin) && sliceMax == old(sliceMax)
      ensures slice == Backward(old(slice), sliceMin)
      ensures old(slice) > sliceMin ==> viewer.slice == slice && TextShown() && text.writes == old(text.writes) + 1
      ensures old(slice) <= sliceMin ==> unchanged(viewer) && unchanged(text)
      ensures viewer.renders == old(viewer.renders) && viewer.orientation == old(viewer.orientation)
      ensures old(Valid()) ==> Valid()
      ensures old(TextShown()) ==> TextShown()
    {
      if slice > sliceMin {
        slice := slice - 1;
        viewer.SetSlice(slice);
        ShowSliceText();
      }
    }

    /** `OnChar`: 'x', 'y', 'z' switch the viewer's orientation; other keys do nothing. */
    method OnChar(key: char)
      requires viewer != null
      modifies viewer
      ensures OrientationForKey(key).Some? ==> viewer.orientation == OrientationForKey(key).value
      ensures OrientationForKey(key).None? ==> unchanged(viewer)
      ensures slice == old(slice) && sliceMin == old(sliceMin) && sliceMax == old(sliceMax)
    {
      if key == 'x' {
        viewer.SetSliceOrientation(YZ);
      } else if key == 'y' {
        viewer.SetSliceOrientation(XZ);
      } else if key == 'z' {
        viewer.SetSliceOrientation(XY);
      }
    }
  }

  /** Attaching a second viewer reuses the annotation created by the first. */
  method AttachTwice(s: SliceStyler, v1: ImageViewer, v2: ImageViewer)
    modifies s, v1, v2, s.text
    ensures s.text != null && s.viewer == v2 && s.TextShown()
    ensures old(s.text) == null ==> fresh(s.text) && s.text.writes == 2
    ensures old(s.text) != null ==> s.text == old(s.text)
  {
    s.SetImageViewer(v1, 0);
    ghost var first := s.text;
    s.SetImageViewer(v2, 0);
    assert s.text == first;
  }
}
