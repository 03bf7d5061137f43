# VTK demo programs: the repository's own logic, modelled and proved in Dafny

This project models the code the demo programs contribute themselves. The visualization
toolkit's readers, filters and renderers are not part of it. It covers:

- The string splitter `split`, of which surface_viewer.cpp and slice_direction.cpp hold
  identical copies, and surface_viewer.cpp's number reader `parse_num`. slice_direction.cpp
  reads numbers with its own `parse_double`, which returns a value and a success flag.
- The height-map loader in `main` of surface_viewer.cpp. It reads the grid size from two
  header lines and keeps every tenth row and column.
- The DICOM patient-orientation string `ComputeOrientation` and the backslash-separated
  vector reader `parse_3d` of slice_direction.cpp.
- The slice-scrubbing interactor styles of viewer.cpp, ome_tiff.cpp, mask.cpp, blend.cpp and
  overlay.cpp, including overlay.cpp's clamping `MImageViewer2::SetSlice`.
- The camera-path styles of viewer_3d.cpp and viewer_four_planes.cpp. The second maps world
  points to slice numbers and draws crosshairs.
- The mesh-reader dispatch `ReadPolyData` (viewer_3d.cpp, rotate_scene.cpp) and the
  key handler of rotate_scene.cpp.

The modules are:

- **Tokenizer**: `split` and `string_view::find`.
- **Decimal**: `parse_num<int>`, `<<` for `int`, and `from_chars` for `double`, kept as an oracle.
- **HeightMap**: the loader.
- **SliceDirection**: slice_direction.cpp.
- **SliceRange**: the pure cursor rules shared by the slice stylers.
- **Toolkit**: abstract viewer and camera state.
- **Viewer, OmeTiff, MaskBlend, Overlay**: the slice stylers.
- **CameraPath, Viewer3D, FourPlanes**: the path styles.
- **MeshReaders, RotateScene**: the dispatch tables.

Each style is a `class` whose methods update the fields the C++ class updates. Loops that
build values are methods with loop invariants. Each is proved equal to a recursive
specification function, and the properties are proved about that function. mask.cpp:35-71
and blend.cpp:29-65 are the same class line for line, so one class `MaskBlend.SliceStyler`
models both. Where the two copies of `split` and of `ReadPolyData` appear, the table cites
one copy.

The stylers differ in what they do beyond moving the cursor:
- ome_tiff.cpp:64-84 makes no explicit `Render()` call in its wheel steps.
- mask.cpp:35-41 and blend.cpp:29-35 do not push the initial slice to the viewer.

## Model

| member | source | states |
|---|---|---|
| Tokenizer.FindFrom | surface_viewer.cpp:57 | the result is the leftmost occurrence of the delimiter at or after the start, and `None` (npos) exactly when there is none |
| Tokenizer.SplitTokens | surface_viewer.cpp:53-65 | the `while` loop over `sv` returns exactly the tokens of the recursive specification `Split`, for any non-empty delimiter |
| Tokenizer.SplitTokensClean | surface_viewer.cpp:57-63 | no token is empty and no token contains the delimiter |
| Tokenizer.SplitConcat | surface_viewer.cpp:57-63 | the tokens concatenated in order equal the input with every leftmost non-overlapping delimiter deleted (an independent left-to-right definition) |
| Tokenizer.EmptyDelimiterMakesNoProgress | surface_viewer.cpp:57-61 | with an empty delimiter `find` answers 0 and `sv` is not shortened, which is why a non-empty delimiter is required |
| Tokenizer.SplitEmpty | surface_viewer.cpp:63 | the empty string has no tokens |
| Tokenizer.SplitWithoutDelimiter | surface_viewer.cpp:57-63 | a non-empty string without the delimiter is the single token `[input]` |
| Tokenizer.SplitFirst | surface_viewer.cpp:57-61 | when the delimiter first occurs right after a non-empty piece, that piece is the first token and splitting continues after the delimiter |
| Tokenizer.SplitJoin | slice_direction.cpp:70-82 | for a one-character delimiter, splitting the join of non-empty delimiter-free pieces gives back exactly those pieces |
| Decimal.ParseInt | surface_viewer.cpp:67-72 | the result is a 32-bit `int`, and is the value-initialised 0 whenever the token does not start with a number |
| Decimal.ParseIntRoundTrip | surface_viewer.cpp:67-72 | what `<<` writes for a 32-bit `int`, followed by a non-digit or nothing, parses back to the same value |
| Decimal.NatToString | ome_tiff.cpp:89 | `<<` writes a non-empty run of digits without a leading zero |
| Decimal.IntToStringAlphabet | ome_tiff.cpp:89 | `<<` for an `int` writes only digits and a minus sign |
| HeightMap.ReadSize | surface_viewer.cpp:277 | `parse_num<int>(split(line, ",")[1].substr(1))` computes the header field; `substr(1)` is safe because tokens are never empty |
| HeightMap.SecondField | surface_viewer.cpp:277 | a size line `key,field[,...]` has `field` as its second comma-separated token |
| HeightMap.HeaderFieldOf | surface_viewer.cpp:276-279 | a size line `key,<c><n>` (with any further fields) has a second field, and the loader reads `n` from it |
| HeightMap.SampleRow | surface_viewer.cpp:295-296 | the column loop yields one point per column 0, 10, 20, … below `cols`, with the height parsed from that token |
| HeightMap.SampleDataLine | surface_viewer.cpp:293-296 | one pass of the row loop produces sampled row `i`'s points, ahead of the later rows |
| HeightMap.SampleGrid | surface_viewer.cpp:291-297 | the row loop reads one new line per sampled row (sampled row k reads the k-th line after the four header lines) and produces exactly the specification's points |
| HeightMap.LoadHeightMap | surface_viewer.cpp:276-297 | `cols` comes from line 0 and `rows` from line 1, and the points number `ceil(rows/10) * ceil(cols/10)` |
| HeightMap.GridPointsCount | surface_viewer.cpp:291-297 | the sampled grid has `ceil(rows/10) * ceil(cols/10)` points |
| HeightMap.RowPointsCount | surface_viewer.cpp:295-296 | a sampled row has `ceil(cols/10)` points |
| HeightMap.GridPointsSampled | surface_viewer.cpp:291-297 | every point sits at a grid index (row, column) whose coordinates are both multiples of 10 inside the grid, with the height parsed from that row's line and column |
| HeightMap.RowPointsSampled | surface_viewer.cpp:295-296 | every point of a row has that row and a sampled column, with the height of that token |
| HeightMap.GridPointsRowMajor | surface_viewer.cpp:291-297 | the points come in strictly increasing row-major order, so each grid index appears once |
| HeightMap.RowPointsRowMajor | surface_viewer.cpp:295-296 | a row's points are in strictly increasing column order |
| SliceDirection.PickDominant | slice_direction.cpp:49-65 | one pass appends the axis that is above 0.0001 and strictly larger than both others, and breaks exactly when no axis is |
| SliceDirection.ComputeOrientation | slice_direction.cpp:33-68 | the three-pass loop that zeroes used magnitudes returns exactly the specification string `Orientation(v)` |
| SliceDirection.OrientationShape | slice_direction.cpp:40-65 | at most three letters; each is its axis's sign letter (R/L, A/P, F/H, zero taking L/P/H); each axis is above 0.0001; magnitudes strictly decrease; no letter repeats |
| SliceDirection.OrientationComplete | slice_direction.cpp:48-65 | when the axes above the threshold have distinct magnitudes, every one of them is named |
| SliceDirection.OrientationTie | slice_direction.cpp:49-65 | when two axes share the largest magnitude, the string is empty |
| SliceDirection.OrientationExamples | slice_direction.cpp:48-65 | (1,1,0) gives "", (1,0.5,0.5) gives "L", (0.2,-0.9,0.4) gives "AHL", and a component of 0.00005 gives "" |
| SliceDirection.LetterNamesAxis | slice_direction.cpp:40-42 | different axes never share a letter |
| SliceDirection.AxesTieAtTop | slice_direction.cpp:49-65 | a tie between the two largest remaining magnitudes stops the loop immediately |
| SliceDirection.Parse3D | slice_direction.cpp:91-101 | an empty split gives (0,0,0); otherwise component k is token k's value when it parses and 0 when it does not |
| SliceDirection.ThreeValuesRoundTrip | slice_direction.cpp:94 | three non-empty backslash-free values joined with `\` split back into exactly those three |
| SliceDirection.Parse3DBoundaries | slice_direction.cpp:94-96 | the empty string splits into nothing, and a two-value string violates the three-value requirement that `ns[2]` imposes |
| SliceRange.Midpoint | viewer.cpp:34 | `(min+max)/2` truncates toward zero: the remainder is 0 or 1 for a non-negative sum and 0 or -1 for a negative one |
| SliceRange.MidpointInRange | viewer.cpp:34 | the midpoint of a non-empty range lies in it |
| SliceRange.InitialSliceUnchecked | viewer.cpp:34 | a positive `slice_no` is used as given, even above the maximum |
| SliceRange.StepsKeepRange | viewer.cpp:44-66 | both steps keep `min <= slice <= max`, and each moves exactly when the slice is strictly inside its bound |
| SliceRange.ForwardThenBackward | viewer.cpp:44-66 | a forward step then a backward step, from below the maximum, returns to the start |
| SliceRange.BackwardThenForward | viewer.cpp:44-66 | a backward step then a forward step, from above the minimum, returns to the start |
| SliceRange.ForwardNReaches | viewer.cpp:44-54 | k forward notches reach `min(slice + k, max)` |
| SliceRange.BackwardNReaches | viewer.cpp:56-66 | k backward notches reach `max(slice - k, min)` |
| Toolkit.OrientationKeys | viewer.cpp:68-76 | exactly 'x', 'y' and 'z' select an orientation (YZ, XZ, XY), each the plane normal to the named axis |
| Viewer.SliceStyler.SetImageViewer | viewer.cpp:29-36 | it caches the viewer's min and max and starts at the midpoint for `slice_no <= 0`, else at `slice_no`; it pushes the slice with no explicit render; from the midpoint the range invariant holds |
| Viewer.SliceStyler.MoveSliceForward | viewer.cpp:44-54 | the slice becomes `Forward(slice, max)`; a move sets the viewer's slice and renders once; at the maximum the viewer is untouched; the range invariant is kept |
| Viewer.SliceStyler.MoveSliceBackward | viewer.cpp:56-66 | the slice becomes `Backward(slice, min)`; a move sets the viewer's slice and renders once; at the minimum the viewer is untouched; the range invariant is kept |
| Viewer.SliceStyler.OnChar | viewer.cpp:68-76 | 'x'/'y'/'z' set the orientation and other keys leave the viewer unchanged; the cached min, max and slice are not refreshed |
| Viewer.WheelForwardThenBackward | viewer.cpp:44-66 | a notch forward and one back, below the maximum, leave cursor and viewer slice where they were, after two renders |
| OmeTiff.SliceTextRoundTrip | ome_tiff.cpp:86-91 | the text `"<slice> / <max>"` splits on `" / "` into the two numbers, which parse back to the slice and the maximum |
| OmeTiff.CornerAnnotation.SetLowerRight | ome_tiff.cpp:90 | the lower-right text is replaced and one more write is recorded |
| OmeTiff.SliceStyler.constructor | ome_tiff.cpp:98 | the styler starts with no viewer and no annotation |
| OmeTiff.SliceStyler.ShowSliceText | ome_tiff.cpp:86-91 | the annotation then reads `"<slice> / <max>"`, written once |
| OmeTiff.SliceStyler.SetImageViewer | ome_tiff.cpp:31-46 | it caches the range, starts at the midpoint or `slice_no` and pushes it, creates the annotation only when there is none, and shows the text; from the midpoint the range invariant holds |
| OmeTiff.SliceStyler.MoveSliceForward | ome_tiff.cpp:64-73 | the slice becomes `Forward(slice, max)`; a move updates the viewer and rewrites the text, and no step makes an explicit render; the text and range invariants are kept |
| OmeTiff.SliceStyler.MoveSliceBackward | ome_tiff.cpp:75-84 | the slice becomes `Backward(slice, min)`; a move updates the viewer and rewrites the text, and no step makes an explicit render; the text and range invariants are kept |
| OmeTiff.SliceStyler.OnChar | ome_tiff.cpp:53-61 | 'x'/'y'/'z' set the orientation and other keys leave the viewer unchanged |
| OmeTiff.AttachTwice | ome_tiff.cpp:39-44 | a second `setImageViewer` reuses the annotation the first created |
| MaskBlend.SliceStyler.SetImageViewer | mask.cpp:35-41 | it caches the viewer's range and starts at its midpoint without touching the viewer; the range invariant holds for a non-empty range |
| MaskBlend.SliceStyler.MoveSliceForward | mask.cpp:49-59 | the slice becomes `Forward(slice, max)`; a move sets the viewer's slice and renders; at the maximum nothing changes; the range invariant is kept |
| MaskBlend.SliceStyler.MoveSliceBackward | mask.cpp:61-71 | the slice becomes `Backward(slice, min)`; a move sets the viewer's slice and renders; at the minimum nothing changes; the range invariant is kept |
| MaskBlend.AttachThenStep | mask.cpp:35-59 | the viewer first receives the styler's slice (midpoint + 1) on the first moving notch |
| Overlay.SetSliceLandsInRange | overlay.cpp:54-61 | with a range the stored slice is clamped into it (an in-range request is kept); without a range the request is stored as is |
| Overlay.SetSliceNoOp | overlay.cpp:63-68 | the state is unchanged exactly when the clamped request is the current slice; otherwise there is one modification and one extent update |
| Overlay.SetSliceIdempotent | overlay.cpp:52-70 | `SetSlice(s); SetSlice(s)` has the effect of `SetSlice(s)` |
| Overlay.OverlayViewer.SetSlice | overlay.cpp:52-70 | the new slice, modification count and extent-update count are `SetSliceEffect` of the old ones, and nothing is rendered |
| Overlay.SliceStyler.SetImageViewers | overlay.cpp:100-107 | the range is the first viewer's only and the cursor starts at its midpoint |
| Overlay.SliceStyler.PushAndRender | overlay.cpp:121-123 | both viewers receive the cursor through the clamping `SetSlice` and only the first renders, also when both are the same viewer |
| Overlay.SliceStyler.MoveSliceForward | overlay.cpp:115-126 | the slice becomes `Forward(slice, max)`; a move sends it to both viewers and renders only the first; at the maximum both are untouched; the range invariant is kept |
| Overlay.SliceStyler.MoveSliceBackward | overlay.cpp:128-139 | the slice becomes `Backward(slice, min)`; a move sends it to both viewers and renders only the first; at the minimum both are untouched; the range invariant is kept |
| MeshReaders.ToLowerPointwise | viewer_3d.cpp:42 | lower-casing keeps the length, maps each character independently and leaves no capital |
| MeshReaders.ToLowerIdempotent | viewer_3d.cpp:42 | lower-casing twice is lower-casing once |
| MeshReaders.ReaderIgnoresCase | viewer_3d.cpp:42-44 | extensions equal up to case select the same reader, e.g. ".PLY" and ".ply" |
| MeshReaders.ReaderTable | viewer_3d.cpp:44-92 | each of the seven readers is selected by its own extension, and by an extension exactly when it lower-cases to that one |
| MeshReaders.SphereFallback | viewer_3d.cpp:93-99 | the sphere is chosen exactly for extensions outside the seven, including the empty one |
| MeshReaders.ReaderExamplesUpperCase | rotate_scene.cpp:40-90 | ".PLY" selects the PLY reader and ".G" the BYU reader |
| MeshReaders.ReaderExamplesFallback | rotate_scene.cpp:91-97 | ".png" and a dotless "ply" both fall back to the sphere |
| CameraPath.ForwardAsWrittenOverruns | viewer_3d.cpp:123-141 | with the guard as written, a forward notch from N-2 reaches N-1, where the focal point N is off the path |
| CameraPath.ForwardAsWrittenExample | viewer_four_planes.cpp:115-130 | on a three-point path two forward notches from the start reach index 2 and ask for point 3 |
| CameraPath.StepsKeepCameraOnPath | viewer_3d.cpp:123-131 | with the corrected forward guard, both notches keep the index reachable, and every move lands where points k-1 and k+1 exist |
| CameraPath.StepsMoveWhen | viewer_3d.cpp:123-131 | forward moves exactly when `index < N-2` (corrected) and backward exactly when `index > 1` |
| CameraPath.NeverBackToStart | viewer_3d.cpp:128-131 | once the index has left 0, no notch returns it to 0 |
| CameraPath.StepsUndo | viewer_3d.cpp:123-131 | away from the bounds a forward notch and a backward notch undo each other |
| CameraPath.StepForwardNReaches | viewer_3d.cpp:123-127 | k forward notches reach `min(index + k, N-2)` and stay reachable |
| Viewer3D.CameraMotionStyle.constructor | viewer_3d.cpp:144-145 | no path and index 0 |
| Viewer3D.CameraMotionStyle.SetPathPoints | viewer_3d.cpp:112-120 | the camera stands at point 0 looking at point 1, and the clipping range is reset (N >= 2 required) |
| Viewer3D.CameraMotionStyle.MoveCameraToNthPos | viewer_3d.cpp:134-141 | the camera stands at point k-1 looking at point k+1, and renders once |
| Viewer3D.CameraMotionStyle.WheelForward | viewer_3d.cpp:123-127 | the index becomes `StepForward(index, N)`; a move places the camera for the new index and renders; no move leaves the camera untouched; the style stays valid |
| Viewer3D.CameraMotionStyle.WheelBackward | viewer_3d.cpp:128-131 | the index becomes `StepBackward(index)`; a move places the camera and renders; the style stays valid |
| Viewer3D.FirstNotch | viewer_3d.cpp:112-127 | on a path of three or more points the first notch frames points 0 and 2 |
| FourPlanes.Trunc | viewer_four_planes.cpp:146 | `static_cast<int>` truncates toward zero: the result is within one of the real, on the zero side |
| FourPlanes.TruncFacts | viewer_four_planes.cpp:146 | truncation keeps whole numbers and preserves order |
| FourPlanes.AxisToSliceEndpoints | viewer_four_planes.cpp:146-148 | the world minimum maps to the slice minimum and the world maximum to the slice maximum |
| FourPlanes.AxisToSliceMonotone | viewer_four_planes.cpp:146-148 | the map is monotone for an increasing world range and an ordered slice range |
| FourPlanes.AxisToSliceInRange | viewer_four_planes.cpp:146-148 | a coordinate inside the world range maps inside the slice range |
| FourPlanes.AxisToSliceUnclamped | viewer_four_planes.cpp:146-148 | nothing clamps: one world range beyond either end maps one slice range beyond it, outside the slice range |
| FourPlanes.PointToSliceInBox | viewer_four_planes.cpp:144-155 | a point inside the world box maps to slices inside every viewer's range, and the box's low corner maps to the three minima |
| FourPlanes.CrossAxesSpanPlane | viewer_four_planes.cpp:178-197 | viewer i's crosshair uses the two axes other than i (YZ: y,z; XZ: x,z; XY: x,y), and viewer i is normal to axis i |
| FourPlanes.CrossLinesMeet | viewer_four_planes.cpp:198-204 | when the slices fall inside the window, viewer i's horizontal and vertical lines both pass through its two in-plane slice numbers at depth 0.01 |
| FourPlanes.FourPlanesStyle.constructor | viewer_four_planes.cpp:209-220 | index 0, no path or viewers, zeroed ranges, no crosshair lines and no sphere |
| FourPlanes.FourPlanesStyle.SetPathPoints | viewer_four_planes.cpp:46-53 | the camera stands at point 0 looking at point 1, and the clipping range is reset |
| FourPlanes.FourPlanesStyle.SetImageViewers | viewer_four_planes.cpp:55-75 | the viewers are kept in order sagittal, coronal, axial, and viewer i's min and max are stored at `2i` and `2i+1` |
| FourPlanes.FourPlanesStyle.SetXYZRng | viewer_four_planes.cpp:77-112 | the world box is stored as given, and every crosshair line is drawn through 0 and spans its viewer's window size |
| FourPlanes.FourPlanesStyle.DrawCrossLine | viewer_four_planes.cpp:157-206 | the marker is created on first use only (three actors), is centred on the slice numbers, and all six lines are drawn through them |
| FourPlanes.FourPlanesStyle.ShowSlices | viewer_four_planes.cpp:134-139 | the crosshairs show the mapped point, the marker sphere is centred on its slice numbers, and the axial viewer gets its slice; distinct viewers each get their own slice and one render |
| FourPlanes.FourPlanesStyle.MoveCameraToNthPos | viewer_four_planes.cpp:126-142 | the camera stands at point k-1 looking at point k+1, point k is mapped to slices that the viewers, crosshairs and marker centre show, and the scene renders once |
| FourPlanes.FourPlanesStyle.WheelForward | viewer_four_planes.cpp:115-119 | the index becomes `StepForward(index, N)`; a move shows the new index's camera, crosshairs, marker centre and axial slice, and distinct viewers each get their own slice and one render; no move leaves the style's fields, camera, lines, viewers and marker (existence, centre and actors) untouched |
| FourPlanes.FourPlanesStyle.WheelBackward | viewer_four_planes.cpp:120-123 | the index becomes `StepBackward(index)`; a move shows the new index's camera, crosshairs, marker centre and axial slice, and distinct viewers each get their own slice and one render; no move leaves the style's fields, camera, lines, viewers and marker (existence, centre and actors) untouched |
| RotateScene.ActionKeys | rotate_scene.cpp:117-123 | exactly 'a', 'e' and 'r' are handled: azimuth, elevation and roll |
| RotateScene.OrbitFixesCenter | rotate_scene.cpp:139-146 | for a linear rotation the translate-rotate-translate transform leaves the actor's centre fixed |
| RotateScene.OrbitIsRigid | rotate_scene.cpp:139-154 | for a linear length-keeping rotation, the camera keeps its distance to the centre and to its focal point |
| RotateScene.SceneStyle.SetActor | rotate_scene.cpp:107 | the actor's centre is the one the orbit uses |
| RotateScene.SceneStyle.OnChar | rotate_scene.cpp:113-162 | other keys change nothing and do not render; 'r' rolls 10 degrees with position and focal point kept; 'a'/'e' move both points by the same 10-degree orbit about the view-up or the negated camera right; every handled key orthogonalizes the view-up and renders once |

## Left out

- Toolkit pipelines are left out because they are the toolkit's code, not this repository's. This covers readers, the DICOM sorter, casts, reslicers, blenders, mappers, actors, renderers, widgets, lookup tables and the render loop. A viewer is its slice, orientation, range, window size and a render count.
- Toolkit.ImageViewer.SetSlice: stores the slice as given. The toolkit's `vtkImageViewer2::SetSlice` also clamps the slice into the slice range and renders when the slice changes; neither is modelled. So `renders` counts only the explicit `Render()` calls of the repository's code, and a viewer's stored slice can lie outside its range where the program pushes an unchecked value (`slice_no` above the maximum in viewer.cpp:34-35 and ome_tiff.cpp:36-37, or an unclamped mapped slice in viewer_four_planes.cpp:137), where the toolkit would clamp it.
- `SetSliceOrientation` is taken to set the orientation; its internals are not modelled.
- The camera's view-up and view-transform numerics are not modelled, because they are toolkit code: `Roll` and `OrthogonalizeViewUp` are recorded as events.
- `vtkTransform::RotateWXYZ` is a rotation oracle passed in.
- `double` is modelled as `real`, and rounding is not modelled.
- `from_chars` for `double` is an oracle that returns a value and a success flag.
- `static_cast<int>` of an out-of-range `double` is undefined behaviour; the model truncates without a bound.
- `(min + max) / 2` is computed without 32-bit overflow.
- I/O is left out; inputs are parameters instead:
  - the file is a sequence of lines;
  - the path is a sequence of points;
  - the extension is a string, because `GetFilenameLastExtension` is a toolkit call.
  - Path-file parsing and console output (`std::cout`/`std::cerr`) are not modelled.
- The height-map `dx`/`dy` scaling is floating point. Points carry grid indices instead of world coordinates.
- HeightMap.LoadHeightMap: requires that both header lines have a second comma-separated field and that each sampled data line has a token for every sampled column. The C++ indexes `split(line, ",")[1]` (surface_viewer.cpp:277,279) and `c[j]` (surface_viewer.cpp:296) unchecked.
- HeightMap.ReadSize: requires a second comma-separated field, which the C++ indexes unchecked.
- A line read past the end of the file is taken to be empty. `std::getline` gives the same "" when the file ends with a newline; when the last line has no newline, it leaves that last line in place. This differs from the model only when no column is sampled.
- SliceDirection.Parse3D: requires none or at least three values, because `ns[0..2]` is indexed unchecked.
- The crosshair renderers' layers, the actors' colours and scales, and the sphere's radius are left out, because they are rendering.
- overlay.cpp's slider callback is left out: `USE_SLIDER` is not defined, so it is not compiled.
- FourPlanes.FourPlanesStyle.ShowSlices: states each viewer's own slice and render only when the three viewers are distinct objects. With a viewer attached twice, only the axial slot's slice is stated.
- Viewer3D.CameraMotionStyle.WheelForward: uses the corrected forward guard `index < N-2`, not the as-written `index < N-1` (see Findings).
- FourPlanes.FourPlanesStyle.WheelForward: uses the corrected forward guard `index < N-2`, not the as-written `index < N-1` (see Findings).
- Overlay.SliceStyler.PushAndRender: states the second viewer's state separately only when it differs from the first. When both are the same viewer, the first viewer's state covers it.
- The window size (`GetSize`) is taken as fixed for each viewer.

## Findings

| source | as written | input that shows it | evidently intended | confidence | as-written member | corrected member |
|---|---|---|---|---|---|---|
| viewer_3d.cpp:123-127 | the forward guard `index < N-1` lets the index reach N-1, and `moveCameraToNthPos(N-1)` then reads point N, one past the last (the same code is in viewer_four_planes.cpp:115-119) | a path of N = 3 points, index 1: a notch moves to 2 and asks for point 3 | guard `index < N-2`, so the focal point k+1 always exists | not executed | CameraPath.ForwardAsWrittenOverruns | CameraPath.StepsKeepCameraOnPath |
