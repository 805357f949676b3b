# Circular progress widgets, modelled in Dafny

This project models the logic of the two Android progress widgets in
`circular-progressbar`:

- **CircularProgressBar** (module `Ring`): a ring. It strokes a progress arc
  around a filled inner disc and centres the percentage label on the disc.
- **ProgressiveCircle** (module `Pie`): a pie. It fills a background disc,
  fills a wedge over it for the progress, and centres the label on the view.

Both widgets carry the same copies of three pieces of logic. The model
writes each of them once:

- `Measure`: the measurement rule (`measureDimension`) and the desired size
  `onMeasure` gives it.
  - EXACTLY gives the spec size.
  - AT_MOST gives the smaller of the desired size and the spec size.
  - Any other mode gives the desired size.
- `AngleAnimation`: the inner class `CircleAngleAnimation`.
  - It captures the current angle as `oldAngle` and `360 * p / 100` as `newAngle`.
  - At each frame it yields `oldAngle + (newAngle - oldAngle) * t`.
- `Drawing`: rectangles, a canvas that records its draw calls in order, the
  `isBlank` guard, and the label placement (`drawPercentageCompletedText`).
  The label is offset from the centre by the integer halves of its text bounds.

Each widget is a class with the source's mutable fields. Its methods mirror the source:

- `OnMeasure` writes `calculatedWidth` and `calculatedHeight`.
- `SetProgress` writes the label and replaces the running animation.
- `ApplyTransformation` writes `angle`.
- `OnDraw` updates the rectangles and appends one frame of commands to the canvas.

The frame, the rectangles and the animation are specified by functions
(`RingFrame`, `PieFrame`, `ProgressRect`, `InnerRect`, `Bounds`, `AngleAt`).
The lemmas beside them state layering, containment, centring and the
animation's endpoints, bounds, monotonicity and linearity.

Modelling choices:

- Kotlin `Float` is `real`.
- `Float.toString`, used to format the label, is a function
  `formatFloat: real -> string` that the widget receives at construction.
- The label's text bounds (`getTextBounds`) are integer inputs to `OnDraw`.
- The animation's interpolated time is an input to `ApplyTransformation`.
- The measure spec comes already unpacked into a mode and a size.

Behaviours of the code worth knowing:

- The ring's `innerGap` is computed in the initialiser from the stroke width
  *before* the styled `progressBarWidth` is read. So it is always
  `20 + 10/2 = 25`.
- The two rectangles get their left and top edges at construction, from the default width
  10: 10 for the ring and 35 for the disc. `onDraw` only moves right and bottom, using the
  current stroke width.
- For a styled stroke width other than 10, the ring is therefore not centred in the view.
  `Ring.CentredInViewIffDefaultWidth` states this.
- The disc and the ring still share a centre, and each edge of the disc stays strictly inside the
  matching edge of the ring. For a view no wider than 60 plus the stroke width the disc rectangle is empty.
- The styled `percentCompleted` is stored but never becomes an angle. The angle is 0
  until `setProgress` runs an animation.
- The percentage is not clamped. `TargetAngle` lies in [0, 360] exactly when the
  percentage lies in [0, 100].

## Model

| member | source | states |
|---|---|---|
| `Measure.MeasureDimension` | circular-progressbar/src/main/java/com/anikdey/circular_progressbar/CircularProgressBar.kt:150-163 | EXACTLY yields the spec size whatever is desired; AT_MOST yields a value no larger than either and equal to one of them (the minimum); any other mode yields the desired size |
| `Measure.ExactlyIgnoresContent` | circular-progressbar/src/main/java/com/anikdey/circular_progressbar/CircularProgressBar.kt:142-163 | under an exact constraint, padding and suggested minimum do not affect the measured size, which is the spec size |
| `Measure.ConstrainedWithinSpec` | circular-progressbar/src/main/java/com/anikdey/circular_progressbar/CircularProgressBar.kt:150-163 | under EXACTLY or AT_MOST the measured size never exceeds the spec size |
| `Measure.MeasureIdempotent` | circular-progressbar/src/main/java/com/anikdey/circular_progressbar/CircularProgressBar.kt:150-163 | measuring the measured size again under the same constraint gives the same size |
| `Measure.MeasureMonotone` | circular-progressbar/src/main/java/com/anikdey/circular_progressbar/CircularProgressBar.kt:150-163 | a larger desired size never yields a smaller measured size |
| `Measure.DesiredSize` | circular-progressbar/src/main/java/com/anikdey/circular_progressbar/CircularProgressBar.kt:143-144 | the padding of both ends is added to the suggested minimum in full, so with non-negative padding the view asks for at least its minimum |
| `Measure.MeasureAxis` | circular-progressbar/src/main/java/com/anikdey/circular_progressbar/CircularProgressBar.kt:143-146 | one axis of onMeasure: the spec size under EXACTLY, at most both the spec size and the desired size under AT_MOST, the desired size otherwise |
| `Ring.CircularProgressBar.OnMeasure` | circular-progressbar/src/main/java/com/anikdey/circular_progressbar/CircularProgressBar.kt:142-148 | width and height are each measured from their own axis (suggested minimum plus both paddings, own constraint); no other field changes |
| `Pie.ProgressiveCircle.OnMeasure` | circular-progressbar/src/main/java/com/anikdey/circular_progressbar/ProgressiveCircle.kt:117-138 | the same rule for the pie widget: each axis from its own inputs through the same three-way measureDimension, nothing else changes |
| `AngleAnimation.TargetAngle` | circular-progressbar/src/main/java/com/anikdey/circular_progressbar/CircularProgressBar.kt:170 | the target lies in [0, 360] if and only if the percentage lies in [0, 100] (no clamping either way); 100 percent is 360 degrees |
| `AngleAnimation.Start` | circular-progressbar/src/main/java/com/anikdey/circular_progressbar/CircularProgressBar.kt:169-170 | the animation created by setProgress begins (t = 0) at the widget's current angle and ends (t = 1) at 360*p/100 |
| `AngleAnimation.AngleAt` | circular-progressbar/src/main/java/com/anikdey/circular_progressbar/CircularProgressBar.kt:172-176 | at t = 0 the angle is the captured old angle, at t = 1 the new target |
| `AngleAnimation.AngleStaysBetween` | circular-progressbar/src/main/java/com/anikdey/circular_progressbar/CircularProgressBar.kt:172-176 | for t in [0, 1] the angle lies between the old and new angle, in whichever order they are |
| `AngleAnimation.AngleMonotone` | circular-progressbar/src/main/java/com/anikdey/circular_progressbar/CircularProgressBar.kt:172-174 | as t grows the angle moves monotonically towards the target, never back |
| `AngleAnimation.AngleIsLinear` | circular-progressbar/src/main/java/com/anikdey/circular_progressbar/ProgressiveCircle.kt:144-146 | the angle is affine in the interpolated time the scheduler supplies: interpolating that time interpolates the angle by the same factor (any easing by the platform's interpolator happens before) |
| `AngleAnimation.RestartIsContinuous` | circular-progressbar/src/main/java/com/anikdey/circular_progressbar/CircularProgressBar.kt:165-176 | for an interruption at t in [0, 1], the new animation's first frame lies within the range the old one was sweeping, and its end angle does not depend on the old animation |
| `Ring.CircularProgressBar.constructor` | circular-progressbar/src/main/java/com/anikdey/circular_progressbar/CircularProgressBar.kt:17-81 | angle 0, empty label, no animation, size 0; gap 25 and rectangles (10,10,-10,-10) and (35,35,-35,-35) from the default width; styled text size, start angle, stroke width and percentCompleted override the defaults 50, -90, 10, 0 |
| `Ring.CircularProgressBar.SetProgress` | circular-progressbar/src/main/java/com/anikdey/circular_progressbar/CircularProgressBar.kt:135-140 | the label becomes the formatted percentage plus "%" at once; the angle is unchanged; the new animation starts from the current angle towards 360*p/100 |
| `Ring.CircularProgressBar.ApplyTransformation` | circular-progressbar/src/main/java/com/anikdey/circular_progressbar/CircularProgressBar.kt:172-176 | the angle becomes the running animation's interpolation at t, independent of the previous angle (so repeating a frame changes nothing); only the angle is written |
| `Ring.CircularProgressBar.OnDraw` | circular-progressbar/src/main/java/com/anikdey/circular_progressbar/CircularProgressBar.kt:83-100 | right and bottom become w-W and h-W for the ring, w-W-25 and h-W-25 for the disc, left and top are kept; the canvas gets exactly one ring frame appended |
| `Ring.CircularProgressBar.DrawInnerCircle` | circular-progressbar/src/main/java/com/anikdey/circular_progressbar/CircularProgressBar.kt:102-106 | appends a full 360-degree arc from 0 through the centre over the disc rectangle |
| `Ring.CircularProgressBar.DrawProgressCircle` | circular-progressbar/src/main/java/com/anikdey/circular_progressbar/CircularProgressBar.kt:108-114 | appends an open arc over the ring rectangle from the start angle sweeping the current angle |
| `Ring.CircularProgressBar.DrawPercentageCompletedText` | circular-progressbar/src/main/java/com/anikdey/circular_progressbar/CircularProgressBar.kt:116-133 | appends the label placed by `CentredText` |
| `Ring.ProgressRect` | circular-progressbar/src/main/java/com/anikdey/circular_progressbar/CircularProgressBar.kt:39-90 | after a draw the ring's left and top are the construction-time 10, and its right and bottom sit one current stroke width inside the view's edges |
| `Ring.InnerRect` | circular-progressbar/src/main/java/com/anikdey/circular_progressbar/CircularProgressBar.kt:46-90 | after a draw the disc's left and top are the construction-time 35, and its right and bottom sit the stroke width plus the fixed gap 25 inside the view's edges |
| `Ring.RingFrame` | circular-progressbar/src/main/java/com/anikdey/circular_progressbar/CircularProgressBar.kt:92-99 | a frame has two commands for a blank label and three otherwise, and exactly the first two are arcs |
| `Ring.InnerInsideProgress` | circular-progressbar/src/main/java/com/anikdey/circular_progressbar/CircularProgressBar.kt:38-51 | for every view size and stroke width each edge of the disc rectangle after a draw lies strictly inside the matching edge of the ring rectangle |
| `Ring.DiscNonEmptyIff` | circular-progressbar/src/main/java/com/anikdey/circular_progressbar/CircularProgressBar.kt:86-87 | the disc rectangle has positive width if and only if the view is wider than 60 plus the stroke width, and likewise for height |
| `Ring.RectsConcentric` | circular-progressbar/src/main/java/com/anikdey/circular_progressbar/CircularProgressBar.kt:86-90 | after a draw the disc and the ring have the same centre |
| `Ring.CentredInViewIffDefaultWidth` | circular-progressbar/src/main/java/com/anikdey/circular_progressbar/CircularProgressBar.kt:38-65 | the ring is centred in the view if and only if the stroke width is the default 10 |
| `Ring.RingFrameLayered` | circular-progressbar/src/main/java/com/anikdey/circular_progressbar/CircularProgressBar.kt:92-93 | a frame opens with the full disc, then the progress stroke at the current sweep, and no arc follows a text |
| `Ring.RingFrameText` | circular-progressbar/src/main/java/com/anikdey/circular_progressbar/CircularProgressBar.kt:95-99 | a frame draws text if and only if the label is not blank, and then the last command is the label centred on the disc |
| `Drawing.IsBlank` | circular-progressbar/src/main/java/com/anikdey/circular_progressbar/CircularProgressBar.kt:95 | the empty label is blank, and no label holding a percent sign is |
| `Drawing.ProgressLabel` | circular-progressbar/src/main/java/com/anikdey/circular_progressbar/CircularProgressBar.kt:136 | the label is the formatted percentage followed by one percent sign |
| `Drawing.HalfOf` | circular-progressbar/src/main/java/com/anikdey/circular_progressbar/CircularProgressBar.kt:129-130 | Kotlin Int division by two: the remainder is 0 or 1 with the sign of the dividend (truncation towards zero) |
| `Drawing.CentredText` | circular-progressbar/src/main/java/com/anikdey/circular_progressbar/CircularProgressBar.kt:126-131 | a box of the measured size placed at the text position has its middle exactly on the given centre for even bounds and exactly half a pixel right of it (horizontally) or above it (vertically) for odd bounds |
| `Drawing.EvenTextCentredExactly` | circular-progressbar/src/main/java/com/anikdey/circular_progressbar/ProgressiveCircle.kt:106-107 | for even text bounds the label's box is centred exactly |
| `Drawing.ProgressLabelNotBlank` | circular-progressbar/src/main/java/com/anikdey/circular_progressbar/CircularProgressBar.kt:136 | a label set by setProgress is never blank, whatever the formatter returns, so every later frame draws it |
| `Pie.ProgressiveCircle.constructor` | circular-progressbar/src/main/java/com/anikdey/circular_progressbar/ProgressiveCircle.kt:16-70 | angle 0, empty label, no animation, size 0, no rectangles yet; styled text size, start angle and percentCompleted override the defaults 50, -90, 0 |
| `Pie.ProgressiveCircle.SetProgress` | circular-progressbar/src/main/java/com/anikdey/circular_progressbar/ProgressiveCircle.kt:110-115 | the label becomes the formatted percentage plus "%" at once; the angle is unchanged; the new animation starts from the current angle towards 360*p/100 |
| `Pie.ProgressiveCircle.ApplyTransformation` | circular-progressbar/src/main/java/com/anikdey/circular_progressbar/ProgressiveCircle.kt:144-148 | the angle becomes the running animation's interpolation at t; only the angle is written |
| `Pie.ProgressiveCircle.OnDraw` | circular-progressbar/src/main/java/com/anikdey/circular_progressbar/ProgressiveCircle.kt:74-91 | both rectangles become the same full-bounds rectangle (0, 0, w, h); the canvas gets exactly one pie frame appended |
| `Pie.ProgressiveCircle.DrawBackgroundCircle` | circular-progressbar/src/main/java/com/anikdey/circular_progressbar/ProgressiveCircle.kt:93-96 | appends a full 360-degree arc through the centre from the start angle over the background rectangle |
| `Pie.ProgressiveCircle.DrawForegroundCircle` | circular-progressbar/src/main/java/com/anikdey/circular_progressbar/ProgressiveCircle.kt:98-101 | appends a wedge through the centre from the start angle sweeping the current angle over the foreground rectangle |
| `Pie.ProgressiveCircle.DrawPercentageCompletedText` | circular-progressbar/src/main/java/com/anikdey/circular_progressbar/ProgressiveCircle.kt:103-108 | appends the label placed by `CentredText` |
| `Pie.Bounds` | circular-progressbar/src/main/java/com/anikdey/circular_progressbar/ProgressiveCircle.kt:77-78 | the rectangle spans exactly the measured width and height and its centre is the middle of the view |
| `Pie.PieFrame` | circular-progressbar/src/main/java/com/anikdey/circular_progressbar/ProgressiveCircle.kt:83-90 | a frame has two commands for a blank label and three otherwise; exactly the first two are arcs, both closed through the centre |
| `Pie.PieFrameLayered` | circular-progressbar/src/main/java/com/anikdey/circular_progressbar/ProgressiveCircle.kt:83-84 | a frame opens with the full background disc, then the wedge from the same start angle at the current sweep, both through the centre, and no arc follows a text |
| `Pie.PieFrameText` | circular-progressbar/src/main/java/com/anikdey/circular_progressbar/ProgressiveCircle.kt:86-90 | a frame draws text if and only if the label is not blank, and then the last command is the label centred on the view |

## Left out

- The View lifecycle is not modelled: `requestLayout`, `startAnimation` scheduling, `super.onDraw` and the 1000 ms duration. The animation's interpolated time is an input, and the idle/animating distinction is not tracked: the last animation started stays in the `animation` field.
- MeasureSpec bit packing is not modelled (`getMode`/`getSize`). Neither is `setMeasuredDimension`, which hands the platform the same two values `OnMeasure` stores.
- Paint state is not modelled: colours, fill/stroke style, stroke width and caps, anti-aliasing and text size. Neither are the colour attributes. Draw commands record geometry only.
- `getTextBounds` is not modelled, because it is font measurement: the label's text bounds are inputs to `OnDraw`, and the scratch `textBounds` rectangle is not kept.
- Kotlin `Float.toString` is the `formatFloat` parameter. Its format is not modelled.
- IEEE float rounding is not modelled (reals are exact). Neither is 32-bit overflow of the desired size, nor rounding of `Int.toFloat`.
- `RectF` objects are modelled as values, so in-place updates of `right`/`bottom` become record updates. No aliasing is lost, since the rectangles are private and never shared.
- The pie widget creates a new `Paint` on every draw, and the ring reuses one. The model has no paints.
- The multiple constructor overloads of the pie widget are one constructor with an optional attribute set.
