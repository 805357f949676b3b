/**
 * The ring widget (CircularProgressBar): a stroked progress arc around a filled inner disc, with the
 * percentage label centred on the disc.
 */
module Ring {
  import opened Options
  import opened Measure
  import opened AngleAnimation
  import opened Drawing

  const DefaultProgressBarWidth: real := 10.0
  const BaseGap: real := 20.0
  const DefaultStartAngle: real := -90.0
  const DefaultTextSize: int := 50

  /** The gap between the ring and the disc. The initialiser computes it from the stroke width in
      force when it runs, which is always the default: the styled width is read only afterwards. */
  const InnerGap: real := BaseGap + DefaultProgressBarWidth / 2.0

  /** The left and top edges the two rectangles get at construction and keep from then on. */
  const ProgressInset: real := DefaultProgressBarWidth
  const InnerInset: real := DefaultProgressBarWidth + InnerGap

  /** The style attributes the widget reads; an absent one keeps its default. Colours are not modelled. */
  datatype Attributes = Attributes(
    textSize: Option<int>,
    startAngle: Option<real>,
    progressBarWidth: Option<real>,
    percentCompleted: Option<real>)

  /** No attribute set at all behaves as a set in which every attribute is absent. */
  function Resolved(attrs: Option<Attributes>): Attributes {
    attrs.GetOr(Attributes(None, None, None, None))
  }

  /** The stroke rectangle after a draw of a w by h view with stroke width barWidth. */
  function ProgressRect(w: int, h: int, barWidth: real): (r: RectF)
    // left and top keep the construction-time inset of the default width
    ensures r.left == DefaultProgressBarWidth && r.top == DefaultProgressBarWidth
    // right and bottom sit one current stroke width inside the view's edges
    ensures w as real - r.right == barWidth && h as real - r.bottom == barWidth
  {
    RectF(ProgressInset, ProgressInset, w as real - barWidth, h as real - barWidth)
  }

  /** The disc rectangle after a draw of a w by h view with stroke width barWidth. */
  function InnerRect(w: int, h: int, barWidth: real): (r: RectF)
    ensures r.left == 35.0 && r.top == 35.0
    // right and bottom sit the current stroke width plus the fixed gap of 25 inside the view's edges
    ensures w as real - r.right == barWidth + 25.0 && h as real - r.bottom == barWidth + 25.0
  {
    RectF(InnerInset, InnerInset, w as real - barWidth - InnerGap, h as real - barWidth - InnerGap)
  }

  /** The commands one onDraw issues, in order: the inner disc, the progress stroke, then the label
      centred on the disc unless the label is blank. */
  function RingFrame(inner: RectF, progress: RectF, startAngle: real, angle: real,
                     labelText: string, textWidth: int, textHeight: int): (f: seq<DrawCommand>)
    ensures |f| == if IsBlank(labelText) then 2 else 3
    // exactly the first two commands are arcs
    ensures forall i :: 0 <= i < |f| ==> (f[i].Arc? <==> i < 2)
  {
    [Arc(inner, 0.0, 360.0, true), Arc(progress, startAngle, angle, false)] +
    (if IsBlank(labelText) then [] else [CentredText(labelText, CentreX(inner), CentreY(inner), textWidth, textHeight)])
  }

  /** Whatever the view size and stroke width, each edge of the disc lies strictly inside the
      corresponding edge of the ring (edge by edge: a small view leaves the disc rectangle empty,
      see DiscNonEmptyIff). */
  lemma InnerInsideProgress(w: int, h: int, barWidth: real)
    ensures StrictlyInside(ProgressRect(w, h, barWidth), InnerRect(w, h, barWidth))
  {
  }

  /** The disc rectangle has positive width exactly when the view is wider than 60 plus the stroke
      width (and positive height likewise), since its left edge is fixed at 35. */
  lemma DiscNonEmptyIff(w: int, h: int, barWidth: real)
    ensures InnerRect(w, h, barWidth).left < InnerRect(w, h, barWidth).right <==> w as real > 60.0 + barWidth
    ensures InnerRect(w, h, barWidth).top < InnerRect(w, h, barWidth).bottom <==> h as real > 60.0 + barWidth
  {
  }

  /** The disc and the ring always share a centre. */
  lemma RectsConcentric(w: int, h: int, barWidth: real)
    ensures CentreX(InnerRect(w, h, barWidth)) == CentreX(ProgressRect(w, h, barWidth))
    ensures CentreY(InnerRect(w, h, barWidth)) == CentreY(ProgressRect(w, h, barWidth))
  {
  }

  /** Because left and top keep their construction values, the ring is centred in the view exactly
      when the stroke width is the default one. */
  lemma CentredInViewIffDefaultWidth(w: int, h: int, barWidth: real)
    ensures CentreX(ProgressRect(w, h, barWidth)) == w as real / 2.0 <==> barWidth == DefaultProgressBarWidth
    ensures CentreY(ProgressRect(w, h, barWidth)) == h as real / 2.0 <==> barWidth == DefaultProgressBarWidth
  {
  }

  /** Layering of a frame: the full disc first, the progress stroke over it with the current sweep,
      and nothing drawn over the label. */
  lemma RingFrameLayered(inner: RectF, progress: RectF, startAngle: real, angle: real,
                         labelText: string, textWidth: int, textHeight: int)
    ensures var f := RingFrame(inner, progress, startAngle, angle, labelText, textWidth, textHeight);
      2 <= |f| &&
      f[0] == Arc(inner, 0.0, 360.0, true) &&
      f[1] == Arc(progress, startAngle, angle, false) &&
      TextOnTop(f)
  {
  }

  /** A frame draws a label exactly when the label is not blank, and then draws it once, last,
      centred on the disc. */
  lemma RingFrameText(inner: RectF, progress: RectF, startAngle: real, angle: real,
                      labelText: string, textWidth: int, textHeight: int)
    ensures var f := RingFrame(inner, progress, startAngle, angle, labelText, textWidth, textHeight);
      (DrawsText(f) <==> !IsBlank(labelText)) &&
      (!IsBlank(labelText) ==> f[|f| - 1] == CentredText(labelText, CentreX(inner), CentreY(inner), textWidth, textHeight))
  {
  }

  class CircularProgressBar {
    var progressRect: RectF
    var innerRect: RectF
    var progressBarWidth: real
    var innerGap: real
    var angle: real
    var startAngle: real
    var percentCompleted: real
    var calculatedHeight: int
    var calculatedWidth: int
    var percentageCompletedText: string
    var textSize: int
    /** The animation last started on the view; a new one replaces it. */
    var animation: Option<CircleAngleAnimation>
    /** The platform's Float.toString. */
    const formatFloat: real -> string

    /** What every method keeps: the gap and the left and top edges never move after construction. */
    ghost predicate Valid()
      reads this
    {
      innerGap == InnerGap &&
      progressRect.left == ProgressInset && progressRect.top == ProgressInset &&
      innerRect.left == InnerInset && innerRect.top == InnerInset
    }

    /** The construction with an optional attribute set (the init block). */
    constructor (attrs: Option<Attributes>, formatFloat: real -> string)
      ensures Valid()
      ensures this.formatFloat == formatFloat
      ensures angle == 0.0 && animation == None && percentageCompletedText == ""
      ensures calculatedWidth == 0 && calculatedHeight == 0
      ensures progressRect == RectF(ProgressInset, ProgressInset, -DefaultProgressBarWidth, -DefaultProgressBarWidth)
      ensures innerRect == RectF(InnerInset, InnerInset, -InnerInset, -InnerInset)
      ensures textSize == Resolved(attrs).textSize.GetOr(DefaultTextSize)
      ensures startAngle == Resolved(attrs).startAngle.GetOr(DefaultStartAngle)
      ensures progressBarWidth == Resolved(attrs).progressBarWidth.GetOr(DefaultProgressBarWidth)
      ensures percentCompleted == Resolved(attrs).percentCompleted.GetOr(0.0)
    {
      this.formatFloat := formatFloat;
      progressRect := RectF(0.0, 0.0, 0.0, 0.0);
      innerRect := RectF(0.0, 0.0, 0.0, 0.0);
      progressBarWidth := DefaultProgressBarWidth;
      innerGap := BaseGap + DefaultProgressBarWidth / 2.0;
      angle := 0.0;
      startAngle := DefaultStartAngle;
      percentCompleted := 0.0;
      calculatedHeight := 0;
      calculatedWidth := 0;
      percentageCompletedText := "";
      textSize := DefaultTextSize;
      animation := None;
      new;
      innerGap := BaseGap + progressBarWidth / 2.0;
      progressRect := RectF(progressBarWidth, progressBarWidth,
                            calculatedWidth as real - progressBarWidth, calculatedHeight as real - progressBarWidth);
      innerRect := RectF(progressBarWidth + innerGap, progressBarWidth + innerGap,
                         calculatedWidth as real - progressBarWidth - innerGap,
                         calculatedHeight as real - progressBarWidth - innerGap);
      if attrs.Some? {
        var a := attrs.value;
        textSize := a.textSize.GetOr(textSize);
        startAngle := a.startAngle.GetOr(startAngle);
        progressBarWidth := a.progressBarWidth.GetOr(progressBarWidth);
        percentCompleted := a.percentCompleted.GetOr(percentCompleted);
      }
    }

    /** onMeasure: each axis is measured on its own inputs; nothing else changes. */
    method OnMeasure(width: Axis, height: Axis)
      modifies this`calculatedWidth, this`calculatedHeight
      ensures calculatedWidth == MeasureAxis(width)
      ensures calculatedHeight == MeasureAxis(height)
    {
      var desiredWidth := width.suggestedMinimum + width.paddingLow + width.paddingHigh;
      var desiredHeight := height.suggestedMinimum + height.paddingLow + height.paddingHigh;
      calculatedWidth := MeasureDimension(desiredWidth, width.mode, width.size);
      calculatedHeight := MeasureDimension(desiredHeight, height.mode, height.size);
    }

    /** setProgress: the label changes at once; the angle does not, but a new animation starts from it. */
    method SetProgress(percentCompleted: real)
      modifies this`percentageCompletedText, this`animation
      ensures percentageCompletedText == ProgressLabel(formatFloat(percentCompleted))
      ensures animation == Some(CircleAngleAnimation(angle, TargetAngle(percentCompleted)))
      ensures angle == old(angle)
    {
      percentageCompletedText := formatFloat(percentCompleted) + "%";
      animation := Some(Start(angle, percentCompleted));
    }

    /** applyTransformation of the running animation: the angle at interpolated time t. Only the
        angle is written, and the new angle does not depend on the previous one. */
    method ApplyTransformation(interpolatedTime: real)
      requires animation.Some?
      modifies this`angle
      ensures angle == AngleAt(animation.value, interpolatedTime)
    {
      var a := animation.value;
      angle := a.oldAngle + (a.newAngle - a.oldAngle) * interpolatedTime;
    }

    method DrawInnerCircle(canvas: Canvas)
      modifies canvas
      ensures canvas.commands == old(canvas.commands) + [Arc(innerRect, 0.0, 360.0, true)]
    {
      canvas.DrawArc(innerRect, 0.0, 360.0, true);
    }

    method DrawProgressCircle(canvas: Canvas)
      modifies canvas
      ensures canvas.commands == old(canvas.commands) + [Arc(progressRect, startAngle, angle, false)]
    {
      canvas.DrawArc(progressRect, startAngle, angle, false);
    }

    method DrawPercentageCompletedText(canvas: Canvas, str: string, centerX: real, centerY: real,
                                       textWidth: int, textHeight: int)
      modifies canvas
      ensures canvas.commands == old(canvas.commands) + [CentredText(str, centerX, centerY, textWidth, textHeight)]
    {
      canvas.DrawText(str, centerX - HalfOf(textWidth) as real, centerY + HalfOf(textHeight) as real);
    }

    /** onDraw: right and bottom of both rectangles follow the measured size, left and top stay, and
        the frame's commands are appended to the canvas. textWidth and textHeight are the label's
        measured text bounds. */
    method OnDraw(canvas: Canvas, textWidth: int, textHeight: int)
      requires Valid()
      modifies this`progressRect, this`innerRect, canvas
      ensures Valid()
      ensures progressRect == ProgressRect(calculatedWidth, calculatedHeight, progressBarWidth)
      ensures innerRect == InnerRect(calculatedWidth, calculatedHeight, progressBarWidth)
      ensures canvas.commands == old(canvas.commands) +
        RingFrame(innerRect, progressRect, startAngle, angle, percentageCompletedText, textWidth, textHeight)
    {
      innerRect := innerRect.(right := calculatedWidth as real - progressBarWidth - innerGap,
                              bottom := calculatedHeight as real - progressBarWidth - innerGap);
      progressRect := progressRect.(right := calculatedWidth as real - progressBarWidth,
                                    bottom := calculatedHeight as real - progressBarWidth);
      DrawInnerCircle(canvas);
      DrawProgressCircle(canvas);
      if !IsBlank(percentageCompletedText) {
        var centerX := (innerRect.left + innerRect.right) / 2.0;
        var centerY := (innerRect.top + innerRect.bottom) / 2.0;
        DrawPercentageCompletedText(canvas, percentageCompletedText, centerX, centerY, textWidth, textHeight);
      }
    }
  }

  /** A client: an animation interrupted half-way restarts from the angle it had reached. */
  method InterruptedProgress(formatFloat: real -> string)
  {
    var bar := new CircularProgressBar(None, formatFloat);
    bar.SetProgress(50.0);
    bar.ApplyTransformation(0.5);
    assert bar.angle == 90.0;
    bar.SetProgress(80.0);
    assert bar.animation.value == CircleAngleAnimation(90.0, 288.0);
    bar.ApplyTransformation(1.0);
    assert bar.angle == 288.0;
  }
}
