/**
 * The pie widget (ProgressiveCircle): a filled background disc with a filled wedge for the progress
 * over it, and the percentage label centred on the view.
 */
module Pie {
  import opened Options
  import opened Measure
  import opened AngleAnimation
  import opened Drawing

  /** The left and top edge of both rectangles (startingPoint). */
  const StartingPoint: real := 0.0
  const DefaultStartAngle: real := -90.0
  const DefaultTextSize: int := 50

  /** The style attributes the widget reads; an absent one keeps its default. Colours are not modelled. */
  datatype Attributes = Attributes(
    textSize: Option<int>,
    startAngle: Option<real>,
    percentCompleted: Option<real>)

  /** No attribute set at all behaves as a set in which every attribute is absent. */
  function Resolved(attrs: Option<Attributes>): Attributes {
    attrs.GetOr(Attributes(None, None, None))
  }

  /** The rectangle both the background and the foreground are drawn in: the full measured bounds. */
  function Bounds(w: int, h: int): (r: RectF)
    ensures r.right - r.left == w as real && r.bottom - r.top == h as real
    ensures CentreX(r) == w as real / 2.0 && CentreY(r) == h as real / 2.0
  {
    RectF(StartingPoint, StartingPoint, w as real, h as real)
  }

  /** The commands one onDraw issues, in order: the background disc, the progress wedge, then the
      label centred on the rectangle unless the label is blank. */
  function PieFrame(bounds: RectF, startAngle: real, angle: real,
                    labelText: string, textWidth: int, textHeight: int): (f: seq<DrawCommand>)
    ensures |f| == if IsBlank(labelText) then 2 else 3
    // exactly the first two commands are arcs, and both are closed through the centre
    ensures forall i :: 0 <= i < |f| ==> (f[i].Arc? <==> i < 2)
    ensures f[0].useCenter && f[1].useCenter
  {
    [Arc(bounds, startAngle, 360.0, true), Arc(bounds, startAngle, angle, true)] +
    (if IsBlank(labelText) then [] else [CentredText(labelText, CentreX(bounds), CentreY(bounds), textWidth, textHeight)])
  }

  /** Layering of a frame: the full background disc first, the progress wedge over it from the same
      start angle with the current sweep, both closed through the centre, and nothing drawn over the label. */
  lemma PieFrameLayered(bounds: RectF, startAngle: real, angle: real,
                        labelText: string, textWidth: int, textHeight: int)
    ensures var f := PieFrame(bounds, startAngle, angle, labelText, textWidth, textHeight);
      2 <= |f| &&
      f[0] == Arc(bounds, startAngle, 360.0, true) &&
      f[1] == Arc(bounds, startAngle, angle, true) &&
      TextOnTop(f)
  {
  }

  /** A frame draws a label exactly when the label is not blank, and then draws it once, last,
      centred on the rectangle. */
  lemma PieFrameText(bounds: RectF, startAngle: real, angle: real,
                     labelText: string, textWidth: int, textHeight: int)
    ensures var f := PieFrame(bounds, startAngle, angle, labelText, textWidth, textHeight);
      (DrawsText(f) <==> !IsBlank(labelText)) &&
      (!IsBlank(labelText) ==> f[|f| - 1] == CentredText(labelText, CentreX(bounds), CentreY(bounds), textWidth, textHeight))
  {
  }

  class ProgressiveCircle {
    /** Both are lateinit in the source: absent until the first draw. */
    var foregroundRect: Option<RectF>
    var backgroundRect: Option<RectF>
    var angle: real
    var startAngle: real
    var percentCompleted: real
    var calculatedHeight: int
    var calculatedWidth: int
    var percentageCompletedText: string
    var textSize: int
    /** The animation last started on the view; a new one replaces it. */
    var animation: Option<CircleAngleAnimation>
    /** The platform's Float.toString. */
    const formatFloat: real -> string

    /** One constructor for the four overloads; the one without an attribute set passes None. */
    constructor (attrs: Option<Attributes>, formatFloat: real -> string)
      ensures this.formatFloat == formatFloat
      ensures foregroundRect == None && backgroundRect == None
      ensures angle == 0.0 && animation == None && percentageCompletedText == ""
      ensures calculatedWidth == 0 && calculatedHeight == 0
      ensures textSize == Resolved(attrs).textSize.GetOr(DefaultTextSize)
      ensures startAngle == Resolved(attrs).startAngle.GetOr(DefaultStartAngle)
      ensures percentCompleted == Resolved(attrs).percentCompleted.GetOr(0.0)
    {
      this.formatFloat := formatFloat;
      foregroundRect := None;
      backgroundRect := None;
      angle := 0.0;
      startAngle := DefaultStartAngle;
      percentCompleted := 0.0;
      calculatedHeight := 0;
      calculatedWidth := 0;
      percentageCompletedText := "";
      textSize := DefaultTextSize;
      animation := None;
      new;
      if attrs.Some? {
        var a := attrs.value;
        textSize := a.textSize.GetOr(textSize);
        startAngle := a.startAngle.GetOr(startAngle);
        percentCompleted := a.percentCompleted.GetOr(percentCompleted);
      }
    }

    /** onMeasure: each axis is measured on its own inputs; nothing else changes. */
    method OnMeasure(width: Axis, height: Axis)
      modifies this`calculatedWidth, this`calculatedHeight
      ensures calculatedWidth == MeasureAxis(width)
      ensures calculatedHeight == MeasureAxis(height)
    {
      var desiredWidth := width.suggestedMinimum + width.paddingLow + width.paddingHigh;
      var desiredHeight := height.suggestedMinimum + height.paddingLow + height.paddingHigh;
      calculatedWidth := MeasureDimension(desiredWidth, width.mode, width.size);
      calculatedHeight := MeasureDimension(desiredHeight, height.mode, height.size);
    }

    /** setProgress: the label changes at once; the angle does not, but a new animation starts from it. */
    method SetProgress(percentCompleted: real)
      modifies this`percentageCompletedText, this`animation
      ensures percentageCompletedText == ProgressLabel(formatFloat(percentCompleted))
      ensures animation == Some(CircleAngleAnimation(angle, TargetAngle(percentCompleted)))
      ensures angle == old(angle)
    {
      percentageCompletedText := formatFloat(percentCompleted) + "%";
      animation := Some(Start(angle, percentCompleted));
    }

    /** applyTransformation of the running animation: the angle at interpolated time t. Only the
        angle is written, and the new angle does not depend on the previous one. */
    method ApplyTransformation(interpolatedTime: real)
      requires animation.Some?
      modifies this`angle
      ensures angle == AngleAt(animation.value, interpolatedTime)
    {
      var a := animation.value;
      angle := a.oldAngle + (a.newAngle - a.oldAngle) * interpolatedTime;
    }

    method DrawBackgroundCircle(canvas: Canvas)
      requires backgroundRect.Some?
      modifies canvas
      ensures canvas.commands == old(canvas.commands) + [Arc(backgroundRect.value, startAngle, 360.0, true)]
    {
      canvas.DrawArc(backgroundRect.value, startAngle, 360.0, true);
    }

    method DrawForegroundCircle(canvas: Canvas)
      requires foregroundRect.Some?
      modifies canvas
      ensures canvas.commands == old(canvas.commands) + [Arc(foregroundRect.value, startAngle, angle, true)]
    {
      canvas.DrawArc(foregroundRect.value, startAngle, angle, true);
    }

    method DrawPercentageCompletedText(canvas: Canvas, str: string, centerX: real, centerY: real,
                                       textWidth: int, textHeight: int)
      modifies canvas
      ensures canvas.commands == old(canvas.commands) + [CentredText(str, centerX, centerY, textWidth, textHeight)]
    {
      canvas.DrawText(str, centerX - HalfOf(textWidth) as real, centerY + HalfOf(textHeight) as real);
    }

    /** onDraw: both rectangles are rebuilt as the full measured bounds, and the frame's commands are
        appended to the canvas. textWidth and textHeight are the label's measured text bounds. */
    method OnDraw(canvas: Canvas, textWidth: int, textHeight: int)
      modifies this`foregroundRect, this`backgroundRect, canvas
      ensures foregroundRect == Some(Bounds(calculatedWidth, calculatedHeight))
      ensures backgroundRect == foregroundRect
      ensures canvas.commands == old(canvas.commands) +
        PieFrame(Bounds(calculatedWidth, calculatedHeight), startAngle, angle, percentageCompletedText, textWidth, textHeight)
    {
      foregroundRect := Some(RectF(StartingPoint, StartingPoint, calculatedWidth as real, calculatedHeight as real));
      backgroundRect := Some(RectF(StartingPoint, StartingPoint, calculatedWidth as real, calculatedHeight as real));
      DrawBackgroundCircle(canvas);
      DrawForegroundCircle(canvas);
      if !IsBlank(percentageCompletedText) {
        var r := foregroundRect.value;
        var centerX := (r.left + r.right) / 2.0;
        var centerY := (r.top + r.bottom) / 2.0;
        DrawPercentageCompletedText(canvas, percentageCompletedText, centerX, centerY, textWidth, textHeight);
      }
    }
  }

  /** A client: before any setProgress the wedge has no sweep and no label is drawn, whatever
      percentCompleted the style asked for; after one, the label is always drawn. */
  method FirstFrames(formatFloat: real -> string, textWidth: int, textHeight: int)
  {
    var circle := new ProgressiveCircle(Some(Attributes(None, None, Some(40.0))), formatFloat);
    circle.OnMeasure(Axis(0, 0, 0, Exactly, 200), Axis(0, 0, 0, Exactly, 200));
    var canvas := new Canvas();
    circle.OnDraw(canvas, textWidth, textHeight);
    assert canvas.commands[1].sweepAngle == 0.0;
    assert |canvas.commands| == 2;
    circle.SetProgress(40.0);
    ProgressLabelNotBlank(formatFloat(40.0));
    circle.OnDraw(canvas, textWidth, textHeight);
    assert |canvas.commands| == 5;
    assert canvas.commands[4].Text?;
  }
}
