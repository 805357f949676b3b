/**
 * What the widgets hand to the platform's drawing layer: float rectangles, a canvas that records
 * the arcs and texts drawn on it in order, and the label placement both widgets share
 * (drawPercentageCompletedText and the isBlank guard in front of it).
 */
module Drawing {

  /** A float rectangle (RectF) by its four edges. */
  datatype RectF = RectF(left: real, top: real, right: real, bottom: real)

  function CentreX(r: RectF): real { (r.left + r.right) / 2.0 }

  function CentreY(r: RectF): real { (r.top + r.bottom) / 2.0 }

  /** Every edge of inner lies strictly inside the corresponding edge of outer. */
  predicate StrictlyInside(outer: RectF, inner: RectF) {
    outer.left < inner.left && outer.top < inner.top &&
    inner.right < outer.right && inner.bottom < outer.bottom
  }

  /** One call on the canvas: drawArc(oval, startAngle, sweepAngle, useCenter) or drawText(text, x, y). */
  datatype DrawCommand =
    | Arc(oval: RectF, startAngle: real, sweepAngle: real, useCenter: bool)
    | Text(text: string, x: real, y: real)

  /** A canvas that keeps every command drawn on it, oldest first. */
  class Canvas {
    var commands: seq<DrawCommand>

    constructor ()
      ensures commands == []
    {
      commands := [];
    }

    method DrawArc(oval: RectF, startAngle: real, sweepAngle: real, useCenter: bool)
      modifies this
      ensures commands == old(commands) + [Arc(oval, startAngle, sweepAngle, useCenter)]
    {
      commands := commands + [Arc(oval, startAngle, sweepAngle, useCenter)];
    }

    method DrawText(text: string, x: real, y: real)
      modifies this
      ensures commands == old(commands) + [Text(text, x, y)]
    {
      commands := commands + [Text(text, x, y)];
    }
  }

  /** Kotlin's Char.isWhitespace on the JVM: Java's isWhitespace or isSpaceChar. */
  predicate IsWhitespace(c: char) {
    ('\t' <= c <= '\r') || ('\U{001C}' <= c <= '\U{001F}') || c == ' ' ||
    c == '\U{00A0}' || c == '\U{1680}' || ('\U{2000}' <= c <= '\U{200A}') ||
    c == '\U{2028}' || c == '\U{2029}' || c == '\U{202F}' || c == '\U{205F}' || c == '\U{3000}'
  }

  /** Kotlin's isBlank (and isNullOrBlank on a non-null string): empty or whitespace only. */
  function IsBlank(s: string): (blank: bool)
    ensures s == "" ==> blank
    // a percent sign is not whitespace, so no string holding one is blank
    ensures '%' in s ==> !blank
  {
    forall i :: 0 <= i < |s| ==> IsWhitespace(s[i])
  }

  /** The label setProgress stores: the formatted percentage followed by a percent sign. */
  function ProgressLabel(formatted: string): (labelText: string)
    ensures |labelText| == |formatted| + 1
    ensures formatted <= labelText && labelText[|formatted|] == '%'
  {
    formatted + "%"
  }

  /** Whatever the float formatter produces, a progress label is never blank, so once setProgress
      has run the label is drawn on every frame. */
  lemma ProgressLabelNotBlank(formatted: string)
    ensures !IsBlank(ProgressLabel(formatted))
  {
  }

  /** Kotlin's Int division by two, which truncates towards zero. */
  function HalfOf(n: int): (h: int)
    ensures 0 <= n ==> 0 <= n - 2 * h <= 1
    ensures n < 0 ==> -1 <= n - 2 * h <= 0
  {
    if n >= 0 then n / 2 else -((-n) / 2)
  }

  /** drawPercentageCompletedText: the text command for a label centred on (centerX, centerY), given
      the width and height of the label's measured text bounds. The horizontal and vertical offsets
      are the integer halves of the bounds. */
  function CentredText(text: string, centerX: real, centerY: real, textWidth: int, textHeight: int): (cmd: DrawCommand)
    ensures cmd.Text? && cmd.text == text
    // a box of the measured width placed at x, [x, x + width], has its middle at most half a pixel right of the centre
    ensures 0 <= textWidth ==> centerX <= cmd.x + textWidth as real / 2.0 <= centerX + 0.5
    // a box of the measured height standing on y, [y - height, y], has its middle at most half a pixel above the centre
    ensures 0 <= textHeight ==> centerY - 0.5 <= cmd.y - textHeight as real / 2.0 <= centerY
    // exactly: an odd bound leaves the middle off by precisely half a pixel
    ensures 0 <= textWidth ==> cmd.x + textWidth as real / 2.0 == centerX + (textWidth % 2) as real / 2.0
    ensures 0 <= textHeight ==> cmd.y - textHeight as real / 2.0 == centerY - (textHeight % 2) as real / 2.0
  {
    Text(text, centerX - HalfOf(textWidth) as real, centerY + HalfOf(textHeight) as real)
  }

  /** For even text bounds the label is centred exactly. */
  lemma EvenTextCentredExactly(text: string, centerX: real, centerY: real, textWidth: nat, textHeight: nat)
    requires textWidth % 2 == 0 && textHeight % 2 == 0
    ensures CentredText(text, centerX, centerY, textWidth, textHeight).x + textWidth as real / 2.0 == centerX
    ensures CentredText(text, centerX, centerY, textWidth, textHeight).y - textHeight as real / 2.0 == centerY
  {
    var hw, hh := HalfOf(textWidth), HalfOf(textHeight);
    assert textWidth == 2 * hw;
    assert textHeight == 2 * hh;
  }

  /** Layering: in a frame no arc is drawn after a text, so the label is never covered. */
  predicate TextOnTop(cmds: seq<DrawCommand>) {
    forall i, j :: 0 <= i < j < |cmds| && cmds[i].Text? ==> cmds[j].Text?
  }

  predicate DrawsText(cmds: seq<DrawCommand>) {
    exists i :: 0 <= i < |cmds| && cmds[i].Text?
  }
}
