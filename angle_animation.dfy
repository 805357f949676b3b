/**
 * The angle animation both widgets run (their inner class CircleAngleAnimation): created with the
 * widget's current angle and a target percentage, then asked once per frame for the angle at an
 * interpolated time in [0, 1] supplied by the platform's animation scheduler.
 */
module AngleAnimation {

  /** The sweep angle a percentage maps to: 360 * p / 100, with no clamping of p. */
  function TargetAngle(percentCompleted: real): (angle: real)
    ensures (0.0 <= angle <= 360.0) <==> (0.0 <= percentCompleted <= 100.0)
    ensures percentCompleted == 100.0 ==> angle == 360.0
  {
    360.0 * percentCompleted / 100.0
  }

  /** The two angles the animation captures when it is created; neither is changed afterwards. */
  datatype CircleAngleAnimation = CircleAngleAnimation(oldAngle: real, newAngle: real)

  /** The animation created by setProgress: it starts from the widget's angle at that moment. */
  function Start(currentAngle: real, percentCompleted: real): (a: CircleAngleAnimation)
    ensures AngleAt(a, 0.0) == currentAngle
    ensures AngleAt(a, 1.0) == TargetAngle(percentCompleted)
  {
    CircleAngleAnimation(currentAngle, TargetAngle(percentCompleted))
  }

  /** applyTransformation: the angle the widget takes at interpolated time t. */
  function AngleAt(a: CircleAngleAnimation, interpolatedTime: real): (angle: real)
    ensures interpolatedTime == 0.0 ==> angle == a.oldAngle
    ensures interpolatedTime == 1.0 ==> angle == a.newAngle
  {
    a.oldAngle + (a.newAngle - a.oldAngle) * interpolatedTime
  }

  predicate Between(x: real, a: real, b: real) {
    (a <= x <= b) || (b <= x <= a)
  }

  /** While the interpolated time stays in [0, 1] the angle stays between the two captured angles. */
  lemma AngleStaysBetween(a: CircleAngleAnimation, t: real)
    requires 0.0 <= t <= 1.0
    ensures Between(AngleAt(a, t), a.oldAngle, a.newAngle)
  {
    var d := a.newAngle - a.oldAngle;
    var x := AngleAt(a, t);
    assert x == a.oldAngle + d * t;
    if d >= 0.0 {
      ProductBounds(d, t);
      assert a.oldAngle <= x <= a.newAngle;
    } else {
      ProductBounds(-d, t);
      assert (-d) * t == -(d * t);
      assert a.newAngle <= x <= a.oldAngle;
    }
  }

  lemma ProductBounds(d: real, t: real)
    requires 0.0 <= d && 0.0 <= t <= 1.0
    ensures 0.0 <= d * t <= d
  {
    assert d * t <= d * 1.0 by { assert d * (1.0 - t) >= 0.0; }
  }

  /** The angle moves towards the target as time advances: never backwards. */
  lemma AngleMonotone(a: CircleAngleAnimation, t1: real, t2: real)
    requires t1 <= t2
    ensures a.oldAngle <= a.newAngle ==> AngleAt(a, t1) <= AngleAt(a, t2)
    ensures a.newAngle <= a.oldAngle ==> AngleAt(a, t2) <= AngleAt(a, t1)
  {
    var d := a.newAngle - a.oldAngle;
    assert AngleAt(a, t2) - AngleAt(a, t1) == d * (t2 - t1);
    if d >= 0.0 {
      assert d * (t2 - t1) >= 0.0;
    } else {
      assert (-d) * (t2 - t1) >= 0.0;
    }
  }

  /** The angle is an affine function of the interpolated time the scheduler supplies (whatever
      easing the platform's interpolator applies happens before that), so the angle at any point on
      the line through two such times lies on the line through their angles. */
  lemma AngleIsLinear(a: CircleAngleAnimation, t1: real, t2: real, k: real)
    ensures AngleAt(a, t1 + k * (t2 - t1)) == AngleAt(a, t1) + k * (AngleAt(a, t2) - AngleAt(a, t1))
  {
  }

  /** A new setProgress during an animation hands over the interrupted angle: the new animation's
      first frame lies within the range the old one was sweeping, and where it ends does not depend
      on the old animation at all. */
  lemma RestartIsContinuous(a: CircleAngleAnimation, b: CircleAngleAnimation, t: real, percentCompleted: real)
    requires 0.0 <= t <= 1.0
    ensures Between(AngleAt(Start(AngleAt(a, t), percentCompleted), 0.0), a.oldAngle, a.newAngle)
    ensures AngleAt(Start(AngleAt(a, t), percentCompleted), 1.0) == AngleAt(Start(AngleAt(b, t), percentCompleted), 1.0)
  {
    AngleStaysBetween(a, t);
  }
}
