/**
 * The measurement rule both widgets apply in their layout pass (measureDimension and the
 * desired size that onMeasure feeds it). The two source files carry identical copies of it.
 */
module Measure {

  /** The mode half of a measure constraint, already unpacked from the packed integer. */
  datatype Mode =
    | Exactly      // the parent fixes the size
    | AtMost       // the parent gives an upper bound
    | Unspecified  // no constraint; any other mode bit pattern falls in the same branch

  /** The inputs for one axis: the view's suggested minimum, its padding on the low end (left or
      top) and the high end (right or bottom), and the parent's constraint. The constraint size is
      never negative once unpacked. */
  datatype Axis = Axis(suggestedMinimum: int, paddingLow: int, paddingHigh: int, mode: Mode, size: nat)

  function Min(a: int, b: int): int { if a <= b then a else b }

  /** measureDimension: the size a widget takes on one axis, given the size it would like. */
  function MeasureDimension(desiredSize: int, specMode: Mode, specSize: nat): (result: int)
    ensures specMode == Exactly ==> result == specSize
    ensures specMode == AtMost ==>
      result <= specSize && result <= desiredSize && (result == specSize || result == desiredSize)
    ensures specMode == Unspecified ==> result == desiredSize
  {
    if specMode == Exactly then specSize
    else if specMode == AtMost then Min(desiredSize, specSize)
    else desiredSize
  }

  /** The size a widget would like on one axis: suggested minimum plus the padding on both ends. */
  function DesiredSize(a: Axis): (desired: int)
    // padding only ever adds room: with no negative padding the view asks for at least its minimum
    ensures 0 <= a.paddingLow && 0 <= a.paddingHigh ==> a.suggestedMinimum <= desired
    // the padding of both ends is added in full, whatever its sign
    ensures desired - a.suggestedMinimum == a.paddingLow + a.paddingHigh
  {
    a.suggestedMinimum + a.paddingLow + a.paddingHigh
  }

  /** What onMeasure computes for one axis. */
  function MeasureAxis(a: Axis): (result: int)
    ensures a.mode == Exactly ==> result == a.size
    ensures a.mode == AtMost ==>
      result <= a.size && result <= DesiredSize(a) && (result == a.size || result == DesiredSize(a))
    ensures a.mode == Unspecified ==> result == DesiredSize(a)
  {
    MeasureDimension(DesiredSize(a), a.mode, a.size)
  }

  /** Under an exact constraint the padding and the suggested minimum play no part. */
  lemma ExactlyIgnoresContent(a: Axis, b: Axis)
    requires a.mode == Exactly && b.mode == Exactly && a.size == b.size
    ensures MeasureAxis(a) == MeasureAxis(b) == a.size
  {
  }

  /** A constrained axis never exceeds the parent's size. */
  lemma ConstrainedWithinSpec(a: Axis)
    requires a.mode != Unspecified
    ensures MeasureAxis(a) <= a.size
  {
  }

  /** Measuring again with the measured size as the desired size changes nothing. */
  lemma MeasureIdempotent(desiredSize: int, specMode: Mode, specSize: nat)
    ensures MeasureDimension(MeasureDimension(desiredSize, specMode, specSize), specMode, specSize)
         == MeasureDimension(desiredSize, specMode, specSize)
  {
  }

  /** A view that asks for more is never given less. */
  lemma MeasureMonotone(d1: int, d2: int, specMode: Mode, specSize: nat)
    requires d1 <= d2
    ensures MeasureDimension(d1, specMode, specSize) <= MeasureDimension(d2, specMode, specSize)
  {
  }
}
