/** The fling classifier of utils/SwipeDetector.kt: a horizontal travel of at least 100
    to the left or right picks one of two callbacks, anything shorter picks none.
    Coordinates are reals; float rounding and NaN are not modelled. */
module Swipe {
  import opened Wrappers

  /** MIN_SWIPE_DISTANCE_X. */
  const MinSwipeDistanceX: real := 100.0

  /** The coordinates of a MotionEvent. */
  datatype MotionEvent = MotionEvent(x: real, y: real)

  /** The callbacks the detector was constructed with. */
  datatype SwipeCallback = OnLeftSwipe | OnRightSwipe

  /** `onFling`: either handed to the superclass (no start event) or consumed, returning
      true, after firing at most one callback. */
  datatype Fling = DelegatedToSuper | Consumed(fired: Option<SwipeCallback>)

  function Abs(x: real): (a: real)
  {
    if x < 0.0 then -x else x
  }

  /** `onFling`: the decision reads only `deltaX = e1.x - e2.x`. */
  function OnFling(e1: Option<MotionEvent>, e2: MotionEvent, velocityX: real, velocityY: real): (r: Fling)
    ensures e1.None? <==> r == DelegatedToSuper
    ensures e1.Some? ==> (r == Consumed(Some(OnLeftSwipe)) <==> e1.value.x - e2.x >= MinSwipeDistanceX)
    ensures e1.Some? ==> (r == Consumed(Some(OnRightSwipe)) <==> e1.value.x - e2.x <= -MinSwipeDistanceX)
    ensures e1.Some? ==> (r == Consumed(None) <==> -MinSwipeDistanceX < e1.value.x - e2.x < MinSwipeDistanceX)
  {
    match e1
    case None => DelegatedToSuper
    case Some(start) =>
      var deltaX := start.x - e2.x;
      var deltaXAbs := Abs(deltaX);
      if deltaXAbs >= MinSwipeDistanceX then
        if deltaX > 0.0 then Consumed(Some(OnLeftSwipe)) else Consumed(Some(OnRightSwipe))
      else Consumed(None)
  }

  /** Two flings with the same horizontal travel are classified alike, whatever their
      vertical positions and velocities. */
  lemma OnlyDeltaXMatters(a1: MotionEvent, a2: MotionEvent, avx: real, avy: real,
                          b1: MotionEvent, b2: MotionEvent, bvx: real, bvy: real)
    requires a1.x - a2.x == b1.x - b2.x
    ensures OnFling(Some(a1), a2, avx, avy) == OnFling(Some(b1), b2, bvx, bvy)
  {
  }
}
