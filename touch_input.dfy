/** Touch input shared by the three sketches: the raw sample of the XPT2046
    controller, the calibration constants, and the linear mapping from raw
    units to screen pixels. */
module Touch {
  import opened Arduino

  datatype Option<T> = None | Some(value: T)

  const ScreenW := 320
  const ScreenH := 240

  /** Raw readings at the edges of the panel (empirical calibration). */
  const TouchMinX := 300
  const TouchMaxX := 3800
  const TouchMinY := 300
  const TouchMaxY := 3800

  /** The controller reports `int16_t` coordinates and pressure. */
  type Int16 = v: int | -0x8000 <= v < 0x8000

  /** One reading of the controller (`TS_Point`), in raw ADC units. */
  datatype RawPoint = RawPoint(x: Int16, y: Int16, z: Int16)

  /** A position in screen pixels. */
  datatype Point = Point(x: int, y: int)

  // The mapping functions spell the calibration out as literals: the
  // solver keeps named constants symbolic, which turns the products inside
  // `map` into non-linear arithmetic.

  /** Raw x to pixels: `map(x, TOUCH_MIN_X, TOUCH_MAX_X, 0, SCREEN_W)`. */
  function MapX(raw: int): int
  {
    MapRange(raw, 300, 3800, 0, 320)
  }

  /** Raw y to pixels: `map(y, TOUCH_MIN_Y, TOUCH_MAX_Y, 0, SCREEN_H)`. */
  function MapY(raw: int): int
  {
    MapRange(raw, 300, 3800, 0, 240)
  }

  /** A raw reading inside the calibrated window. */
  predicate Calibrated(p: RawPoint)
  {
    TouchMinX <= p.x <= TouchMaxX && TouchMinY <= p.y <= TouchMaxY
  }

  /** `readTouch`: no sample when the panel is not touched; otherwise the
      mapped point, which is NOT clamped to the screen. Only a reading
      inside the calibrated window is guaranteed to land on the screen. */
  function ReadTouch(sample: Option<RawPoint>): (touch: Option<Point>)
    ensures touch.Some? <==> sample.Some?
    ensures sample.Some? && Calibrated(sample.value) ==>
              0 <= touch.value.x <= ScreenW && 0 <= touch.value.y <= ScreenH
  {
    match sample
    case None => None
    case Some(p) =>
      var t := Some(Point(MapX(p.x), MapY(p.y)));
      if Calibrated(p) then
        MapWithinRange(p.x, 300, 3800, 0, 320);
        MapWithinRange(p.y, 300, 3800, 0, 240);
        t
      else
        t
  }

  /** The mapped coordinates never decrease when the raw reading grows. */
  lemma MapMonotoneXY(r1: int, r2: int)
    requires r1 <= r2
    ensures MapX(r1) <= MapX(r2) && MapY(r1) <= MapY(r2)
  {
    MapMonotone(r1, r2, 300, 3800, 0, 320);
    MapMonotone(r1, r2, 300, 3800, 0, 240);
  }

  /** The calibration ends land on the left and right screen edges. */
  lemma CalibrationEdgesX()
    ensures MapX(TouchMinX) == 0 && MapX(TouchMaxX) == ScreenW
  {
  }

  /** The calibration ends land on the top and bottom screen edges. */
  lemma CalibrationEdgesY()
    ensures MapY(TouchMinY) == 0 && MapY(TouchMaxY) == ScreenH
  {
  }

  /** Readings outside the calibrated window map off the screen: a raw 0
      gives negative pixels (rounded toward zero), a raw 4095 gives y past
      the bottom edge. */
  lemma ReadTouchUnclamped()
    ensures ReadTouch(Some(RawPoint(0, 0, 0))) == Some(Point(-27, -20))
    ensures ReadTouch(Some(RawPoint(4095, 4095, 0))) == Some(Point(346, 260))
  {
  }

  /** The intermediate product of `map` fits the 32-bit `long` of the
      target for every `int16_t` reading, so unbounded integers model it
      exactly. */
  lemma MapNoOverflow(raw: Int16)
    ensures -0x8000_0000 <= (raw - TouchMinX) * (ScreenW - 0) < 0x8000_0000
    ensures -0x8000_0000 <= (raw - TouchMinY) * (ScreenH - 0) < 0x8000_0000
  {
  }
}
