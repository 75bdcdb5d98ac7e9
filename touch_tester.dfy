/** The touch-calibration tester: every touched poll maps the raw reading to
    pixels, clamps it to the screen and stores it with the pressure. */
module TouchTester {
  import opened Arduino
  import opened Touch

  /** Raw x to an on-screen column: `map` followed by `constrain`. */
  function ScreenX(raw: int): (x: int)
    ensures 0 <= x <= ScreenW
    ensures TouchMinX <= raw <= TouchMaxX ==> x == MapX(raw)
    ensures raw <= TouchMinX ==> x == 0
    ensures TouchMaxX <= raw ==> x == ScreenW
  {
    Constrain(MapX(raw), 0, ScreenW)
  }

  /** Raw y to an on-screen row: `map` followed by `constrain`. */
  function ScreenY(raw: int): (y: int)
    ensures 0 <= y <= ScreenH
    ensures TouchMinY <= raw <= TouchMaxY ==> y == MapY(raw)
    ensures raw <= TouchMinY ==> y == 0
    ensures TouchMaxY <= raw ==> y == ScreenH
  {
    Constrain(MapY(raw), 0, ScreenH)
  }

  /** The clamped coordinates never decrease when the raw reading grows. */
  lemma ScreenMonotone(r1: int, r2: int)
    requires r1 <= r2
    ensures ScreenX(r1) <= ScreenX(r2) && ScreenY(r1) <= ScreenY(r2)
  {
    MapMonotoneXY(r1, r2);
    ConstrainMonotone(MapX(r1), MapX(r2), 0, ScreenW);
    ConstrainMonotone(MapY(r1), MapY(r2), 0, ScreenH);
  }

  /** The sketch's globals `posX`, `posY` and `pressure`. */
  class Tester {
    var posX: int
    var posY: int
    var pressure: int

    /** The stored position is always on the screen. */
    ghost predicate Valid()
      reads this
    {
      0 <= posX <= ScreenW && 0 <= posY <= ScreenH
    }

    /** Globals start zeroed. */
    constructor ()
      ensures Valid()
      ensures posX == 0 && posY == 0 && pressure == 0
    {
      posX, posY, pressure := 0, 0, 0;
    }

    /** One pass of `loop`: without contact nothing changes; with contact
        every sample, however far outside the calibration, yields a clamped
        point, and the pressure is the raw reading unchanged. */
    method Loop(sample: Option<RawPoint>)
      requires Valid()
      modifies this
      ensures Valid()
      ensures sample.None? ==> posX == old(posX) && posY == old(posY) && pressure == old(pressure)
      ensures sample.Some? ==>
                posX == ScreenX(sample.value.x) && posY == ScreenY(sample.value.y) &&
                pressure == sample.value.z
    {
      if sample.Some? {
        var p := sample.value;
        posX := MapX(p.x);
        posY := MapY(p.y);
        pressure := p.z;
        posX := Constrain(posX, 0, ScreenW);
        posY := Constrain(posY, 0, ScreenH);
      }
    }
  }
}
