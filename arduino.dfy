/** Integer semantics of the C++/Arduino operations the sketches rely on:
    `abs`, `max`, `constrain`, truncating `/` and `map`. */
module Arduino {

  /** Arduino's `abs` macro on an `int`. */
  function Abs(v: int): (r: nat)
    ensures r == v || r == -v
  {
    if v < 0 then -v else v
  }

  /** Arduino's `max` macro. */
  function Max(a: int, b: int): (r: int)
    ensures a <= r && b <= r
    ensures r == a || r == b
  {
    if a < b then b else a
  }

  /** C++ integer division, which truncates toward zero (unlike Dafny's
      Euclidean `/`), for the positive divisors the sketches use: the
      remainder `a - q * b` lies strictly between `-b` and `b` and never has
      the opposite sign of `a`. */
  function TDiv(a: int, b: int): (q: int)
    requires 0 < b
    ensures 0 <= a ==> 0 <= a - q * b < b
    ensures a <= 0 ==> -b < a - q * b <= 0
  {
    if 0 <= a then a / b else -((-a) / b)
  }

  /** Distance between two integers. */
  function Dist(u: int, v: int): nat
  {
    Abs(u - v)
  }

  /** Arduino's `constrain(amt, low, high)`: below `low` gives `low`, above
      `high` gives `high`, otherwise the value itself. For a non-empty
      range the result is the point of the range nearest the value. */
  function Constrain(v: int, lo: int, hi: int): (r: int)
    ensures lo <= hi ==> lo <= r <= hi
    ensures lo <= hi ==> forall w :: lo <= w <= hi ==> Dist(r, v) <= Dist(w, v)
  {
    if v < lo then lo else if v > hi then hi else v
  }

  /** Arduino's `map(x, inMin, inMax, outMin, outMax)`:
      `(x - inMin) * (outMax - outMin) / (inMax - inMin) + outMin` in `long`
      arithmetic, so the division truncates toward zero. */
  function MapRange(x: int, inMin: int, inMax: int, outMin: int, outMax: int): int
    requires inMin < inMax
  {
    TDiv((x - inMin) * (outMax - outMin), inMax - inMin) + outMin
  }

  /** `constrain` never moves a value down when the value grows. */
  lemma ConstrainMonotone(v1: int, v2: int, lo: int, hi: int)
    requires lo <= hi && v1 <= v2
    ensures Constrain(v1, lo, hi) <= Constrain(v2, lo, hi)
  {
  }

  /** Scaling by a positive factor keeps a gap of at least one step. */
  lemma MulStep(m: int, n: int, b: int)
    requires m < n && 0 < b
    ensures m * b + b <= n * b
  {
    var d := n - m - 1;
    assert 0 <= d * b;
    assert n * b == m * b + b + d * b;
  }

  /** Scaling by a non-negative factor preserves order. */
  lemma MulMonotone(x1: int, x2: int, c: int)
    requires x1 <= x2 && 0 <= c
    ensures x1 * c <= x2 * c
  {
    if x1 < x2 && 0 < c {
      MulStep(x1, x2, c);
    }
  }

  /** Truncating division by a positive divisor is monotone in the dividend. */
  lemma TDivMonotone(a1: int, a2: int, b: int)
    requires 0 < b && a1 <= a2
    ensures TDiv(a1, b) <= TDiv(a2, b)
  {
    var q1, q2 := TDiv(a1, b), TDiv(a2, b);
    if q2 < q1 {
      MulStep(q2, q1, b);
      if 0 <= a1 {
        assert false;
      } else if a2 <= 0 {
        assert false;
      } else {
        // a1 < 0 < a2: q1 * b < b and q2 * b >= 0, yet q2 < q1
        MulStep(q1 - 1, 0, b);
        assert false;
      }
    }
  }

  /** Truncating division of an exact multiple gives the other factor. */
  lemma TDivExact(k: int, b: int)
    requires 0 < b
    ensures TDiv(k * b, b) == k
  {
    var q := TDiv(k * b, b);
    if q < k {
      MulStep(q, k, b);
    } else if k < q {
      MulStep(k, q, b);
    }
  }

  /** `map` sends the ends of the input range to the ends of the output range. */
  lemma MapEndpoints(inMin: int, inMax: int, outMin: int, outMax: int)
    requires inMin < inMax
    ensures MapRange(inMin, inMin, inMax, outMin, outMax) == outMin
    ensures MapRange(inMax, inMin, inMax, outMin, outMax) == outMax
  {
    TDivExact(0, inMax - inMin);
    assert (inMax - inMin) * (outMax - outMin) == (outMax - outMin) * (inMax - inMin);
    TDivExact(outMax - outMin, inMax - inMin);
  }

  /** For increasing ranges `map` is monotone non-decreasing in its input. */
  lemma MapMonotone(x1: int, x2: int, inMin: int, inMax: int, outMin: int, outMax: int)
    requires inMin < inMax && outMin <= outMax && x1 <= x2
    ensures MapRange(x1, inMin, inMax, outMin, outMax) <= MapRange(x2, inMin, inMax, outMin, outMax)
  {
    var rise := outMax - outMin;
    MulMonotone(x1 - inMin, x2 - inMin, rise);
    TDivMonotone((x1 - inMin) * rise, (x2 - inMin) * rise, inMax - inMin);
  }

  /** An input inside the input range maps inside the output range. */
  lemma MapWithinRange(x: int, inMin: int, inMax: int, outMin: int, outMax: int)
    requires inMin < inMax && outMin <= outMax && inMin <= x <= inMax
    ensures outMin <= MapRange(x, inMin, inMax, outMin, outMax) <= outMax
  {
    MapEndpoints(inMin, inMax, outMin, outMax);
    MapMonotone(inMin, x, inMin, inMax, outMin, outMax);
    MapMonotone(x, inMax, inMin, inMax, outMin, outMax);
  }
}
