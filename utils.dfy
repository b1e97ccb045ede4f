/** The numeric and string helpers of the globe's `utils.js`, over Dafny
    reals. Floating-point rounding is not modelled. */
module Utils {
  import opened JsValues

  /** A `{lat, lon}` pair after both fields went through unary `+`. */
  datatype Coordinates = Coordinates(lat: Num, lon: Num)

  /** `hasValidCoordinates`: latitude in [-90, 90] and longitude in
      [-180, 180], both bounds inclusive, and neither is NaN. */
  function HasValidCoordinates(c: Coordinates): (ok: bool)
    ensures ok <==> c.lat.Fin? && c.lon.Fin?
                    && -90.0 <= c.lat.v <= 90.0 && -180.0 <= c.lon.v <= 180.0
  {
    var validLat := !c.lat.NaN? && AtLeast(c.lat, -90.0) && AtMost(c.lat, 90.0);
    var validLon := !c.lon.NaN? && AtLeast(c.lon, -180.0) && AtMost(c.lon, 180.0);
    validLat && validLon
  }

  /** The four corners of the accepted region are accepted. */
  lemma BoundariesAccepted()
    ensures HasValidCoordinates(Coordinates(Fin(90.0), Fin(180.0)))
    ensures HasValidCoordinates(Coordinates(Fin(-90.0), Fin(-180.0)))
    ensures !HasValidCoordinates(Coordinates(Fin(90.5), Fin(0.0)))
    ensures !HasValidCoordinates(Coordinates(NaN, Fin(0.0)))
  {
  }

  function Min(a: real, b: real): (r: real)
    ensures r <= a && r <= b && (r == a || r == b)
  {
    if a <= b then a else b
  }

  function Max(a: real, b: real): (r: real)
    ensures r >= a && r >= b && (r == a || r == b)
  {
    if a >= b then a else b
  }

  // Small facts of real arithmetic that the solver needs spelled out.

  lemma DivMul(a: real, b: real)
    requires b != 0.0
    ensures (a / b) * b == a
  {
  }

  lemma MulCancel(a: real, b: real, d: real)
    requires d != 0.0 && a * d == b * d
    ensures a == b
  {
    assert (a - b) * d == 0.0;
  }

  lemma SelfDiv(d: real)
    requires d != 0.0
    ensures d / d == 1.0
  {
  }

  lemma MulLe(a: real, n: real)
    requires a >= 0.0 && 0.0 <= n <= 1.0
    ensures 0.0 <= a * n <= a
  {
  }

  lemma DivNonPos(a: real, d: real)
    requires a <= 0.0 && d > 0.0
    ensures a / d <= 0.0
  {
  }

  lemma DivGeOne(a: real, d: real)
    requires a >= d && d > 0.0
    ensures a / d >= 1.0
  {
  }

  /** `clamp(value, min, max)`, i.e. `Math.max(min, Math.min(value, max))`. */
  function Clamp(value: real, min: real, max: real): (r: real)
    ensures min <= max ==> min <= r <= max
    ensures min <= value <= max ==> r == value
    ensures min > max ==> r == min
    ensures value <= min ==> r == min
  {
    Max(min, Min(value, max))
  }

  /** `normalize(value, min, max)`: the position of `value` in
      `[min, max]` as a fraction. The `|| 0` of the source only matters for
      NaN, which a non-degenerate range cannot produce. */
  function Normalize(value: real, min: real, max: real): (r: real)
    requires max != min
    ensures value == min ==> r == 0.0
    ensures value == max ==> r == 1.0
    ensures r * (max - min) == value - min
  {
    DivMul(value - min, max - min);
    if value == max then SelfDiv(max - min); (value - min) / (max - min)
    else (value - min) / (max - min)
  }

  /** `lerp(norm, min, max)`: the point a fraction `norm` of the way from
      `min` to `max`. */
  function Lerp(norm: real, min: real, max: real): (r: real)
    ensures norm == 0.0 ==> r == min
    ensures norm == 1.0 ==> r == max
    ensures min <= max && 0.0 <= norm <= 1.0 ==> min <= r <= max
  {
    var r := (max - min) * norm + min;
    if min <= max && 0.0 <= norm <= 1.0 then MulLe(max - min, norm); r else r
  }

  /** `map`: sends `[sourceMin, sourceMax]` affinely onto `[destMin, destMax]`. */
  function Map(value: real, sourceMin: real, sourceMax: real, destMin: real, destMax: real): (r: real)
    requires sourceMax != sourceMin
    ensures value == sourceMin ==> r == destMin
    ensures value == sourceMax ==> r == destMax
  {
    Lerp(Normalize(value, sourceMin, sourceMax), destMin, destMax)
  }

  /** Mapping back with the ranges swapped recovers the value whenever the
      destination range is not degenerate. */
  lemma MapRoundTrip(value: real, sMin: real, sMax: real, dMin: real, dMax: real)
    requires sMax != sMin && dMax != dMin
    ensures Map(Map(value, sMin, sMax, dMin, dMax), dMin, dMax, sMin, sMax) == value
  {
    var n := Normalize(value, sMin, sMax);
    var m := Lerp(n, dMin, dMax);
    assert m - dMin == (dMax - dMin) * n;
    var n' := Normalize(m, dMin, dMax);
    assert n' * (dMax - dMin) == n * (dMax - dMin);
    MulCancel(n', n, dMax - dMin);
    assert Lerp(n', sMin, sMax) == (sMax - sMin) * n + sMin;
    assert n * (sMax - sMin) == value - sMin;
  }

  /** `loop(value, min, max)`: below the range gives `max`, above gives
      `min`, inside is unchanged. */
  function Loop(value: real, min: real, max: real): (r: real)
    ensures value < min ==> r == max
    ensures min <= value <= max ==> r == value
    ensures max < value && min <= value ==> r == min
    ensures min <= max ==> min <= r <= max
  {
    if value < min then max else if value > max then min else value
  }

  /** `inRange(value, min, max)`: between the two bounds in either order. */
  function InRange(value: real, min: real, max: real): (r: bool)
    ensures r <==> (min <= value <= max) || (max <= value <= min)
  {
    value >= Min(min, max) && value <= Max(min, max)
  }

  /** Swapping the bounds of `inRange` never changes its answer. */
  lemma InRangeSymmetric(value: real, a: real, b: real)
    ensures InRange(value, a, b) == InRange(value, b, a)
  {
  }

  /** `smoothstep(min, max, value)`: the cubic `3x^2 - 2x^3` of the clamped
      fraction `x`. */
  function Smoothstep(min: real, max: real, value: real): (r: real)
    requires max != min
    ensures 0.0 <= r <= 1.0
    ensures min < max && value <= min ==> r == 0.0
    ensures min < max && value >= max ==> r == 1.0
    ensures max < min && value >= min ==> r == 0.0
    ensures max < min && value <= max ==> r == 1.0
  {
    var x := Max(0.0, Min(1.0, (value - min) / (max - min)));
    SmoothBounded(x);
    SmoothEnds(min, max, value);
    x * x * (3.0 - 2.0 * x)
  }

  lemma SmoothBounded(x: real)
    requires 0.0 <= x <= 1.0
    ensures 0.0 <= x * x * (3.0 - 2.0 * x) <= 1.0
  {
    MulLe(x, x);
    // 1 - (3x^2 - 2x^3) == (1 - x)^2 (1 + 2x) >= 0
    assert 1.0 - x * x * (3.0 - 2.0 * x) == (1.0 - x) * (1.0 - x) * (1.0 + 2.0 * x);
    MulLe(1.0 - x, 1.0 - x);
  }

  lemma SmoothEnds(min: real, max: real, value: real)
    requires max != min
    ensures min < max && value <= min ==> (value - min) / (max - min) <= 0.0
    ensures min < max && value >= max ==> (value - min) / (max - min) >= 1.0
    ensures max < min && value >= min ==> (value - min) / (max - min) <= 0.0
    ensures max < min && value <= max ==> (value - min) / (max - min) >= 1.0
  {
    if min < max && value <= min {
      DivNonPos(value - min, max - min);
    }
    if min < max && value >= max {
      DivGeOne(value - min, max - min);
    }
    if max < min {
      assert (value - min) / (max - min) == (min - value) / (min - max);
      if value >= min {
        DivNonPos(min - value, min - max);
      }
      if value <= max {
        DivGeOne(min - value, min - max);
      }
    }
  }

  /** `t` occurs in `s` starting at position `k`. */
  predicate OccursAt(s: string, t: string, k: int) {
    0 <= k && k + |t| <= |s| && s[k..k + |t|] == t
  }

  /** `t` is a substring of `s`. */
  ghost predicate IsSubstring(t: string, s: string) {
    exists k :: OccursAt(s, t, k)
  }

  /** `s.indexOf(t, from)`: the first position at or after `from` where `t`
      occurs, or -1. */
  function IndexOfFrom(s: string, t: string, from: nat): (r: int)
    ensures r == -1 || (from <= r && OccursAt(s, t, r))
    ensures r == -1 ==> forall k :: from <= k ==> !OccursAt(s, t, k)
    ensures r != -1 ==> forall k :: from <= k < r ==> !OccursAt(s, t, k)
    decreases |s| - from
  {
    if from + |t| > |s| then -1
    else if s[from..from + |t|] == t then from
    else IndexOfFrom(s, t, from + 1)
  }

  /** `s.indexOf(t)`. */
  function IndexOf(s: string, t: string): (r: int)
    ensures r > -1 <==> IsSubstring(t, s)
    ensures r > -1 ==> OccursAt(s, t, r)
  {
    IndexOfFrom(s, t, 0)
  }

  /** The empty string is found at position 0 of every string. */
  lemma EmptyFoundAtZero(s: string)
    ensures IndexOf(s, "") == 0
  {
    assert OccursAt(s, "", 0);
  }

  /** `contains(source, tests)`: scans the tests in order and returns at
      the first one that occurs in `source`. */
  method Contains(source: string, tests: seq<string>) returns (found: bool)
    ensures found <==> exists i :: 0 <= i < |tests| && IsSubstring(tests[i], source)
  {
    var i := 0;
    while i < |tests|
      invariant 0 <= i <= |tests|
      invariant forall j :: 0 <= j < i ==> !IsSubstring(tests[j], source)
    {
      if IndexOf(source, tests[i]) > -1 {
        return true;
      }
      i := i + 1;
    }
    return false;
  }
}
