/** Planar points, the Qt/C numeric helpers the engine uses (qMin, qMax, clamps, truncation)
    and the collaborators that are not algebraic: trigonometry, square root,
    ellipsoidal distance and raster elevation sampling. Those collaborators are function values
    whose types carry exactly the facts the engine relies on and nothing more. */
module Geometry {

  datatype Option<T> = None | Some(value: T)

  /** A vertex of the path in the working (view) coordinate system, QgsPointXY. */
  datatype Point = Point(x: real, y: real)

  /** qMin(a, b) = (a < b) ? a : b */
  function QMin(a: real, b: real): (r: real)
    ensures r <= a && r <= b
    ensures r == a || r == b
  {
    if a < b then a else b
  }

  /** qMax(a, b) = (a < b) ? b : a */
  function QMax(a: real, b: real): (r: real)
    ensures r >= a && r >= b
    ensures r == a || r == b
  {
    if a < b then b else a
  }

  /** qAbs */
  function Abs(a: real): (r: real)
    ensures r >= 0.0 && (r == a || r == -a)
  {
    if a < 0.0 then -a else a
  }

  /** The engine's clamp idiom qMax(lo, qMin(hi, v)). */
  function Clamp(v: real, lo: real, hi: real): (r: real)
    requires lo <= hi
    ensures lo <= r <= hi
    ensures lo <= v <= hi ==> r == v
    ensures v < lo ==> r == lo
    ensures v > hi ==> r == hi
  {
    QMax(lo, QMin(hi, v))
  }

  /** a + (b - a) * t: between a and b for t in [0, 1], a at 0 and b at 1. */
  function Lerp(a: real, b: real, t: real): (r: real)
    ensures 0.0 <= t <= 1.0 ==> QMin(a, b) <= r <= QMax(a, b)
    ensures t == 0.0 ==> r == a
    ensures t == 1.0 ==> r == b
  {
    LerpBetween(a, b, t);
    a + (b - a) * t
  }

  lemma LerpBetween(a: real, b: real, t: real)
    ensures 0.0 <= t <= 1.0 ==> QMin(a, b) <= a + (b - a) * t <= QMax(a, b)
  {
    if 0.0 <= t <= 1.0 {
      if a <= b {
        MulNonneg(b - a, t);
        MulNonneg(b - a, 1.0 - t);
      } else {
        MulNonneg(a - b, t);
        MulNonneg(a - b, 1.0 - t);
      }
    }
  }

  lemma MulNonneg(a: real, b: real)
    requires 0.0 <= a && 0.0 <= b
    ensures 0.0 <= a * b
  {
  }

  /** Rounding toward zero, as C's conversions and fmod do it. */
  function Trunc(x: real): (n: int)
    ensures 0.0 <= x ==> 0 <= n && n as real <= x < n as real + 1.0
    ensures x < 0.0 ==> n <= 0 && n as real - 1.0 < x <= n as real
  {
    if x >= 0.0 then x.Floor else -((-x).Floor)
  }

  /** std::ceil, for the values the engine converts to int. */
  function Ceil(x: real): (n: int)
    ensures x <= n as real < x + 1.0
  {
    -((-x).Floor)
  }

  /** qRadiansToDegrees(std::atan2(u, v)): the principal value, within [-180, 180] degrees,
      and never positive for a negative u and a positive v (the fourth quadrant). */
  type Atan2Deg = f: (real, real) -> real |
    forall u, v :: -180.0 <= f(u, v) <= 180.0 && (u < 0.0 && 0.0 < v ==> f(u, v) <= 0.0)
    witness (u: real, v: real) => 0.0

  /** std::tan(qDegreesToRadians(a)): positive for angles strictly between 0 and 90 degrees. */
  type TanDeg = f: real -> real | forall a :: 0.0 < a < 90.0 ==> 0.0 < f(a)
    witness (a: real) => 1.0

  /** std::sqrt(a * a + b * b), the only form in which the engine takes a square root:
      never negative. */
  type Hypot = f: (real, real) -> real | forall a, b :: 0.0 <= f(a, b)
    witness (a: real, b: real) => 0.0

  /** The numeric library: atan2, sin, cos and tan with degree arguments or results, and the
      Euclidean length sqrt(a * a + b * b). */
  datatype Trig = Trig(atan2Deg: Atan2Deg, sinDeg: real -> real, cosDeg: real -> real,
                       tanDeg: TanDeg, hypot: Hypot)

  /** Ellipsoidal line measurement between two points: never negative. */
  type Distance = f: (Point, Point) -> real | forall p, q :: 0.0 <= f(p, q)
    witness (p: Point, q: Point) => 0.0

  /** A DEM raster's band-1 identify result at a point; None when the point cannot be
      transformed, lies outside the extent, or has no value. */
  type Raster = Point -> Option<real>

  /** getElevationAtPoint: the sampled band value, and 0 whenever there is no DEM layer or
      the sample fails. */
  function ElevationAt(dem: Option<Raster>, p: Point): (e: real)
    ensures dem.None? ==> e == 0.0
    ensures dem.Some? ==> e == (match dem.value(p) case Some(v) => v case None => 0.0)
  {
    match dem
    case None => 0.0
    case Some(raster) => if raster(p).Some? then raster(p).value else 0.0
  }
}
