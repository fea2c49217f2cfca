/** Angle arithmetic of the engine, in degrees: C's fmod by 360, the turn-angle wrap into
    [-180, 180] done by two while loops (generateKeyframes and lerpAngle), map bearings,
    shortest-arc angle interpolation and the smoothstep easing curve. */
module Angles {
  import opened Geometry

  /** k full turns, in degrees. */
  function Turns(k: int): real
  {
    360.0 * k as real
  }

  /** d is a whole number of full turns. */
  ghost predicate WholeTurns(d: real)
  {
    exists k: int :: d == Turns(k)
  }

  lemma WholeTurnsSum(d: real, e: real)
    requires WholeTurns(d) && WholeTurns(e)
    ensures WholeTurns(d + e) && WholeTurns(d - e)
  {
    var m :| d == Turns(m);
    var n :| e == Turns(n);
    assert d + e == Turns(m + n);
    assert d - e == Turns(m - n);
  }

  /** fmod(x, 360.0): the remainder of truncating division, which keeps the sign of x. */
  function Fmod360(x: real): (r: real)
    ensures 0.0 <= x ==> 0.0 <= r < 360.0
    ensures x < 0.0 ==> -360.0 < r <= 0.0
    ensures WholeTurns(x - r)
    ensures -360.0 < x < 360.0 ==> r == x
    ensures 360.0 <= x < 720.0 ==> r == x - 360.0
  {
    var n := Trunc(x / 360.0);
    assert x - (x - Turns(n)) == Turns(n);
    x - Turns(n)
  }

  /** The value the angle-normalising loops of flythrough_core.cpp leave behind: the angle moved by
      whole turns into [-180, 180], coming down from above into (-180, 180] and up from below
      into [-180, 180); an angle already in range is kept. */
  function Wrap180(a: real): (r: real)
    ensures -180.0 <= r <= 180.0
    ensures WholeTurns(r - a)
    ensures -180.0 <= a <= 180.0 ==> r == a
    ensures a > 180.0 ==> r > -180.0
    ensures a < -180.0 ==> r < 180.0
  {
    if a > 180.0 then
      var n := Ceil((a - 180.0) / 360.0);
      assert a - Turns(n) - a == Turns(-n);
      a - Turns(n)
    else if a < -180.0 then
      var n := Ceil((-180.0 - a) / 360.0);
      assert a + Turns(n) - a == Turns(n);
      a + Turns(n)
    else
      assert a - a == Turns(0);
      a
  }

  /** The contract of Wrap180 determines it: any angle in [-180, 180] a whole number of turns
      away from a, on the same side of the boundary, is Wrap180(a). */
  lemma {:induction false} Wrap180Unique(a: real, r: real)
    requires -180.0 <= r <= 180.0 && WholeTurns(r - a)
    requires -180.0 <= a <= 180.0 ==> r == a
    requires a > 180.0 ==> r > -180.0
    requires a < -180.0 ==> r < 180.0
    ensures r == Wrap180(a)
  {
    var w := Wrap180(a);
    WholeTurnsSum(r - a, w - a);
    assert r - w == (r - a) - (w - a);
    var k :| r - w == Turns(k);
    assert -2 < k < 2;
  }

  /** Angle normalisation as flythrough_core.cpp does it for turnAngle in generateKeyframes
      and for diff in lerpAngle: subtract a full turn while the angle exceeds 180, then add a
      full turn while it is below -180. */
  method NormalizeAngle(a: real) returns (r: real)
    ensures r == Wrap180(a)
  {
    r := a;
    assert r - a == Turns(0);
    assert 360.0 == Turns(1) && -360.0 == Turns(-1);
    while r > 180.0
      invariant WholeTurns(r - a)
      invariant a > 180.0 ==> r > -180.0
      invariant a <= 180.0 ==> r == a
      decreases r.Floor
    {
      WholeTurnsSum(r - a, 360.0);
      r := r - 360.0;
    }
    while r < -180.0
      invariant r <= 180.0
      invariant WholeTurns(r - a)
      invariant a > 180.0 ==> r > -180.0
      invariant a < -180.0 ==> r < 180.0
      invariant -180.0 <= a <= 180.0 ==> r == a
      decreases (-r).Floor
    {
      WholeTurnsSum(r - a, -360.0);
      r := r + 360.0;
    }
    Wrap180Unique(a, r);
  }

  /** calculateBearing: atan2(dx, dy) in degrees, where 0 is +y and angles grow toward +x,
      brought into [0, 360) by adding a full turn to a negative heading. */
  function CalculateBearing(p1: Point, p2: Point, trig: Trig): (b: real)
    ensures 0.0 <= b < 360.0
    ensures WholeTurns(b - trig.atan2Deg(p2.x - p1.x, p2.y - p1.y))
  {
    var raw := trig.atan2Deg(p2.x - p1.x, p2.y - p1.y);
    assert raw + 360.0 - raw == Turns(1) && raw - raw == Turns(0);
    if raw < 0.0 then raw + 360.0 else raw
  }

  /** The bearing is exactly what flythrough_core.cpp computes, fmod(bearing + 360, 360). */
  lemma BearingIsFmod(p1: Point, p2: Point, trig: Trig)
    ensures CalculateBearing(p1, p2, trig) == Fmod360(trig.atan2Deg(p2.x - p1.x, p2.y - p1.y) + 360.0)
  {
    var raw := trig.atan2Deg(p2.x - p1.x, p2.y - p1.y);
    assert 180.0 <= raw + 360.0 <= 540.0;
  }

  /** The value lerpAngle returns: fmod(a + diff * t, 360) where diff is b - a wrapped into
      [-180, 180]. */
  function LerpAngleOf(a: real, b: real, t: real): real
  {
    Fmod360(ArcPoint(a, Wrap180(b - a), t))
  }

  /** a moved by the fraction t of the arc diff, before fmod. */
  function ArcPoint(a: real, diff: real, t: real): (p: real)
    ensures t == 0.0 ==> p == a
    ensures t == 1.0 ==> p == a + diff
  {
    a + diff * t
  }

  /** lerpAngle (flythrough_core.cpp:806-813). */
  method LerpAngle(a: real, b: real, t: real) returns (r: real)
    ensures r == LerpAngleOf(a, b, t)
    ensures -360.0 < r < 360.0
  {
    var diff := NormalizeAngle(b - a);
    r := Fmod360(ArcPoint(a, diff, t));
  }

  /** Shortest-arc interpolation: the arc swept is at most half a turn, the result is a whole
      number of turns away from a + diff * t, it agrees with a at t = 0 and with b at t = 1
      up to whole turns. */
  lemma {:induction false} LerpAngleShortestArc(a: real, b: real, t: real)
    requires 0.0 <= t <= 1.0
    ensures -180.0 <= ArcPoint(a, Wrap180(b - a), t) - a <= 180.0
    ensures WholeTurns(LerpAngleOf(a, b, t) - ArcPoint(a, Wrap180(b - a), t))
    ensures t == 0.0 ==> WholeTurns(LerpAngleOf(a, b, t) - a)
    ensures t == 1.0 ==> WholeTurns(LerpAngleOf(a, b, t) - b)
  {
    var diff := Wrap180(b - a);
    ArcBound(a, diff, t);
    var v := ArcPoint(a, diff, t);
    Fmod360Turns(v);
    if t == 1.0 {
      WholeTurnsSum(Fmod360(v) - v, diff - (b - a));
      assert (Fmod360(v) - v) + (diff - (b - a)) == Fmod360(v) - b;
    }
  }

  /** fmod takes x to itself up to whole turns, seen from the result's side. */
  lemma Fmod360Turns(x: real)
    ensures WholeTurns(Fmod360(x) - x)
  {
    var k :| x - Fmod360(x) == Turns(k);
    assert Fmod360(x) - x == Turns(-k);
  }

  lemma ArcBound(a: real, diff: real, t: real)
    requires -180.0 <= diff <= 180.0 && 0.0 <= t <= 1.0
    ensures -180.0 <= ArcPoint(a, diff, t) - a <= 180.0
  {
    if diff >= 0.0 {
      MulNonneg(diff, t);
      MulNonneg(diff, 1.0 - t);
    } else {
      MulNonneg(-diff, t);
      MulNonneg(-diff, 1.0 - t);
    }
  }

  /** lerpAngle(350, 10, 0.5) takes the short way across north and lands on 0, not 180;
      lerpAngle(10, 340, 1) comes out as -20: the result is not brought into [0, 360). */
  lemma LerpAngleExamples()
    ensures LerpAngleOf(350.0, 10.0, 0.5) == 0.0
    ensures LerpAngleOf(10.0, 340.0, 1.0) == -20.0
  {
    assert Wrap180(10.0 - 350.0) == 20.0 by {
      assert 20.0 - (-340.0) == Turns(1);
      Wrap180Unique(-340.0, 20.0);
    }
    assert Wrap180(340.0 - 10.0) == -30.0 by {
      assert -30.0 - 330.0 == Turns(-1);
      Wrap180Unique(330.0, -30.0);
    }
  }

  /** The smoothstep easing t = u * u * (3 - 2u) applied to a segment parameter u. */
  function Smoothstep(u: real): (t: real)
    ensures 0.0 <= u <= 1.0 ==> 0.0 <= t <= 1.0
    ensures u == 0.0 ==> t == 0.0
    ensures u == 1.0 ==> t == 1.0
  {
    SmoothstepRange(u);
    u * u * (3.0 - 2.0 * u)
  }

  lemma SmoothstepRange(u: real)
    ensures 0.0 <= u <= 1.0 ==> 0.0 <= u * u * (3.0 - 2.0 * u) <= 1.0
  {
    if 0.0 <= u <= 1.0 {
      MulNonneg(u * u, 3.0 - 2.0 * u);
      MulNonneg((1.0 - u) * (1.0 - u), 1.0 + 2.0 * u);
      assert 1.0 - u * u * (3.0 - 2.0 * u) == (1.0 - u) * (1.0 - u) * (1.0 + 2.0 * u);
    }
  }

  /** Smoothstep never goes backward on [0, 1]: the camera's progress along a segment is
      monotone in elapsed time. */
  lemma SmoothstepMonotone(u: real, v: real)
    requires 0.0 <= u <= v <= 1.0
    ensures Smoothstep(u) <= Smoothstep(v)
  {
    SmoothstepGap(u, v);
    GapFactorNonneg(u, v);
    MulNonneg(v - u, 3.0 * (u + v) - 2.0 * (u * u + u * v + v * v));
  }

  /** The difference of two smoothstep values factors through v - u. */
  lemma SmoothstepGap(u: real, v: real)
    ensures v * v * (3.0 - 2.0 * v) - u * u * (3.0 - 2.0 * u)
            == (v - u) * (3.0 * (u + v) - 2.0 * (u * u + u * v + v * v))
  {
  }

  lemma GapFactorNonneg(u: real, v: real)
    requires 0.0 <= u <= v <= 1.0
    ensures 0.0 <= 3.0 * (u + v) - 2.0 * (u * u + u * v + v * v)
  {
    assert 3.0 * (u + v) - 2.0 * (u * u + u * v + v * v)
        == u * (3.0 - 2.0 * u - v) + v * (3.0 - u - 2.0 * v);
    MulNonneg(u, 3.0 - 2.0 * u - v);
    MulNonneg(v, 3.0 - u - 2.0 * v);
  }
}
