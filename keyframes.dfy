/** Keyframe synthesis: the Keyframe record, the generation parameters with their defaults,
    altitude-mode resolution, the peak-elevation scan, and the keyframe sequence that
    generateKeyframes builds, stated as functions of the input path. */
module Keyframes {
  import opened Geometry
  import opened Angles
  import opened Preprocess

  /** One timestamped camera state (flythrough_core.h:25-33). */
  datatype Keyframe = Keyframe(
    time: real,     // seconds from start
    x: real,        // map coordinates
    y: real,
    z: real,        // absolute camera altitude
    groundZ: real,  // scaled terrain elevation under the vertex
    yaw: real,      // heading, degrees
    pitch: real,    // look angle, degrees
    roll: real)     // banking angle, degrees

  /** FlythroughParams (flythrough_core.h:35-52). The path and overlay layers are not part of
      this model; the DEM layer is its sampling function, None for a null layer. */
  datatype FlythroughParams = FlythroughParams(
    demLayer: Option<Raster>,
    altitudeMode: string,
    cameraHeight: real,
    cameraPitch: real,
    fieldOfView: real,
    verticalExaggeration: real,
    speed: real,
    smoothing: int,
    enableBanking: bool,
    bankingFactor: real,
    terrainShading: bool,
    lookaheadDistance: real,
    fps: int)

  const DefaultParams: FlythroughParams :=
    FlythroughParams(None, "Above Safe Path", 200.0, 65.0, 45.0, 1.0, 50.0, 0, true, 0.5, true, 1000.0, 30)

  /** Spacing of the throw-away densified copy scanned for the path's peak elevation. */
  const ScanInterval: real := 2.0

  /** Initial value of the peak-elevation scan; a scan that ends on it means "no sample". */
  const NoElevation: real := -9999.0

  /** sub occurs in s starting at index i. */
  predicate OccursAt(s: string, sub: string, i: int)
  {
    0 <= i <= |s| - |sub| && s[i..i + |sub|] == sub
  }

  /** QString::contains (case-sensitive): sub occurs somewhere in s. */
  function Contains(s: string, sub: string): (b: bool)
    ensures b <==> exists i :: OccursAt(s, sub, i)
    decreases |s|
  {
    if |sub| > |s| then false
    else if s[..|sub|] == sub then
      assert OccursAt(s, sub, 0);
      true
    else
      ContainsShift(s, sub);
      Contains(s[1..], sub)
  }

  lemma ContainsShift(s: string, sub: string)
    requires |sub| <= |s| && s[..|sub|] != sub
    ensures (exists i :: OccursAt(s, sub, i)) <==> (exists j :: OccursAt(s[1..], sub, j))
  {
    if exists i :: OccursAt(s, sub, i) {
      var i :| OccursAt(s, sub, i);
      assert i > 0;
      assert s[1..][i - 1..i - 1 + |sub|] == s[i..i + |sub|];
      assert OccursAt(s[1..], sub, i - 1);
    }
    if exists j :: OccursAt(s[1..], sub, j) {
      var j :| OccursAt(s[1..], sub, j);
      assert s[j + 1..j + 1 + |sub|] == s[1..][j..j + |sub|];
      assert OccursAt(s, sub, j + 1);
    }
  }

  datatype AltitudeMode = SafePath | FixedAmsl | TerrainRelative

  /** The mode string is tested for "Safe Path" first, then "Fixed"; anything else is terrain
      relative. */
  function ResolveMode(mode: string): (m: AltitudeMode)
    ensures m == SafePath <==> Contains(mode, "Safe Path")
    ensures m == FixedAmsl <==> !Contains(mode, "Safe Path") && Contains(mode, "Fixed")
  {
    if Contains(mode, "Safe Path") then SafePath
    else if Contains(mode, "Fixed") then FixedAmsl
    else TerrainRelative
  }

  /** The default parameters select the safe-path mode with no smoothing. */
  lemma DefaultsSelectSafePath()
    ensures ResolveMode(DefaultParams.altitudeMode) == SafePath
    ensures forall path :: Smooth(path, DefaultParams.smoothing) == path
  {
    assert OccursAt(DefaultParams.altitudeMode, "Safe Path", 6);
  }

  /** The fixed-altitude entry of the parameters dialog selects the fixed mode. */
  lemma FixedStringSelectsFixed()
    ensures ResolveMode("Fixed Altitude (AMSL)") == FixedAmsl
  {
    var f := "Fixed Altitude (AMSL)";
    assert OccursAt(f, "Fixed", 0);
    forall i | 0 <= i <= |f| - 9
      ensures !OccursAt(f, "Safe Path", i)
    {
      assert f[i..i + 9][0] == f[i] != 'S';
    }
  }

  /** The running maximum of the scan: starts at the sentinel and is raised by every sample
      larger than it. */
  function PeakSample(es: seq<real>): (m: real)
    ensures NoElevation <= m
    ensures forall i :: 0 <= i < |es| ==> es[i] <= m
    ensures m == NoElevation || exists i :: 0 <= i < |es| && es[i] == m
  {
    if |es| == 0 then NoElevation
    else
      var prev := PeakSample(es[..|es| - 1]);
      assert forall i :: 0 <= i < |es| - 1 ==> es[..|es| - 1][i] == es[i];
      if es[|es| - 1] > prev then es[|es| - 1] else prev
  }

  /** maxElev after the sentinel check: at least every sample; the largest sample as soon as
      one rises above the sentinel, even a negative one; 0 when none does. */
  function SafeMaxElevation(es: seq<real>): (m: real)
    ensures forall i :: 0 <= i < |es| ==> es[i] <= m
    ensures m == 0.0 || exists i :: 0 <= i < |es| && es[i] == m
    ensures (exists i :: 0 <= i < |es| && es[i] > NoElevation) ==> exists i :: 0 <= i < |es| && es[i] == m
    ensures (forall i :: 0 <= i < |es| ==> es[i] <= NoElevation) ==> m == 0.0
  {
    var p := PeakSample(es);
    if p == NoElevation then 0.0 else p
  }

  /** Terrain wholly below sea level keeps its negative peak: the fallback to 0 applies only
      when no sample rose above the sentinel. */
  lemma BelowSeaLevelPeak()
    ensures SafeMaxElevation([-400.0, -350.0]) == -350.0
    ensures SafeMaxElevation([NoElevation]) == 0.0
  {
  }

  /** The elevation sampled at each point. */
  function Samples(points: seq<Point>, dem: Option<Raster>): seq<real>
  {
    seq(|points|, i requires 0 <= i < |points| => ElevationAt(dem, points[i]))
  }

  /** The peak elevation along the path, scanned on a copy densified every 2 units: no
      scanned point is above it; it is the elevation of one of them whenever one samples above
      the -9999 sentinel, terrain below sea level included, and 0 when none does. */
  function PathMaxElevation(vs: seq<Point>, dem: Option<Raster>, distance: Distance): (m: real)
    ensures forall q :: q in Densify(vs, ScanInterval, distance) ==> ElevationAt(dem, q) <= m
    ensures m == 0.0 || exists q :: q in Densify(vs, ScanInterval, distance) && ElevationAt(dem, q) == m
    ensures (exists q :: q in Densify(vs, ScanInterval, distance) && ElevationAt(dem, q) > NoElevation) ==>
              exists q :: q in Densify(vs, ScanInterval, distance) && ElevationAt(dem, q) == m
    ensures (forall q :: q in Densify(vs, ScanInterval, distance) ==> ElevationAt(dem, q) <= NoElevation) ==>
              m == 0.0
  {
    var dense := Densify(vs, ScanInterval, distance);
    SampledPeak(dense, dem);
    SafeMaxElevation(Samples(dense, dem))
  }

  /** The peak of the samples, seen as a property of the sampled points. */
  lemma SampledPeak(points: seq<Point>, dem: Option<Raster>)
    ensures var m := SafeMaxElevation(Samples(points, dem));
            (forall q :: q in points ==> ElevationAt(dem, q) <= m) &&
            (m == 0.0 || exists q :: q in points && ElevationAt(dem, q) == m) &&
            ((exists q :: q in points && ElevationAt(dem, q) > NoElevation) ==>
               exists q :: q in points && ElevationAt(dem, q) == m) &&
            ((forall q :: q in points ==> ElevationAt(dem, q) <= NoElevation) ==> m == 0.0)
  {
    var es := Samples(points, dem);
    var m := SafeMaxElevation(es);
    forall q | q in points
      ensures ElevationAt(dem, q) <= m
    {
      var k :| 0 <= k < |points| && points[k] == q;
      assert es[k] == ElevationAt(dem, q);
    }
    if m != 0.0 {
      var k :| 0 <= k < |es| && es[k] == m;
      assert points[k] in points;
    }
    if q :| q in points && ElevationAt(dem, q) > NoElevation {
      var k :| 0 <= k < |points| && points[k] == q;
      assert es[k] > NoElevation;
      var j :| 0 <= j < |es| && es[j] == m;
      assert points[j] in points;
    }
    if forall q :: q in points ==> ElevationAt(dem, q) <= NoElevation {
      forall i | 0 <= i < |es|
        ensures es[i] <= NoElevation
      {
        assert points[i] in points;
      }
    }
  }

  /** The terrain elevation under a point, scaled by the vertical exaggeration. */
  function ScaledElevation(p: FlythroughParams, pt: Point): real
  {
    ElevationAt(p.demLayer, pt) * p.verticalExaggeration
  }

  /** The camera height above its reference, scaled by the vertical exaggeration. */
  function ScaledHeight(p: FlythroughParams): real
  {
    p.cameraHeight * p.verticalExaggeration
  }

  /** autoFixedZ: the safe-path altitude, (peak + height) * exaggeration. */
  function SafePathZ(maxElev: real, p: FlythroughParams): real
  {
    (maxElev + p.cameraHeight) * p.verticalExaggeration
  }

  /** The safe-path altitude clears the scaled terrain of every point whose elevation is at most
      the peak, when height and exaggeration are not negative. */
  lemma SafePathZClears(maxElev: real, p: FlythroughParams, pt: Point)
    requires ElevationAt(p.demLayer, pt) <= maxElev
    requires p.cameraHeight >= 0.0 && p.verticalExaggeration >= 0.0
    ensures SafePathZ(maxElev, p) >= ScaledElevation(p, pt)
  {
    var elev, e := ElevationAt(p.demLayer, pt), p.verticalExaggeration;
    assert SafePathZ(maxElev, p) - ScaledElevation(p, pt) == (maxElev - elev + p.cameraHeight) * e;
    MulNonneg(maxElev - elev + p.cameraHeight, e);
  }

  lemma ScaledHeightNonneg(p: FlythroughParams)
    ensures p.cameraHeight >= 0.0 && p.verticalExaggeration >= 0.0 ==> ScaledHeight(p) >= 0.0
  {
    if p.cameraHeight >= 0.0 && p.verticalExaggeration >= 0.0 {
      MulNonneg(p.cameraHeight, p.verticalExaggeration);
    }
  }

  /** The camera altitude for one vertex under the resolved mode: the fixed mode ignores the
      terrain, and with a non-negative height and exaggeration the terrain-relative mode is
      never below the scaled ground. */
  function TargetZ(mode: AltitudeMode, maxElev: real, scaledElevation: real, p: FlythroughParams)
    : (z: real)
    ensures mode == FixedAmsl ==> z == ScaledHeight(p)
    ensures mode == TerrainRelative && p.cameraHeight >= 0.0 && p.verticalExaggeration >= 0.0 ==>
              z >= scaledElevation
  {
    ScaledHeightNonneg(p);
    match mode
    case SafePath => SafePathZ(maxElev, p)
    case FixedAmsl => ScaledHeight(p)
    case TerrainRelative => scaledElevation + ScaledHeight(p)
  }

  /** segmentDistance / speed: the time that covers distance d at that speed. A zero speed,
      which gives an IEEE infinity or NaN in flythrough_core.cpp, contributes 0 here. */
  function SegmentDuration(d: real, speed: real): (t: real)
    ensures speed == 0.0 ==> t == 0.0
    ensures speed > 0.0 && d >= 0.0 ==> t >= 0.0
  {
    if speed == 0.0 then 0.0 else d / speed
  }

  /** At a non-zero speed the segment's duration covers exactly its length. */
  lemma SegmentDurationCovers(d: real, speed: real)
    requires speed != 0.0
    ensures SegmentDuration(d, speed) * speed == d
  {
  }

  /** The time accumulator: the sum of the segment durations before vertex i. */
  function TimeAt(vs: seq<Point>, i: nat, speed: real, distance: Distance): (t: real)
    requires i < |vs|
  {
    if i == 0 then 0.0
    else TimeAt(vs, i - 1, speed, distance) + SegmentDuration(distance(vs[i - 1], vs[i]), speed)
  }

  /** The heading of vertex i: the bearing to the next vertex, or for the last vertex the
      heading of the one before it (0 for a single vertex). */
  function YawAt(vs: seq<Point>, i: nat, trig: Trig): (yaw: real)
    requires i < |vs|
    ensures 0.0 <= yaw < 360.0
  {
    if i + 1 < |vs| then CalculateBearing(vs[i], vs[i + 1], trig)
    else if i > 0 then CalculateBearing(vs[i - 1], vs[i], trig)
    else 0.0
  }

  /** The turn at interior vertex i: outgoing minus incoming bearing, wrapped into [-180, 180]. */
  function TurnAngle(vs: seq<Point>, i: nat, trig: Trig): (turn: real)
    requires 0 < i < |vs| - 1
    ensures -180.0 <= turn <= 180.0
  {
    Wrap180(CalculateBearing(vs[i], vs[i + 1], trig) - CalculateBearing(vs[i - 1], vs[i], trig))
  }

  /** The roll for a turn: -turn * factor clamped to 45 degrees either way. With a
      non-negative factor it never leans into the turn, and it is exactly -turn * factor
      when that is within the clamp. */
  function BankRoll(turn: real, factor: real): (roll: real)
    ensures -45.0 <= roll <= 45.0
    ensures factor >= 0.0 ==> turn * roll <= 0.0
    ensures -45.0 <= -turn * factor <= 45.0 ==> roll == -turn * factor
  {
    RollOpposesTurn(turn, factor);
    Clamp(-turn * factor, -45.0, 45.0)
  }

  /** The banking roll of vertex i. */
  function RollAt(vs: seq<Point>, i: nat, p: FlythroughParams, trig: Trig): (roll: real)
    requires i < |vs|
    ensures -45.0 <= roll <= 45.0
  {
    if p.enableBanking && 0 < i < |vs| - 1 then
      BankRoll(TurnAngle(vs, i, trig), p.bankingFactor)
    else 0.0
  }

  /** The keyframe emitted for vertex i of the smoothed path. */
  function KeyframeAt(vs: seq<Point>, i: nat, p: FlythroughParams, trig: Trig, distance: Distance,
                      maxElev: real): Keyframe
    requires i < |vs|
  {
    var scaledElevation := ScaledElevation(p, vs[i]);
    Keyframe(TimeAt(vs, i, p.speed, distance), vs[i].x, vs[i].y,
             TargetZ(ResolveMode(p.altitudeMode), maxElev, scaledElevation, p),
             scaledElevation, YawAt(vs, i, trig), p.cameraPitch, RollAt(vs, i, p, trig))
  }

  /** One keyframe per vertex of vs, given the path's peak elevation: headings in [0, 360),
      rolls within 45 degrees, starting at time 0. */
  function KeyframeSeq(vs: seq<Point>, p: FlythroughParams, trig: Trig, distance: Distance,
                       maxElev: real): (kfs: seq<Keyframe>)
    ensures |kfs| == |vs|
    ensures |kfs| > 0 ==> kfs[0].time == 0.0
    ensures forall k :: 0 <= k < |kfs| ==> 0.0 <= kfs[k].yaw < 360.0 && -45.0 <= kfs[k].roll <= 45.0
  {
    seq(|vs|, i requires 0 <= i < |vs| => KeyframeAt(vs, i, p, trig, distance, maxElev))
  }

  /** The first i + 1 keyframes are the first i followed by keyframe i. */
  lemma PrefixExtends(kfs: seq<Keyframe>, i: nat)
    requires i < |kfs|
    ensures kfs[..i + 1] == kfs[..i] + [kfs[i]]
  {
  }

  /** The sequence generateKeyframes leaves in mKeyframes: the keyframes of the smoothed path,
      one per input vertex. */
  function Keyframes(input: seq<Point>, p: FlythroughParams, trig: Trig, distance: Distance)
    : (kfs: seq<Keyframe>)
    ensures |kfs| == |input|
  {
    var vs := Smooth(input, p.smoothing);
    KeyframeSeq(vs, p, trig, distance, PathMaxElevation(vs, p.demLayer, distance))
  }

  lemma {:induction false} TimeAtMonotone(vs: seq<Point>, i: nat, j: nat, speed: real, distance: Distance)
    requires i <= j < |vs| && speed > 0.0
    ensures TimeAt(vs, i, speed, distance) <= TimeAt(vs, j, speed, distance)
  {
    if i < j {
      TimeAtMonotone(vs, i, j - 1, speed, distance);
      assert SegmentDuration(distance(vs[j - 1], vs[j]), speed) >= 0.0;
    }
  }

  /** With a positive speed the keyframe times never decrease. */
  lemma KeyframeTimesNonDecreasing(vs: seq<Point>, p: FlythroughParams, trig: Trig, distance: Distance,
                                   maxElev: real)
    requires p.speed > 0.0
    ensures var kfs := KeyframeSeq(vs, p, trig, distance, maxElev);
            forall i, j :: 0 <= i <= j < |kfs| ==> kfs[i].time <= kfs[j].time
  {
    var kfs := KeyframeSeq(vs, p, trig, distance, maxElev);
    forall i, j | 0 <= i <= j < |kfs|
      ensures kfs[i].time <= kfs[j].time
    {
      TimeAtMonotone(vs, i, j, p.speed, distance);
    }
  }

  /** Altitude resolution: groundZ is always the scaled elevation; the safe-path mode puts every
      keyframe at (peak + height) * exaggeration, the fixed mode at height * exaggeration, and
      the terrain-relative mode at groundZ + height * exaggeration. */
  lemma KeyframeAltitudes(vs: seq<Point>, p: FlythroughParams, trig: Trig, distance: Distance,
                          maxElev: real, i: nat)
    requires i < |vs|
    ensures var kf := KeyframeSeq(vs, p, trig, distance, maxElev)[i];
            kf.groundZ == ScaledElevation(p, vs[i]) &&
            (Contains(p.altitudeMode, "Safe Path") ==> kf.z == SafePathZ(maxElev, p)) &&
            (!Contains(p.altitudeMode, "Safe Path") && Contains(p.altitudeMode, "Fixed") ==>
               kf.z == ScaledHeight(p)) &&
            (!Contains(p.altitudeMode, "Safe Path") && !Contains(p.altitudeMode, "Fixed") ==>
               kf.z == kf.groundZ + ScaledHeight(p))
  {
  }

  /** Every vertex of the path is among the scanned points, so none is above the peak. */
  lemma {:induction false} VertexBelowPeak(vs: seq<Point>, dem: Option<Raster>, distance: Distance, j: nat)
    requires j < |vs|
    ensures ElevationAt(dem, vs[j]) <= PathMaxElevation(vs, dem, distance)
  {
    var dense := Densify(vs, ScanInterval, distance);
    var es := Samples(dense, dem);
    var at: nat;
    if |vs| < 2 {
      at := j;
    } else {
      DensifyKeepsVertices(vs, ScanInterval, distance, j);
      at := |DensePrefix(vs, j, SegmentPieces(ScanInterval, distance))| - 1;
    }
    assert dense[at] == vs[j];
    assert es[at] == ElevationAt(dem, vs[j]);
  }

  /** In the safe-path mode, with non-negative height and exaggeration, no keyframe is below
      the terrain under any keyframe. */
  lemma SafePathClearsTerrain(vs: seq<Point>, p: FlythroughParams, trig: Trig,
                              distance: Distance, i: nat, j: nat)
    requires i < |vs| && j < |vs|
    requires Contains(p.altitudeMode, "Safe Path")
    requires p.cameraHeight >= 0.0 && p.verticalExaggeration >= 0.0
    ensures var kfs := KeyframeSeq(vs, p, trig, distance, PathMaxElevation(vs, p.demLayer, distance));
            kfs[i].z >= kfs[j].groundZ
  {
    var maxElev := PathMaxElevation(vs, p.demLayer, distance);
    VertexBelowPeak(vs, p.demLayer, distance, j);
    SafePathZClears(maxElev, p, vs[j]);
    KeyframeAltitudes(vs, p, trig, distance, maxElev, i);
    KeyframeAltitudes(vs, p, trig, distance, maxElev, j);
  }

  /** Every keyframe sits on its vertex with the configured pitch, and with a positive speed
      no keyframe time is negative. */
  lemma KeyframePlacement(vs: seq<Point>, p: FlythroughParams, trig: Trig, distance: Distance,
                          maxElev: real, i: nat)
    requires i < |vs|
    ensures var kf := KeyframeSeq(vs, p, trig, distance, maxElev)[i];
            kf.x == vs[i].x && kf.y == vs[i].y && kf.pitch == p.cameraPitch &&
            (p.speed > 0.0 ==> kf.time >= 0.0)
  {
    var kfs := KeyframeSeq(vs, p, trig, distance, maxElev);
    assert kfs[i] == KeyframeAt(vs, i, p, trig, distance, maxElev);
    if p.speed > 0.0 {
      TimeAtMonotone(vs, 0, i, p.speed, distance);
    }
  }

  /** Consecutive keyframes are separated by the time the segment between their vertices
      takes at the configured speed. */
  lemma KeyframeTimeStep(vs: seq<Point>, p: FlythroughParams, trig: Trig, distance: Distance,
                         maxElev: real, i: nat)
    requires i + 1 < |vs|
    ensures var kfs := KeyframeSeq(vs, p, trig, distance, maxElev);
            kfs[i + 1].time == kfs[i].time + SegmentDuration(distance(vs[i], vs[i + 1]), p.speed)
  {
    var kfs := KeyframeSeq(vs, p, trig, distance, maxElev);
    assert kfs[i] == KeyframeAt(vs, i, p, trig, distance, maxElev);
    assert kfs[i + 1] == KeyframeAt(vs, i + 1, p, trig, distance, maxElev);
  }

  /** The last keyframe repeats the previous heading; every other keyframe heads for the next
      vertex. */
  lemma KeyframeHeadings(vs: seq<Point>, p: FlythroughParams, trig: Trig, distance: Distance,
                         maxElev: real, i: nat)
    requires i < |vs|
    ensures var kfs := KeyframeSeq(vs, p, trig, distance, maxElev);
            (i == |kfs| - 1 && i > 0 ==> kfs[i].yaw == kfs[i - 1].yaw) &&
            (i < |kfs| - 1 ==> kfs[i].yaw == CalculateBearing(vs[i], vs[i + 1], trig))
  {
    var kfs := KeyframeSeq(vs, p, trig, distance, maxElev);
    assert kfs[i].yaw == YawAt(vs, i, trig);
    if i == |kfs| - 1 && i > 0 {
      assert kfs[i - 1].yaw == YawAt(vs, i - 1, trig);
    }
  }

  /** Roll is 0 unless banking is on and the vertex is interior; there it is the clamped
      -turn * factor, and with a non-negative factor it never leans into the turn. */
  lemma KeyframeBanking(vs: seq<Point>, p: FlythroughParams, trig: Trig, distance: Distance,
                        maxElev: real, i: nat)
    requires i < |vs|
    ensures var kfs := KeyframeSeq(vs, p, trig, distance, maxElev);
            (!p.enableBanking || i == 0 || i == |kfs| - 1 ==> kfs[i].roll == 0.0) &&
            (p.enableBanking && 0 < i < |kfs| - 1 ==>
               kfs[i].roll == BankRoll(TurnAngle(vs, i, trig), p.bankingFactor))
  {
  }

  lemma RollOpposesTurn(turn: real, factor: real)
    ensures factor >= 0.0 ==> turn * Clamp(-turn * factor, -45.0, 45.0) <= 0.0
  {
    var roll := Clamp(-turn * factor, -45.0, 45.0);
    if factor < 0.0 {
    } else if turn >= 0.0 {
      MulNonneg(turn, factor);
      MulNonneg(turn, -roll);
    } else {
      MulNonneg(-turn, factor);
      MulNonneg(-turn, roll);
    }
  }
}
