/** The arithmetic of moveCamera: from an interpolated camera position, heading, pitch and
    look-ahead target to the look-at point, distance, pitch and yaw handed to the 3D camera
    controller. */
module Pose {
  import opened Geometry
  import opened Angles

  datatype Point3 = Point3(x: real, y: real, z: real)

  /** The arguments of setLookingAtMapPoint: the map point looked at, the camera's distance
      from it, and the orbit pitch and yaw in degrees. */
  datatype CameraPose = CameraPose(lookAt: Point3, distance: real, pitch: real, yaw: real)

  /** A horizontal offset in map units. */
  datatype Vec = Vec(dx: real, dy: real)

  /** The offset v multiplied by the factor s. */
  function Scale(v: Vec, s: real): Vec
  {
    Vec(v.dx * s, v.dy * s)
  }

  /** std::sqrt(dx * dx + dy * dy). */
  function Length(v: Vec, trig: Trig): (len: real)
    ensures len >= 0.0
  {
    trig.hypot(v.dx, v.dy)
  }

  /** The map point reached from (x, y) by the offset v. */
  function Offset(x: real, y: real, v: Vec): Point
  {
    Point(x + v.dx, y + v.dy)
  }

  /** lookAhead units along the heading yaw (0 = +y, growing toward +x). */
  function AlongHeading(lookAhead: real, yaw: real, trig: Trig): Vec
  {
    Vec(lookAhead * trig.sinDeg(yaw), lookAhead * trig.cosDeg(yaw))
  }

  /** The point `reach` units along a ray that starts at camZ with the given pitch:
      camZ + reach * tan(pitch). */
  function PitchedZ(camZ: real, reach: real, pitch: real, trig: Trig): real
  {
    camZ + reach * trig.tanDeg(pitch)
  }

  /** reqHorizM: the horizontal reach at which a ray falling vertDiff with the given pitch
      meets the terrain. */
  function RequiredReach(vertDiff: real, pitch: real, trig: Trig): real
    requires trig.tanDeg(Abs(pitch)) != 0.0
  {
    vertDiff / trig.tanDeg(Abs(pitch))
  }

  /** The look-ahead step of moveCamera: the scale factor applied to the offset toward the
      target, the resulting look vector, and the ground height at its end interpolated to the
      same fraction. moveCamera computes a scale only when the target is more than 1 unit away;
      in the heading fallback the field holds 1 as bookkeeping and nothing reads it. */
  datatype LookAhead = LookAhead(scale: real, look: Vec, ground: real)

  /** The look vector (flythrough_core.cpp:674-694): when the target is more than 1 unit
      away, the offset toward it scaled by qMin(1, lookAhead / rawDist), with the ground
      interpolated between the camera's and the target's ground by the same factor; otherwise
      lookAhead units along the heading over the camera's own ground. */
  function LookAheadOf(x: real, y: real, groundZ: real, yaw: real, lookX: real, lookY: real,
                       lookGz: real, lookAhead: real, trig: Trig): (la: LookAhead)
    ensures la.scale <= 1.0
    ensures lookAhead >= 0.0 ==>
              0.0 <= la.scale && QMin(groundZ, lookGz) <= la.ground <= QMax(groundZ, lookGz)
    ensures Length(Vec(lookX - x, lookY - y), trig) > 1.0 && lookAhead >= 0.0 ==>
              la.scale == 1.0 || la.scale * Length(Vec(lookX - x, lookY - y), trig) == lookAhead
    ensures Length(Vec(lookX - x, lookY - y), trig) > 1.0 ==>
              la.scale == QMin(1.0, lookAhead / Length(Vec(lookX - x, lookY - y), trig)) &&
              la.look == Scale(Vec(lookX - x, lookY - y), la.scale) &&
              la.ground == Lerp(groundZ, lookGz, la.scale)
    ensures Length(Vec(lookX - x, lookY - y), trig) <= 1.0 ==>
              la.look == AlongHeading(lookAhead, yaw, trig) && la.ground == groundZ
  {
    var toTarget := Vec(lookX - x, lookY - y);
    var rawDist := Length(toTarget, trig);
    if rawDist > 1.0 then
      var scale := QMin(1.0, lookAhead / rawDist);
      LookScaleInRange(lookAhead, rawDist);
      LookAhead(scale, Scale(toTarget, scale), Lerp(groundZ, lookGz, scale))
    else
      LookAhead(1.0, AlongHeading(lookAhead, yaw, trig), groundZ)
  }

  /** The terrain check at the look-at point (flythrough_core.cpp:698-705): the larger of the
      look-ahead ground and, with a DEM, the elevation sampled there. */
  function GroundAt(aheadGz: real, dem: Option<Raster>, at: Point): (g: real)
    ensures g >= aheadGz
    ensures dem.Some? ==> g >= ElevationAt(dem, at)
    ensures g == aheadGz || (dem.Some? && g == ElevationAt(dem, at))
  {
    if dem.Some? && ElevationAt(dem, at) > aheadGz then ElevationAt(dem, at) else aheadGz
  }

  /** The outcome of the underground check: whether the look vector was shortened, by what
      factor, the horizontal reach afterwards and the height of the look-at point. */
  datatype Correction = Correction(corrected: bool, shrink: real, reach: real, finalZ: real)

  /** Preventing the camera from looking underground (flythrough_core.cpp:707-726): the look
      ray leaves the camera at camZ with the given pitch. When it ends below the ground height
      aheadGz, the camera is above that height, the pitch is steeper than 1 degree and the
      reach longer than 0.1, the reach becomes reqHorizM, the one at which a ray falling with
      |pitch| meets the ground height, provided that is shorter; the look vector shrinks by
      reqHorizM / horizontal and the look-at point sits on the ground height. A zero tangent
      makes reqHorizM infinite in IEEE arithmetic, so nothing changes then. */
  function CorrectionOf(camZ: real, aheadGz: real, pitchParam: real, horizontal: real, trig: Trig)
    : (c: Correction)
    ensures c.corrected <==>
              PitchedZ(camZ, horizontal, pitchParam, trig) < aheadGz &&
              camZ - aheadGz > 0.0 && Abs(pitchParam) > 1.0 &&
              trig.tanDeg(Abs(pitchParam)) != 0.0 && horizontal > 0.1 &&
              RequiredReach(camZ - aheadGz, pitchParam, trig) < horizontal
    ensures !c.corrected ==>
              c.shrink == 1.0 && c.reach == horizontal && c.finalZ == PitchedZ(camZ, horizontal, pitchParam, trig)
    ensures c.corrected ==>
              c.reach == RequiredReach(camZ - aheadGz, pitchParam, trig) &&
              c.shrink == c.reach / horizontal &&
              c.finalZ == aheadGz && c.shrink < 1.0 && c.shrink * horizontal == c.reach &&
              camZ - c.reach * trig.tanDeg(Abs(pitchParam)) == aheadGz &&
              (Abs(pitchParam) < 90.0 ==> 0.0 < c.shrink)
  {
    var z := PitchedZ(camZ, horizontal, pitchParam, trig);
    var vertDiff := camZ - aheadGz;
    if z < aheadGz && vertDiff > 0.0 && Abs(pitchParam) > 1.0 && trig.tanDeg(Abs(pitchParam)) != 0.0 &&
       horizontal > 0.1
    then
      var reqHorizM := RequiredReach(vertDiff, pitchParam, trig);
      var scaleDown := reqHorizM / horizontal;
      ReachRatio(reqHorizM, horizontal);
      ReachMeetsGround(vertDiff, trig.tanDeg(Abs(pitchParam)));
      ShrinkPositive(vertDiff, trig.tanDeg(Abs(pitchParam)), horizontal);
      if scaleDown < 1.0 then Correction(true, scaleDown, reqHorizM, aheadGz)
      else Correction(false, 1.0, horizontal, z)
    else
      Correction(false, 1.0, horizontal, z)
  }

  /** The camera altitude after the safety floor and the orbit handed to the controller. */
  datatype Orbit = Orbit(cameraZ: real, distance: real, pitch: real, yaw: real)

  /** The camera floor and the orbit parameters (flythrough_core.cpp:735-750): the camera is
      lifted to groundZ + 10 when less than 1 unit above its ground; the distance is the
      length of (horizM, camZ - finalZ), or camHeight when that is below 1; the pitch is
      atan2(camZ - finalZ, horizM) in degrees, 0 for a reach below 0.001, clamped to
      [0, 180]; the yaw is fmod(360 - bearing of the look vector, 360). */
  function OrbitOf(absoluteZ: real, groundZ: real, finalZ: real, horizM: real, look: Vec,
                   camHeight: real, trig: Trig): (o: Orbit)
    ensures o.cameraZ >= groundZ + 1.0
    ensures absoluteZ >= groundZ + 1.0 ==> o.cameraZ == absoluteZ
    ensures absoluteZ < groundZ + 1.0 ==> o.cameraZ == groundZ + 10.0
    ensures o.distance >= 1.0 || o.distance == camHeight
    ensures Length(Vec(horizM, o.cameraZ - finalZ), trig) >= 1.0 ==>
              o.distance == Length(Vec(horizM, o.cameraZ - finalZ), trig)
    ensures Length(Vec(horizM, o.cameraZ - finalZ), trig) < 1.0 ==> o.distance == camHeight
    ensures 0.0 <= o.pitch <= 180.0
    ensures horizM < 0.001 ==> o.pitch == 0.0
    ensures horizM >= 0.001 ==> o.pitch == Clamp(trig.atan2Deg(o.cameraZ - finalZ, horizM), 0.0, 180.0)
    ensures horizM >= 0.001 && o.cameraZ < finalZ ==> o.pitch == 0.0
    ensures 0.0 <= o.yaw < 360.0
    ensures o.yaw == Fmod360(360.0 - trig.atan2Deg(look.dx, look.dy))
    ensures WholeTurns(o.yaw + trig.atan2Deg(look.dx, look.dy))
  {
    var camZ := if absoluteZ < groundZ + 1.0 then groundZ + 10.0 else absoluteZ;
    var vert := camZ - finalZ;
    var dist := Length(Vec(horizM, vert), trig);
    var rawPitch := if horizM < 0.001 then 0.0 else trig.atan2Deg(vert, horizM);
    var bear := trig.atan2Deg(look.dx, look.dy);
    var yaw := Fmod360(360.0 - bear);
    YawTurns(bear, yaw);
    Orbit(camZ, if dist < 1.0 then camHeight else dist, Clamp(rawPitch, 0.0, 180.0), yaw)
  }

  /** The pose moveCamera hands to setLookingAtMapPoint (flythrough_core.cpp:669-750);
      camHeight, lookAhead and dem are the fields mCameraHeight, mLookaheadDist and mDemLayer. */
  function PoseOf(x: real, y: real, groundZ: real, yaw: real, pitchParam: real,
                  lookX: real, lookY: real, lookGz: real, absoluteZ: real,
                  camHeight: real, lookAhead: real, dem: Option<Raster>, trig: Trig): (pose: CameraPose)
    ensures pose.distance >= 1.0 || pose.distance == camHeight
    ensures 0.0 <= pose.pitch <= 180.0
    ensures 0.0 <= pose.yaw < 360.0
  {
    var la := LookAheadOf(x, y, groundZ, yaw, lookX, lookY, lookGz, lookAhead, trig);
    var ground := GroundAt(la.ground, dem, Offset(x, y, la.look));
    var c := CorrectionOf(absoluteZ, ground, pitchParam, Length(la.look, trig), trig);
    var scaled := if c.corrected then Scale(la.look, c.shrink) else la.look;
    var o := OrbitOf(absoluteZ, groundZ, c.finalZ, c.reach, scaled, camHeight, trig);
    var at := Offset(x, y, scaled);
    CameraPose(Point3(at.x, at.y, c.finalZ), o.distance, o.pitch, o.yaw)
  }

  /** After the underground correction the camera looks at the terrain: the look-at point is
      on the ground height found at the uncorrected look-at point, so not below the DEM
      sample there, and the look-at point moved toward the camera along the look vector. */
  lemma CorrectedLookAt(x: real, y: real, groundZ: real, yaw: real, pitchParam: real,
                        lookX: real, lookY: real, lookGz: real, absoluteZ: real,
                        camHeight: real, lookAhead: real, dem: Option<Raster>, trig: Trig)
    ensures var la := LookAheadOf(x, y, groundZ, yaw, lookX, lookY, lookGz, lookAhead, trig);
            var at := Offset(x, y, la.look);
            var c := CorrectionOf(absoluteZ, GroundAt(la.ground, dem, at), pitchParam,
                                  Length(la.look, trig), trig);
            var pose := PoseOf(x, y, groundZ, yaw, pitchParam, lookX, lookY, lookGz, absoluteZ,
                               camHeight, lookAhead, dem, trig);
            c.corrected ==>
              pose.lookAt.z == GroundAt(la.ground, dem, at) && pose.lookAt.z < absoluteZ &&
              (dem.Some? ==> pose.lookAt.z >= ElevationAt(dem, at)) &&
              Point(pose.lookAt.x, pose.lookAt.y) == Offset(x, y, Scale(la.look, c.shrink))
  {
  }

  /** A pitch strictly between 0 and 90 degrees tilts the look ray upward: with a non-zero
      look vector the underground correction never applies, the look-at point is above the
      camera, and unless the camera was lifted off the ground the orbit pitch is clamped to 0. */
  lemma PositivePitchLooksUp(x: real, y: real, groundZ: real, yaw: real, pitchParam: real,
                             lookX: real, lookY: real, lookGz: real, absoluteZ: real,
                             camHeight: real, lookAhead: real, dem: Option<Raster>, trig: Trig)
    requires 0.0 < pitchParam < 90.0
    requires Length(LookAheadOf(x, y, groundZ, yaw, lookX, lookY, lookGz, lookAhead, trig).look, trig) > 0.0
    ensures var la := LookAheadOf(x, y, groundZ, yaw, lookX, lookY, lookGz, lookAhead, trig);
            var horizontal := Length(la.look, trig);
            var c := CorrectionOf(absoluteZ, GroundAt(la.ground, dem, Offset(x, y, la.look)),
                                  pitchParam, horizontal, trig);
            var pose := PoseOf(x, y, groundZ, yaw, pitchParam, lookX, lookY, lookGz, absoluteZ,
                               camHeight, lookAhead, dem, trig);
            !c.corrected && pose.lookAt.z > absoluteZ &&
            (horizontal >= 0.001 && absoluteZ >= groundZ + 1.0 ==> pose.pitch == 0.0)
  {
    var la := LookAheadOf(x, y, groundZ, yaw, lookX, lookY, lookGz, lookAhead, trig);
    RaisedLookAt(absoluteZ, Length(la.look, trig), pitchParam, trig);
  }

  /** moveCamera's arithmetic, step by step as flythrough_core.cpp computes it. */
  method MoveCamera(x: real, y: real, groundZ: real, yaw: real, pitchParam: real,
                    lookX: real, lookY: real, lookGz: real, absoluteZ: real,
                    camHeight: real, lookAhead: real, dem: Option<Raster>, trig: Trig)
    returns (pose: CameraPose)
    ensures pose == PoseOf(x, y, groundZ, yaw, pitchParam, lookX, lookY, lookGz, absoluteZ,
                           camHeight, lookAhead, dem, trig)
  {
    var scale, look, aheadGz := LookVector(x, y, groundZ, yaw, lookX, lookY, lookGz, lookAhead, trig);
    aheadGz := SampleLookGround(aheadGz, dem, Offset(x, y, look));
    var horizontal := Length(look, trig);
    var corrected, shrink, horizM, finalZ := CorrectUnderground(absoluteZ, aheadGz, pitchParam,
                                                               horizontal, trig);
    var scaled := look;
    if corrected {
      scaled := Scale(look, shrink);
    }
    var camZ, dist, orbPitch, orbYaw := OrbitParams(absoluteZ, groundZ, finalZ, horizM, scaled,
                                                    camHeight, trig);
    var at := Offset(x, y, scaled);
    pose := CameraPose(Point3(at.x, at.y, finalZ), dist, orbPitch, orbYaw);
  }

  /** The look-vector step (flythrough_core.cpp:674-694). */
  method LookVector(x: real, y: real, groundZ: real, yaw: real, lookX: real, lookY: real,
                    lookGz: real, lookAhead: real, trig: Trig)
    returns (scale: real, look: Vec, aheadGz: real)
    ensures LookAhead(scale, look, aheadGz) == LookAheadOf(x, y, groundZ, yaw, lookX, lookY, lookGz, lookAhead, trig)
  {
    var toTarget := Vec(lookX - x, lookY - y);
    var rawDist := Length(toTarget, trig);
    scale := 1.0;
    if rawDist > 1.0 {
      scale := QMin(1.0, lookAhead / rawDist);
      look := Scale(toTarget, scale);
      aheadGz := groundZ + (lookGz - groundZ) * scale;
    } else {
      look := AlongHeading(lookAhead, yaw, trig);
      aheadGz := groundZ;
    }
  }

  /** The terrain check step (flythrough_core.cpp:698-705). */
  method SampleLookGround(aheadGz: real, dem: Option<Raster>, at: Point) returns (ground: real)
    ensures ground == GroundAt(aheadGz, dem, at)
  {
    ground := aheadGz;
    if dem.Some? {
      var sampledZ := ElevationAt(dem, at);
      if sampledZ > ground {
        ground := sampledZ;
      }
    }
  }

  /** The underground-correction step (flythrough_core.cpp:707-726). */
  method CorrectUnderground(camZ: real, aheadGz: real, pitchParam: real, horizontal: real, trig: Trig)
    returns (corrected: bool, shrink: real, horizM: real, finalZ: real)
    ensures Correction(corrected, shrink, horizM, finalZ) == CorrectionOf(camZ, aheadGz, pitchParam, horizontal, trig)
  {
    horizM := horizontal;
    finalZ := PitchedZ(camZ, horizM, pitchParam, trig);
    corrected, shrink := false, 1.0;
    if finalZ < aheadGz {
      var vertDiff := camZ - aheadGz;
      if vertDiff > 0.0 && Abs(pitchParam) > 1.0 {
        if trig.tanDeg(Abs(pitchParam)) != 0.0 {
          var reqHorizM := RequiredReach(vertDiff, pitchParam, trig);
          if horizM > 0.1 {
            var scaleDown := reqHorizM / horizM;
            if scaleDown < 1.0 {
              finalZ := aheadGz;
              horizM := reqHorizM;
              corrected, shrink := true, scaleDown;
            }
          }
        }
      }
    }
  }

  /** The camera-floor and orbit step (flythrough_core.cpp:735-750). */
  method OrbitParams(absoluteZ: real, groundZ: real, finalZ: real, horizM: real, look: Vec,
                     camHeight: real, trig: Trig)
    returns (camZ: real, dist: real, orbPitch: real, orbYaw: real)
    ensures Orbit(camZ, dist, orbPitch, orbYaw) == OrbitOf(absoluteZ, groundZ, finalZ, horizM, look, camHeight, trig)
  {
    camZ := absoluteZ;
    if camZ < groundZ + 1.0 {
      camZ := groundZ + 10.0;
    }

    var vert := camZ - finalZ;
    dist := Length(Vec(horizM, vert), trig);
    if dist < 1.0 {
      dist := camHeight;
    }

    orbPitch := if horizM < 0.001 then 0.0 else trig.atan2Deg(vert, horizM);
    orbPitch := QMax(0.0, QMin(180.0, orbPitch));

    var bear := trig.atan2Deg(look.dx, look.dy);
    orbYaw := Fmod360(360.0 - bear);
  }

  /** A ray with a pitch strictly between 0 and 90 degrees ends above where it starts:
      tan(pitch) is positive there. */
  lemma RaisedLookAt(camZ: real, reach: real, pitch: real, trig: Trig)
    requires 0.0 < pitch < 90.0 && reach > 0.0
    ensures PitchedZ(camZ, reach, pitch, trig) > camZ
  {
    var t := trig.tanDeg(pitch);
    assert t > 0.0;
    assert reach * t > 0.0;
  }

  /** qMin(1, lookAhead / rawDist) is a factor in [0, 1] for a non-negative look-ahead, and
      when below 1 it stretches rawDist to exactly lookAhead. */
  lemma LookScaleInRange(lookAhead: real, rawDist: real)
    requires rawDist > 1.0
    ensures lookAhead >= 0.0 ==> 0.0 <= QMin(1.0, lookAhead / rawDist)
    ensures QMin(1.0, lookAhead / rawDist) == 1.0 || QMin(1.0, lookAhead / rawDist) * rawDist == lookAhead
  {
  }

  /** fmod(360 - bear, 360) undoes the bearing up to whole turns. */
  lemma YawTurns(bear: real, yaw: real)
    requires yaw == Fmod360(360.0 - bear)
    ensures WholeTurns(yaw + bear)
  {
    var k :| (360.0 - bear) - yaw == Turns(k);
    assert yaw + bear == Turns(1 - k);
  }

  /** The reduced reach times the tangent gives back the height difference. */
  lemma ReachMeetsGround(vertDiff: real, tanAbs: real)
    requires tanAbs != 0.0
    ensures vertDiff / tanAbs * tanAbs == vertDiff
  {
  }

  /** For a positive horizontal reach, reqHorizM / horizM < 1 exactly when reqHorizM < horizM. */
  lemma ReachRatio(req: real, horiz: real)
    requires horiz > 0.0
    ensures req / horiz < 1.0 <==> req < horiz
  {
  }

  /** With a positive numerator and denominator, the shrink factor has the sign of the
      tangent. */
  lemma ShrinkPositive(vertDiff: real, tanAbs: real, horiz: real)
    requires vertDiff > 0.0 && tanAbs != 0.0 && horiz > 0.0
    ensures tanAbs > 0.0 ==> vertDiff / tanAbs / horiz > 0.0
  {
  }
}
