/** The FlyThroughCore object: the state it keeps between calls (keyframes, total duration,
    stored camera parameters and the animation cursor) and the three operations that change
    it: keyframe generation, animation set-up and one animation tick. */
module Core {
  import opened Geometry
  import opened Angles
  import opened Preprocess
  import opened Keyframes
  import opened Playback
  import opened Pose

  /** mAnimIntervalMs = 1000 / fps in C integer division, which truncates toward zero: the
      longest whole number of milliseconds that fits fps times into a second. Frame rates
      above 1000 per second give 0. */
  function IntervalMs(fps: int): (ms: int)
    requires fps != 0
    ensures fps > 0 ==> 0 <= ms && ms * fps <= 1000 < (ms + 1) * fps
    ensures fps < 0 ==> ms <= 0 && -ms * -fps <= 1000 < (-ms + 1) * -fps
    ensures ms == 0 <==> fps > 1000 || fps < -1000
  {
    if fps > 0 then
      QuotientBounds(fps);
      1000 / fps
    else
      QuotientBounds(-fps);
      -(1000 / -fps)
  }

  /** Bounds of the quotient 1000 / d for a positive divisor. */
  lemma QuotientBounds(d: int)
    requires d > 0
    ensures 0 <= 1000 / d && (1000 / d) * d <= 1000 < (1000 / d + 1) * d
    ensures 1000 / d == 0 <==> d > 1000
  {
    var q, m := 1000 / d, 1000 % d;
    assert q * d + m == 1000 && 0 <= m < d;
    assert (q + 1) * d == q * d + d;
    if q > 0 {
      assert q * d >= d by {
        assert q * d == (q - 1) * d + d;
        assert (q - 1) * d >= 0;
      }
    }
  }

  /** mAnimDt: the interval in seconds. */
  function FrameDt(fps: int): (dt: real)
    requires fps != 0
    ensures dt > 0.0 <==> 0 < fps <= 1000
    ensures dt == 0.0 <==> fps > 1000 || fps < -1000
  {
    IntervalMs(fps) as real / 1000.0
  }

  /** The default 30 frames per second give a 33 ms timer and a 0.033 s step. */
  lemma DefaultFrameRate()
    ensures IntervalMs(DefaultParams.fps) == 33
    ensures FrameDt(DefaultParams.fps) == 0.033
  {
    assert 1000 / 30 == 33;
  }

  class FlyThroughCore {
    /** The numeric library and the ellipsoidal measurement the object works with. */
    const trig: Trig
    const distance: Distance

    /** The layer and camera parameters stored by setup3DCanvas. */
    var mDemLayer: Option<Raster>
    var mCameraHeight: real
    var mLookaheadDist: real
    var mPitchAngle: real
    var mVerticalScale: real

    /** The generated trajectory. */
    var mKeyframes: seq<Keyframe>
    var mTotalDuration: real

    /** The animation cursor. The index only starts at 0 and grows, so it is a nat. */
    var mAnimIndex: nat
    var mAnimElapsed: real
    var mAnimDt: real
    var mAnimIntervalMs: int

    /** The animation cursor as a playback state. */
    function State(): PlayState
      reads this
    {
      PlayState(mAnimIndex, mAnimElapsed)
    }

    /** The member initialisers of the class (flythrough_core.h:71-86). */
    constructor(trig: Trig, distance: Distance)
      ensures this.trig == trig && this.distance == distance
      ensures mDemLayer == None && mKeyframes == [] && mTotalDuration == 0.0
      ensures mCameraHeight == 200.0 && mLookaheadDist == 1000.0
      ensures mPitchAngle == -65.0 && mVerticalScale == 1.0
      ensures mAnimIndex == 0 && mAnimElapsed == 0.0 && mAnimDt == 0.0 && mAnimIntervalMs == 33
    {
      this.trig := trig;
      this.distance := distance;
      mDemLayer := None;
      mKeyframes := [];
      mTotalDuration := 0.0;
      mCameraHeight := 200.0;
      mLookaheadDist := 1000.0;
      mPitchAngle := -65.0;
      mVerticalScale := 1.0;
      mAnimIndex := 0;
      mAnimElapsed := 0.0;
      mAnimDt := 0.0;
      mAnimIntervalMs := 33;
    }

    /** The parameters setup3DCanvas stores before building the 3D view. */
    method StoreParams(params: FlythroughParams)
      modifies this`mCameraHeight, this`mLookaheadDist, this`mPitchAngle, this`mVerticalScale,
               this`mDemLayer
      ensures mCameraHeight == params.cameraHeight && mLookaheadDist == params.lookaheadDistance
      ensures mPitchAngle == params.cameraPitch && mVerticalScale == params.verticalExaggeration
      ensures mDemLayer == params.demLayer
    {
      mCameraHeight := params.cameraHeight;
      mLookaheadDist := params.lookaheadDistance;
      mPitchAngle := params.cameraPitch;
      mVerticalScale := params.verticalExaggeration;
      mDemLayer := params.demLayer;
    }

    /** generateKeyframes: the keyframes of the smoothed input path replace mKeyframes, and
        mTotalDuration becomes the last keyframe's time; an empty path leaves the duration as
        it was. */
    method GenerateKeyframes(inputVertices: seq<Point>, params: FlythroughParams)
      modifies this`mKeyframes, this`mTotalDuration
      ensures mKeyframes == Keyframes.Keyframes(inputVertices, params, trig, distance)
      ensures |mKeyframes| == |inputVertices|
      ensures |mKeyframes| > 0 ==> mTotalDuration == mKeyframes[|mKeyframes| - 1].time
      ensures |mKeyframes| == 0 ==> mTotalDuration == old(mTotalDuration)
    {
      var kfs := PlanKeyframes(inputVertices, params);
      mKeyframes := kfs;
      if |kfs| > 0 {
        mTotalDuration := kfs[|kfs| - 1].time;
      }
    }

    /** The three stages of generateKeyframes: smoothing, the peak scan and the keyframe loop. */
    method PlanKeyframes(inputVertices: seq<Point>, params: FlythroughParams)
      returns (kfs: seq<Keyframe>)
      ensures kfs == Keyframes.Keyframes(inputVertices, params, trig, distance)
    {
      var vertices := SmoothPath(inputVertices, params.smoothing);
      var maxElev := ScanPeak(vertices, params.demLayer);
      kfs := BuildKeyframes(vertices, params, maxElev);
    }

    /** The peak-elevation scan of generateKeyframes: the largest elevation sampled along the
        path densified every 2 units, or 0 when nothing rose above the -9999 sentinel. */
    method ScanPeak(vertices: seq<Point>, dem: Option<Raster>) returns (maxElev: real)
      ensures maxElev == PathMaxElevation(vertices, dem, distance)
    {
      var densePoints := DensifyPath(vertices, ScanInterval, distance);
      ghost var es := Samples(densePoints, dem);
      maxElev := NoElevation;
      var i := 0;
      while i < |densePoints|
        invariant 0 <= i <= |densePoints|
        invariant maxElev == PeakSample(es[..i])
      {
        var elev := ElevationAt(dem, densePoints[i]);
        assert es[..i + 1][..i] == es[..i];
        if elev > maxElev {
          maxElev := elev;
        }
        i := i + 1;
      }
      assert es[..|densePoints|] == es;
      if maxElev == NoElevation {
        maxElev := 0.0;
      }
    }

    /** The keyframe loop of generateKeyframes: one keyframe per vertex, with the running
        time and the previous heading carried from one vertex to the next. */
    method BuildKeyframes(vertices: seq<Point>, params: FlythroughParams, maxElev: real)
      returns (kfs: seq<Keyframe>)
      ensures kfs == KeyframeSeq(vertices, params, trig, distance, maxElev)
    {
      var autoFixedZ, userFixedAMSL := FixedAltitudes(params, maxElev);

      kfs := [];
      var currentTime, previousBearing := 0.0, 0.0;
      var i := 0;
      while i < |vertices|
        invariant 0 <= i <= |vertices|
        invariant kfs == KeyframeSeq(vertices, params, trig, distance, maxElev)[..i]
        invariant i < |vertices| ==> currentTime == TimeAt(vertices, i, params.speed, distance)
        invariant previousBearing == if i == 0 then 0.0 else YawAt(vertices, i - 1, trig)
      {
        kfs, currentTime, previousBearing := PushKeyframe(vertices, i, params, maxElev, autoFixedZ,
                                                          userFixedAMSL, kfs, currentTime,
                                                          previousBearing);
        i := i + 1;
      }
      assert KeyframeSeq(vertices, params, trig, distance, maxElev)[..i]
          == KeyframeSeq(vertices, params, trig, distance, maxElev);
    }

    /** One pass of the keyframe loop: the keyframe of vertex i is appended, then the time
        and the previous heading move on to vertex i + 1. */
    method PushKeyframe(vertices: seq<Point>, i: nat, params: FlythroughParams, maxElev: real,
                        autoFixedZ: real, userFixedAMSL: real, kfs: seq<Keyframe>,
                        currentTime: real, previousBearing: real)
      returns (kfs': seq<Keyframe>, nextTime: real, bearing: real)
      requires i < |vertices|
      requires autoFixedZ == if Contains(params.altitudeMode, "Safe Path") then SafePathZ(maxElev, params) else 0.0
      requires userFixedAMSL == if !Contains(params.altitudeMode, "Safe Path") && Contains(params.altitudeMode, "Fixed")
                                then ScaledHeight(params) else 0.0
      requires kfs == KeyframeSeq(vertices, params, trig, distance, maxElev)[..i]
      requires currentTime == TimeAt(vertices, i, params.speed, distance)
      requires previousBearing == if i == 0 then 0.0 else YawAt(vertices, i - 1, trig)
      ensures kfs' == KeyframeSeq(vertices, params, trig, distance, maxElev)[..i + 1]
      ensures i + 1 < |vertices| ==> nextTime == TimeAt(vertices, i + 1, params.speed, distance)
      ensures bearing == YawAt(vertices, i, trig)
    {
      var kf := MakeKeyframe(vertices, i, params, maxElev, autoFixedZ, userFixedAMSL,
                             currentTime, previousBearing);
      ghost var all := KeyframeSeq(vertices, params, trig, distance, maxElev);
      assert all[i] == kf;
      PrefixExtends(all, i);
      kfs' := kfs + [kf];
      nextTime := AdvanceTime(vertices, i, params.speed, currentTime);
      bearing := kf.yaw;
    }

    /** The time update at the end of the keyframe loop: the duration of the segment to
        the next vertex is added, except after the last vertex. */
    method AdvanceTime(vertices: seq<Point>, i: nat, speed: real, currentTime: real)
      returns (nextTime: real)
      requires i < |vertices| && currentTime == TimeAt(vertices, i, speed, distance)
      ensures i + 1 < |vertices| ==> nextTime == TimeAt(vertices, i + 1, speed, distance)
      ensures i + 1 == |vertices| ==> nextTime == currentTime
    {
      nextTime := currentTime;
      if i < |vertices| - 1 {
        var segmentDistance := distance(vertices[i], vertices[i + 1]);
        nextTime := nextTime + SegmentDuration(segmentDistance, speed);
      }
    }

    /** The altitudes generateKeyframes fixes before its keyframe loop: autoFixedZ for the
        safe-path mode and userFixedAMSL for the fixed mode, each 0 under the other modes. */
    static method FixedAltitudes(params: FlythroughParams, maxElev: real)
      returns (autoFixedZ: real, userFixedAMSL: real)
      ensures autoFixedZ == if Contains(params.altitudeMode, "Safe Path") then SafePathZ(maxElev, params) else 0.0
      ensures userFixedAMSL == if !Contains(params.altitudeMode, "Safe Path") && Contains(params.altitudeMode, "Fixed")
                               then ScaledHeight(params) else 0.0
    {
      autoFixedZ, userFixedAMSL := 0.0, 0.0;
      if Contains(params.altitudeMode, "Safe Path") {
        autoFixedZ := (maxElev + params.cameraHeight) * params.verticalExaggeration;
      } else if Contains(params.altitudeMode, "Fixed") {
        userFixedAMSL := params.cameraHeight * params.verticalExaggeration;
      }
    }

    /** The body of the keyframe loop for vertex i: altitude by mode, heading toward the next
        vertex (or the previous heading at the end), and the banking roll at interior
        vertices. */
    method MakeKeyframe(vertices: seq<Point>, i: nat, params: FlythroughParams, maxElev: real,
                        autoFixedZ: real, userFixedAMSL: real,
                        currentTime: real, previousBearing: real)
      returns (kf: Keyframe)
      requires i < |vertices|
      requires autoFixedZ == if Contains(params.altitudeMode, "Safe Path") then SafePathZ(maxElev, params) else 0.0
      requires userFixedAMSL == if !Contains(params.altitudeMode, "Safe Path") && Contains(params.altitudeMode, "Fixed")
                                then ScaledHeight(params) else 0.0
      requires currentTime == TimeAt(vertices, i, params.speed, distance)
      requires previousBearing == if i == 0 then 0.0 else YawAt(vertices, i - 1, trig)
      ensures kf == KeyframeAt(vertices, i, params, trig, distance, maxElev)
      ensures kf.yaw == YawAt(vertices, i, trig)
    {
      var point := vertices[i];
      var elevation := ElevationAt(params.demLayer, point);
      var scaledElevation := elevation * params.verticalExaggeration;
      assert scaledElevation == ScaledElevation(params, vertices[i]);

      var targetZ;
      if Contains(params.altitudeMode, "Safe Path") {
        targetZ := autoFixedZ;
      } else if Contains(params.altitudeMode, "Fixed") {
        targetZ := userFixedAMSL;
      } else {
        targetZ := scaledElevation + params.cameraHeight * params.verticalExaggeration;
      }
      assert targetZ == TargetZ(ResolveMode(params.altitudeMode), maxElev, scaledElevation, params);

      var yaw;
      if i < |vertices| - 1 {
        yaw := CalculateBearing(vertices[i], vertices[i + 1], trig);
      } else {
        yaw := previousBearing;
      }

      assert yaw == YawAt(vertices, i, trig);
      var roll := BankingRoll(vertices, i, params);
      kf := Keyframe(currentTime, point.x, point.y, targetZ, scaledElevation, yaw,
                     params.cameraPitch, roll);
    }

    /** The banking roll of vertex i: at an interior vertex with banking enabled, the turn
        from the incoming to the outgoing bearing, wrapped into [-180, 180], times -factor and
        clamped to 45 degrees either way; 0 elsewhere. */
    method BankingRoll(vertices: seq<Point>, i: nat, params: FlythroughParams) returns (roll: real)
      requires i < |vertices|
      ensures roll == RollAt(vertices, i, params, trig)
    {
      roll := 0.0;
      if params.enableBanking && i > 0 && i < |vertices| - 1 {
        var bearingIn := CalculateBearing(vertices[i - 1], vertices[i], trig);
        var bearingOut := CalculateBearing(vertices[i], vertices[i + 1], trig);
        var turnAngle := NormalizeAngle(bearingOut - bearingIn);
        assert turnAngle == TurnAngle(vertices, i, trig);
        roll := TurnRoll(turnAngle, params.bankingFactor);
      }
    }

    /** The roll for a wrapped turn angle: -turnAngle * factor, clamped to 45 degrees either
        way. */
    static method TurnRoll(turnAngle: real, bankingFactor: real) returns (roll: real)
      ensures roll == BankRoll(turnAngle, bankingFactor)
    {
      roll := -turnAngle * bankingFactor;
      roll := QMax(-45.0, QMin(45.0, roll));
    }

    /** The pose moveCamera computes from these arguments with the stored camera height,
        look-ahead distance and DEM layer. */
    function CameraFor(x: real, y: real, groundZ: real, yaw: real, pitchParam: real,
                       lookX: real, lookY: real, lookGz: real, absoluteZ: real): CameraPose
      reads this`mCameraHeight, this`mLookaheadDist, this`mDemLayer
    {
      PoseOf(x, y, groundZ, yaw, pitchParam, lookX, lookY, lookGz, absoluteZ,
             mCameraHeight, mLookaheadDist, mDemLayer, trig)
    }

    /** moveCamera with the stored fields: the pose handed to the camera controller, whose
        distance is at least 1 or the stored camera height, and whose pitch and yaw are in
        range. */
    method MoveCamera(x: real, y: real, groundZ: real, yaw: real, pitchParam: real,
                      lookX: real, lookY: real, lookGz: real, absoluteZ: real)
      returns (pose: CameraPose)
      ensures pose == CameraFor(x, y, groundZ, yaw, pitchParam, lookX, lookY, lookGz, absoluteZ)
      ensures pose.distance >= 1.0 || pose.distance == mCameraHeight
      ensures 0.0 <= pose.pitch <= 180.0 && 0.0 <= pose.yaw < 360.0
    {
      pose := Pose.MoveCamera(x, y, groundZ, yaw, pitchParam, lookX, lookY, lookGz, absoluteZ,
                              mCameraHeight, mLookaheadDist, mDemLayer, trig);
    }

    /** setupAnimation: with keyframes, the cursor restarts at the first keyframe, the timer
        interval and time step follow from the frame rate, and the camera is placed at the
        first keyframe looking toward the second (toward itself when there is only one).
        Without keyframes nothing changes and no camera move happens. */
    method SetupAnimation(params: FlythroughParams) returns (pose: Option<CameraPose>)
      requires params.fps != 0
      modifies this`mAnimIndex, this`mAnimElapsed, this`mAnimIntervalMs, this`mAnimDt
      ensures |mKeyframes| == 0 ==>
                pose == None && mAnimIndex == old(mAnimIndex) && mAnimElapsed == old(mAnimElapsed) &&
                mAnimIntervalMs == old(mAnimIntervalMs) && mAnimDt == old(mAnimDt)
      ensures |mKeyframes| > 0 ==>
                State() == PlayState(0, 0.0) &&
                mAnimIntervalMs == IntervalMs(params.fps) && mAnimDt == FrameDt(params.fps)
      ensures |mKeyframes| > 0 ==>
                var kf0 := mKeyframes[0];
                var kf1 := if |mKeyframes| > 1 then mKeyframes[1] else kf0;
                pose == Some(CameraFor(kf0.x, kf0.y, kf0.groundZ, kf0.yaw, kf0.pitch,
                                       kf1.x, kf1.y, kf1.groundZ, kf0.z))
    {
      if |mKeyframes| == 0 {
        return None;
      }
      mAnimIndex := 0;
      mAnimElapsed := 0.0;
      mAnimIntervalMs := IntervalMs(params.fps);
      mAnimDt := mAnimIntervalMs as real / 1000.0;

      var p := PlaceAtStart();
      pose := Some(p);
    }

    /** The first camera move of setupAnimation: at the first keyframe, looking toward the
        second, or toward itself when there is only one. */
    method PlaceAtStart() returns (pose: CameraPose)
      requires |mKeyframes| > 0
      ensures var kf0 := mKeyframes[0];
              var kf1 := if |mKeyframes| > 1 then mKeyframes[1] else kf0;
              pose == CameraFor(kf0.x, kf0.y, kf0.groundZ, kf0.yaw, kf0.pitch,
                                kf1.x, kf1.y, kf1.groundZ, kf0.z)
    {
      var kf0 := mKeyframes[0];
      var kf1 := if |mKeyframes| > 1 then mKeyframes[1] else kf0;
      pose := MoveCamera(kf0.x, kf0.y, kf0.groundZ, kf0.yaw, kf0.pitch, kf1.x, kf1.y,
                         kf1.groundZ, kf0.z);
    }

    /** advanceAnimation: one timer tick. A finished animation changes nothing and shows
        nothing; otherwise the frame of the current segment at the current elapsed time goes to
        the camera, and the cursor moves as Playback.Advance says. */
    method AdvanceAnimation() returns (frame: Option<Frame>, pose: Option<CameraPose>)
      modifies this`mAnimIndex, this`mAnimElapsed
      ensures State() == Advance(mKeyframes, old(State()), mAnimDt)
      ensures frame == Step(mKeyframes, old(State()), mAnimDt).frame
      ensures pose.Some? <==> frame.Some?
      ensures frame.Some? ==>
                var f := frame.value;
                pose == Some(CameraFor(f.x, f.y, f.groundZ, f.yaw, f.pitch, f.lookX, f.lookY, f.lookGz, f.z))
    {
      if |mKeyframes| == 0 || mAnimIndex >= |mKeyframes| - 1 {
        return None, None;
      }
      var f, p := CurrentFrame();
      frame, pose := Some(f), Some(p);
      MoveCursor();
    }

    /** The interpolated frame of the current segment and the camera pose moveCamera makes
        of it. */
    method CurrentFrame() returns (f: Frame, pose: CameraPose)
      requires !Finished(mKeyframes, State())
      ensures f == FrameAt(mKeyframes, mAnimIndex, mAnimElapsed)
      ensures pose == CameraFor(f.x, f.y, f.groundZ, f.yaw, f.pitch, f.lookX, f.lookY, f.lookGz, f.z)
    {
      f := FrameOf(mKeyframes, mAnimIndex, mAnimElapsed);
      pose := MoveCamera(f.x, f.y, f.groundZ, f.yaw, f.pitch, f.lookX, f.lookY, f.lookGz, f.z);
    }

    /** The end of a tick: elapsed grows by the time step, and the index moves to the next
        segment once elapsed reaches kfB's time. */
    method MoveCursor()
      requires !Finished(mKeyframes, State())
      modifies this`mAnimIndex, this`mAnimElapsed
      ensures State() == Advance(mKeyframes, old(State()), mAnimDt)
    {
      ghost var s0 := State();
      mAnimElapsed := mAnimElapsed + mAnimDt;
      if mAnimElapsed >= mKeyframes[mAnimIndex + 1].time {
        mAnimIndex := mAnimIndex + 1;
      }
      assert State() == Advance(mKeyframes, s0, mAnimDt);
    }
  }

  /** The interpolation advanceAnimation performs for segment idx at the given elapsed
      time. */
  method FrameOf(kfs: seq<Keyframe>, idx: nat, elapsed: real) returns (f: Frame)
    requires idx + 1 < |kfs|
    ensures f == FrameAt(kfs, idx, elapsed)
  {
    var kfA, kfB := kfs[idx], kfs[idx + 1];
    var hasNext := idx + 2 < |kfs|;
    var kfC := if hasNext then kfs[idx + 2] else kfB;

    var segDuration := kfB.time - kfA.time;
    if segDuration <= 0.0 {
      segDuration := 0.001;
    }
    assert segDuration == SegDuration(kfA, kfB);
    var localT := (elapsed - kfA.time) / segDuration;
    localT := QMax(0.0, QMin(1.0, localT));
    assert localT == LocalT(elapsed, kfA, kfB);

    var t := Smoothstep(localT);
    var yaw := LerpAngle(kfA.yaw, kfB.yaw, t);

    var blend := 0.0;
    var targetX, targetY, targetGz := kfB.x, kfB.y, kfB.groundZ;
    if hasNext && t > 0.8 {
      blend := (t - 0.8) / 0.2;
      targetX := Lerp(kfB.x, kfC.x, blend);
      targetY := Lerp(kfB.y, kfC.y, blend);
      targetGz := Lerp(kfB.groundZ, kfC.groundZ, blend);
    }
    f := Frame(localT, t, Lerp(kfA.x, kfB.x, t), Lerp(kfA.y, kfB.y, t),
               Lerp(kfA.groundZ, kfB.groundZ, t), Lerp(kfA.z, kfB.z, t),
               yaw, Lerp(kfA.pitch, kfB.pitch, t), targetX, targetY, targetGz, blend);
  }
}
